/** Little-endian fields in byte sequences. */
module ByteCodec {
  type byte = b: int | 0 <= b < 256

  function Pow256(n: nat): nat {
    if n == 0 then 1 else 256 * Pow256(n - 1)
  }

  /** The `n` low-order bytes of `v`, least significant first. */
  function Le(v: nat, n: nat): (s: seq<byte>)
    ensures |s| == n
  {
    if n == 0 then [] else [v % 256] + Le(v / 256, n - 1)
  }

  function FromLe(s: seq<byte>): nat {
    if |s| == 0 then 0 else s[0] + 256 * FromLe(s[1..])
  }

  lemma {:induction false} FromLeBound(s: seq<byte>)
    ensures FromLe(s) < Pow256(|s|)
  {
    if |s| != 0 {
      FromLeBound(s[1..]);
    }
  }

  lemma {:induction false} DecodeEncode(v: nat, n: nat)
    requires v < Pow256(n)
    ensures FromLe(Le(v, n)) == v
  {
    if n != 0 {
      DecodeEncode(v / 256, n - 1);
      assert Le(v, n)[1..] == Le(v / 256, n - 1);
    }
  }

  lemma {:induction false} EncodeDecode(s: seq<byte>)
    ensures Le(FromLe(s), |s|) == s
  {
    if |s| != 0 {
      EncodeDecode(s[1..]);
      assert FromLe(s) % 256 == s[0] && FromLe(s) / 256 == FromLe(s[1..]);
      assert s == [s[0]] + s[1..];
    }
  }

  /** The field of `n` bytes at position `at`. */
  function Field(s: seq<byte>, at: nat, n: nat): nat
    requires at + n <= |s|
  {
    FromLe(s[at..at + n])
  }

  /** A field holds `v` exactly when its bytes are those of `v`. */
  lemma FieldIs(s: seq<byte>, at: nat, n: nat, v: nat)
    requires at + n <= |s| && v < Pow256(n)
    ensures Field(s, at, n) == v <==> s[at..at + n] == Le(v, n)
  {
    DecodeEncode(v, n);
    EncodeDecode(s[at..at + n]);
  }

  /** Consecutive fields of `n` bytes each. */
  function Fields(values: seq<nat>, n: nat): (s: seq<byte>)
    ensures |s| == |values| * n
  {
    if |values| == 0 then [] else Fields(values[..|values| - 1], n) + Le(values[|values| - 1], n)
  }

  lemma {:induction false} FieldsAre(s: seq<byte>, at: nat, values: seq<nat>, n: nat)
    requires at + |values| * n <= |s| && forall i :: 0 <= i < |values| ==> values[i] < Pow256(n)
    ensures s[at..at + |values| * n] == Fields(values, n) <==>
            forall i :: 0 <= i < |values| ==> FieldNumber(s, at, n, i) == values[i]
  {
    if |values| != 0 {
      var k := |values| - 1;
      var front := values[..k];
      NextMultiple(k, n);
      FieldsAre(s, at, front, n);
      FieldsStep(s, at, at + k * n, values, n);
      assert FieldNumber(s, at, n, k) == Field(s, at + k * n, n);
      assert forall i :: 0 <= i < k ==> front[i] == values[i];
    }
  }

  lemma NextMultiple(k: nat, n: nat)
    ensures (k + 1) * n == k * n + n && k * n >= 0
  {
  }

  lemma FieldsStep(s: seq<byte>, at: nat, mid: nat, values: seq<nat>, n: nat)
    requires |values| > 0 && at <= mid && mid + n <= |s| && values[|values| - 1] < Pow256(n)
    requires |Fields(values[..|values| - 1], n)| == mid - at
    ensures s[at..mid + n] == Fields(values, n) <==>
            s[at..mid] == Fields(values[..|values| - 1], n) && Field(s, mid, n) == values[|values| - 1]
  {
    var last := values[|values| - 1];
    FieldIs(s, mid, n, last);
    assert s[at..mid + n] == s[at..mid] + s[mid..mid + n];
    SplitEqual(s[at..mid], s[mid..mid + n], Fields(values[..|values| - 1], n), Le(last, n));
  }

  lemma SplitEqual(a: seq<byte>, b: seq<byte>, c: seq<byte>, d: seq<byte>)
    requires |a| == |c|
    ensures a + b == c + d <==> a == c && b == d
  {
    assert (a + b)[..|a|] == a && (a + b)[|a|..] == b;
    assert (c + d)[..|c|] == c && (c + d)[|c|..] == d;
  }

  /** Field number `i` of an array of fields; zero outside the sequence. */
  function FieldNumber(s: seq<byte>, at: nat, n: nat, i: nat): nat {
    if at + i * n + n <= |s| then Field(s, at + i * n, n) else 0
  }

  const TWO63: int := 0x8000_0000_0000_0000
  const TWO64: int := 0x1_0000_0000_0000_0000

  /** Two's complement of 64 bits. */
  function Unsigned64(v: int): nat {
    v % TWO64
  }

  function Signed64(u: nat): int {
    if u < TWO63 then u else u - TWO64
  }

  lemma SignedUnsigned(v: int, u: nat)
    requires -TWO63 <= v < TWO63 && u < TWO64
    ensures Signed64(u) == v <==> u == Unsigned64(v)
  {
  }

  lemma Widths()
    ensures Pow256(1) == 256 && Pow256(4) == 0x1_0000_0000 && Pow256(8) == TWO64
  {
    assert Pow256(0) == 1;
    assert Pow256(2) == 256 * Pow256(1);
    assert Pow256(3) == 256 * Pow256(2);
    assert Pow256(5) == 256 * Pow256(4);
    assert Pow256(6) == 256 * Pow256(5);
    assert Pow256(7) == 256 * Pow256(6);
  }

  // ----- streams

  /** A byte stream with a read cursor. */
  class InStream {
    const bytes: seq<byte>
    var pos: nat

    ghost predicate Valid()
      reads this
    {
      pos <= |bytes|
    }

    constructor (bytes: seq<byte>)
      ensures Valid() && this.bytes == bytes && pos == 0
    {
      this.bytes, pos := bytes, 0;
    }

    /** Read one scalar; a short read fails and exhausts the stream. */
    method ReadScalar(n: nat) returns (ok: bool, value: nat)
      requires Valid()
      modifies this
      ensures Valid()
      ensures ok <==> old(pos) + n <= |bytes|
      ensures ok ==> pos == old(pos) + n && value == Field(bytes, old(pos), n) && value < Pow256(n)
    {
      if |bytes| - pos < n {
        pos := |bytes|;
        return false, 0;
      }
      FromLeBound(bytes[pos..pos + n]);
      value := FromLe(bytes[pos..pos + n]);
      pos := pos + n;
      ok := true;
    }

    method AtEnd() returns (b: bool)
      requires Valid()
      ensures b <==> pos == |bytes|
    {
      b := pos == |bytes|;
    }
  }
}
