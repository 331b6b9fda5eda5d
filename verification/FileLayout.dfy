/** The bytes of a checkpoint, position by position: what every written file is made of and
    what every accepted file must be made of. */
module FileLayout {
  import opened RealSums
  import opened Shapes
  import opened ByteCodec
  import opened Checkpoints

  /** The four bytes of `v` from position `at` on, least significant first. */
  ghost predicate Bytes4(s: seq<byte>, at: nat, v: nat) {
    && at + 4 <= |s| && s[at] == v % 0x100 && s[at + 1] == v / 0x100 % 0x100
    && s[at + 2] == v / 0x1_0000 % 0x100 && s[at + 3] == v / 0x100_0000 % 0x100
  }

  /** The eight bytes of `v` from position `at` on, least significant first. */
  ghost predicate Bytes8(s: seq<byte>, at: nat, v: nat) {
    at + 8 <= |s| && Bytes4(s, at, v) && Bytes4(s, at + 4, v / 0x1_0000_0000)
  }

  /** "TSTRNV1" and a zero byte, version 1, the two dimensions, and a flag byte that is
      nonzero exactly for a bias. */
  ghost predicate HeaderLayout(s: seq<byte>, c: Config) {
    && |s| >= 29 && s[..8] == [84, 83, 84, 82, 78, 86, 49, 0] && s[8..12] == [1, 0, 0, 0]
    && c.inFeatures >= 0 && Bytes8(s, 12, c.inFeatures) && c.outFeatures >= 0 && Bytes8(s, 20, c.outFeatures)
    && (s[28] != 0 <==> c.useBias)
  }

  /** Rank, dimensions, element count and four-byte elements. */
  ghost predicate TensorLayout(s: seq<byte>, at: nat, dims: seq<int>, words: seq<Word>) {
    && Bytes8(s, at, |dims|) && (forall k :: 0 <= k < |dims| ==> dims[k] >= 0 && DimBytes(s, at, k, dims[k]))
    && Bytes8(s, at + 8 + 8 * |dims|, |words|) && forall i :: 0 <= i < |words| ==> WordBytes(s, at + 16 + 8 * |dims|, i, words[i])
  }

  ghost predicate DimBytes(s: seq<byte>, at: nat, k: nat, dim: nat) {
    Bytes8(s, at + 8 + 8 * k, dim)
  }

  ghost predicate WordBytes(s: seq<byte>, at: nat, i: nat, word: nat) {
    Bytes4(s, at + 4 * i, word)
  }

  /** A whole file: header, weight and, if there is one, bias; nothing follows. */
  ghost predicate Layout(s: seq<byte>, c: Config, d: Payload) {
    && HeaderLayout(s, c) && BodyLayout(s, c, d)
    && |s| == 61 + 4 * |d.weight| + if c.useBias then 24 + 4 * |d.bias| else 0
  }

  ghost predicate BodyLayout(s: seq<byte>, c: Config, d: Payload) {
    && TensorLayout(s, 29, [c.inFeatures, c.outFeatures], d.weight)
    && (c.useBias ==> TensorLayout(s, 61 + 4 * |d.weight|, [c.outFeatures], d.bias))
  }

  // ----- fields and their bytes

  lemma Le4(v: nat, n: nat)
    requires n >= 4
    ensures Bytes4(Le(v, n), 0, v) && Le(v, n)[4..] == Le(v / 0x1_0000_0000, n - 4)
  {
    var a, b, c := v / 0x100, v / 0x1_0000, v / 0x100_0000;
    assert Le(v, n) == [v % 256] + Le(a, n - 1);
    assert a / 256 == b && b / 256 == c && c / 256 == v / 0x1_0000_0000;
    assert Le(a, n - 1) == [a % 256] + Le(b, n - 2);
    assert Le(b, n - 2) == [b % 256] + Le(c, n - 3);
    assert Le(c, n - 3) == [c % 256] + Le(c / 256, n - 4);
  }

  lemma Le8(v: nat)
    ensures Bytes8(Le(v, 8), 0, v)
  {
    Le4(v, 8);
    Le4(v / 0x1_0000_0000, 4);
    var s := Le(v, 8);
    forall k | 0 <= k < 4 ensures s[4 + k] == Le(v / 0x1_0000_0000, 4)[k] {
      assert s[4..][k] == s[4 + k];
    }
  }

  /** A four-byte field holds `v` exactly when its bytes are those of `v`. */
  lemma FieldBytes4(s: seq<byte>, at: nat, v: nat)
    requires at + 4 <= |s| && v < 0x1_0000_0000
    ensures Field(s, at, 4) == v <==> Bytes4(s, at, v)
  {
    Widths();
    FieldIs(s, at, 4, v);
    Le4(v, 4);
    var slice := s[at..at + 4];
    assert Bytes4(s, at, v) <==> forall k :: 0 <= k < 4 ==> slice[k] == Le(v, 4)[k];
  }

  lemma FieldBytes8(s: seq<byte>, at: nat, v: nat)
    requires at + 8 <= |s| && v < 0x1_0000_0000_0000_0000
    ensures Field(s, at, 8) == v <==> Bytes8(s, at, v)
  {
    Widths();
    FieldIs(s, at, 8, v);
    Le8(v);
    var slice := s[at..at + 8];
    assert Bytes8(s, at, v) <==> forall k :: 0 <= k < 8 ==> slice[k] == Le(v, 8)[k];
  }

  // ----- acceptance by bytes

  lemma HeaderIs(s: seq<byte>, c: Config)
    requires ConfigOk(c)
    ensures HeaderAt(s, c) <==> HeaderLayout(s, c)
  {
    DimensionsSmall(c);
    if |s| >= 29 {
      VersionIs(s);
      FieldBytes8(s, 12, c.inFeatures);
      FieldBytes8(s, 20, c.outFeatures);
      HeaderJoin(s, c, Bytes8(s, 12, c.inFeatures), Bytes8(s, 20, c.outFeatures));
    }
  }

  lemma HeaderJoin(s: seq<byte>, c: Config, first: bool, second: bool)
    requires |s| >= 29 && 0 < c.inFeatures < 0x4000_0000_0000_0000 && 0 < c.outFeatures < 0x4000_0000_0000_0000
    requires Field(s, 8, 4) == 1 <==> s[8..12] == [1, 0, 0, 0]
    requires (Field(s, 12, 8) == c.inFeatures <==> first) && (Field(s, 20, 8) == c.outFeatures <==> second)
    ensures HeaderAt(s, c) <==>
            s[..8] == [84, 83, 84, 82, 78, 86, 49, 0] && s[8..12] == [1, 0, 0, 0] && first && second
            && (s[28] != 0 <==> c.useBias)
  {
  }

  lemma VersionIs(s: seq<byte>)
    requires |s| >= 12
    ensures Field(s, 8, 4) == 1 <==> s[8..12] == [1, 0, 0, 0]
  {
    FieldBytes4(s, 8, 1);
    var version := s[8..12];
    assert Bytes4(s, 8, 1) <==> version == [1, 0, 0, 0];
  }

  lemma DimensionsSmall(c: Config)
    requires ConfigOk(c)
    ensures 0 < c.inFeatures < 0x4000_0000_0000_0000 && 0 < c.outFeatures < 0x4000_0000_0000_0000
  {
    NumelPair(c.inFeatures, c.outFeatures);
    assert WeightDims(c)[0] > 0 && WeightDims(c)[1] > 0;
    MulMonotone(1, c.inFeatures, c.outFeatures);
    MulMonotone(1, c.outFeatures, c.inFeatures);
    assert c.inFeatures * c.outFeatures == c.outFeatures * c.inFeatures;
  }

  lemma TensorIsLayout(s: seq<byte>, at: nat, dims: seq<int>, words: seq<Word>)
    requires |dims| <= 2 && |words| == Numel(dims) < 0x4000_0000_0000_0000
    requires forall k :: 0 <= k < |dims| ==> 0 < dims[k] < 0x4000_0000_0000_0000
    requires at + 16 + 8 * |dims| + 4 * |words| <= |s|
    ensures TensorAt(s, at, dims) && ElementsOf(s, at, dims) == words <==> TensorLayout(s, at, dims, words)
  {
    FieldBytes8(s, at, |dims|);
    FieldBytes8(s, at + 8 + 8 * |dims|, |words|);
    DimsAreBytes(s, at, dims);
    WordsAreBytes(s, at + 16 + 8 * |dims|, words);
  }

  lemma DimsAreBytes(s: seq<byte>, at: nat, dims: seq<int>)
    requires forall k :: 0 <= k < |dims| ==> 0 < dims[k] < 0x4000_0000_0000_0000
    requires at + 8 + 8 * |dims| <= |s|
    ensures DimsAt(s, at + 8, dims) <==> forall k :: 0 <= k < |dims| ==> dims[k] >= 0 && DimBytes(s, at, k, dims[k])
  {
    forall k | 0 <= k < |dims|
      ensures FieldNumber(s, at + 8, 8, k) == Unsigned64(dims[k]) <==> DimBytes(s, at, k, dims[k])
    {
      FieldBytes8(s, at + 8 + 8 * k, dims[k]);
    }
  }

  lemma WordsAreBytes(s: seq<byte>, at: nat, words: seq<Word>)
    requires at + 4 * |words| <= |s|
    ensures WordsAt(s, at, |words|) == words <==> forall i :: 0 <= i < |words| ==> WordBytes(s, at, i, words[i])
  {
    var stored := WordsAt(s, at, |words|);
    forall i | 0 <= i < |words| ensures stored[i] == words[i] <==> WordBytes(s, at, i, words[i]) {
      FieldBytes4(s, at + 4 * i, words[i]);
    }
  }

  lemma Sizes(c: Config, d: Payload)
    requires ConfigOk(c) && PayloadOk(c, d)
    ensures HeaderSize == 29 && BiasAt(c) == 61 + 4 * |d.weight|
    ensures FileSize(c) == 61 + 4 * |d.weight| + if c.useBias then 24 + 4 * |d.bias| else 0
    ensures |d.weight| < 0x4000_0000_0000_0000 && |d.bias| < 0x4000_0000_0000_0000
  {
  }

  /** The tensors of a file, by fields. */
  ghost predicate BodyAt(s: seq<byte>, c: Config, d: Payload)
    requires ConfigOk(c) && BiasAt(c) >= 0 && Numel(WeightDims(c)) >= 0 && Numel(BiasDims(c)) >= 0
  {
    WeightAt(s, c, d) && (c.useBias ==> BiasStored(s, c, d))
  }

  lemma AcceptedParts(s: seq<byte>, c: Config, d: Payload)
    requires ConfigOk(c) && PayloadOk(c, d) && BiasAt(c) >= 0
    ensures Accepted(s, c) && Loaded(s, c) == d <==> HeaderAt(s, c) && BodyAt(s, c, d) && |s| == FileSize(c)
  {
  }

  ghost predicate WeightAt(s: seq<byte>, c: Config, d: Payload)
    requires Numel(WeightDims(c)) >= 0
  {
    TensorAt(s, HeaderSize, WeightDims(c)) && ElementsOf(s, HeaderSize, WeightDims(c)) == d.weight
  }

  ghost predicate BiasStored(s: seq<byte>, c: Config, d: Payload)
    requires BiasAt(c) >= 0 && Numel(BiasDims(c)) >= 0
  {
    TensorAt(s, BiasAt(c), BiasDims(c)) && ElementsOf(s, BiasAt(c), BiasDims(c)) == d.bias
  }

  lemma WeightIs(s: seq<byte>, c: Config, d: Payload)
    requires ConfigOk(c) && PayloadOk(c, d) && |s| == FileSize(c) && BiasAt(c) >= 0
    ensures WeightAt(s, c, d) <==> TensorLayout(s, 29, [c.inFeatures, c.outFeatures], d.weight)
  {
    Sizes(c, d);
    DimensionsSmall(c);
    TensorIsLayout(s, 29, WeightDims(c), d.weight);
  }

  lemma BiasIs(s: seq<byte>, c: Config, d: Payload)
    requires ConfigOk(c) && PayloadOk(c, d) && |s| == FileSize(c) && BiasAt(c) >= 0 && c.useBias
    ensures BiasStored(s, c, d) <==> TensorLayout(s, 61 + 4 * |d.weight|, [c.outFeatures], d.bias)
  {
    Sizes(c, d);
    DimensionsSmall(c);
    TensorIsLayout(s, 61 + 4 * |d.weight|, BiasDims(c), d.bias);
  }

  lemma BodyIsLayout(s: seq<byte>, c: Config, d: Payload)
    requires ConfigOk(c) && PayloadOk(c, d) && |s| == FileSize(c) && BiasAt(c) >= 0
    ensures BodyAt(s, c, d) <==> BodyLayout(s, c, d)
  {
    WeightIs(s, c, d);
    if c.useBias {
      BiasIs(s, c, d);
    }
  }

  /** A file is accepted with given contents exactly if its bytes are laid out like this. */
  lemma AcceptedIsLayout(s: seq<byte>, c: Config, d: Payload)
    requires ConfigOk(c) && PayloadOk(c, d)
    ensures Accepted(s, c) && Loaded(s, c) == d <==> Layout(s, c, d)
  {
    Sizes(c, d);
    AcceptedParts(s, c, d);
    assert HeaderAt(s, c) <==> HeaderLayout(s, c) by {
      HeaderIs(s, c);
    }
    if |s| == FileSize(c) {
      assert BodyAt(s, c, d) <==> BodyLayout(s, c, d) by {
        BodyIsLayout(s, c, d);
      }
    }
  }

  /** A saved file is laid out like this, with a flag byte of one or zero. */
  lemma SavedLayout(c: Config, d: Payload)
    requires ConfigOk(c) && PayloadOk(c, d)
    ensures Layout(Save(c, d), c, d) && Save(c, d)[28] == if c.useBias then 1 else 0
  {
    LoadOfSave(c, d);
    AcceptedIsLayout(Save(c, d), c, d);
    SavedFlag(c, Flag(c), d);
  }

  /** A file is accepted exactly if it is laid out like this for some contents. */
  lemma AcceptedExactly(s: seq<byte>, c: Config)
    requires ConfigOk(c)
    ensures Accepted(s, c) <==> exists d: Payload :: PayloadOk(c, d) && Layout(s, c, d)
  {
    if Accepted(s, c) {
      NumelPositive(WeightDims(c));
      NumelPositive(BiasDims(c));
      var d := Loaded(s, c);
      AcceptedIsLayout(s, c, d);
      assert PayloadOk(c, d) && Layout(s, c, d);
    }
    if d: Payload :| PayloadOk(c, d) && Layout(s, c, d) {
      AcceptedIsLayout(s, c, d);
    }
  }
}
