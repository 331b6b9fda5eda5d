/** The binary checkpoint format of a linear module: the writer, the language of accepted
    files, and their relation. */
module Checkpoints {
  import opened Shapes
  import opened ByteCodec

  /** A parameter element: an opaque four-byte word. */
  type Word = w: nat | w < 0x1_0000_0000

  const Magic: seq<byte> := [84, 83, 84, 82, 78, 86, 49, 0]
  const FormatVersion: nat := 1
  const HeaderSize: nat := 29
  const FlagAt: nat := 28

  /** What identifies a linear module: its dimensions and whether it has a bias. */
  datatype Config = Config(inFeatures: int, outFeatures: int, useBias: bool)

  function WeightDims(c: Config): seq<int> { [c.inFeatures, c.outFeatures] }

  function BiasDims(c: Config): seq<int> { [c.outFeatures] }

  ghost predicate ConfigOk(c: Config) {
    ValidDims(WeightDims(c)) && ValidDims(BiasDims(c))
  }

  /** Parameter contents; the bias is empty when there is none. */
  datatype Payload = Payload(weight: seq<Word>, bias: seq<Word>)

  ghost predicate PayloadOk(c: Config, d: Payload) {
    |d.weight| == Numel(WeightDims(c)) && |d.bias| == if c.useBias then Numel(BiasDims(c)) else 0
  }

  // ----- the writer

  function UnsignedDims(dims: seq<int>): (u: seq<nat>)
    ensures |u| == |dims|
  {
    seq(|dims|, i requires 0 <= i < |dims| => Unsigned64(dims[i]))
  }

  function Naturals(words: seq<Word>): (u: seq<nat>)
    ensures |u| == |words|
  {
    seq(|words|, i requires 0 <= i < |words| => words[i])
  }

  /** Rank, dimensions, element count and elements of one tensor. */
  function TensorBytes(dims: seq<int>, words: seq<Word>): (s: seq<byte>)
    ensures |s| == 16 + 8 * |dims| + 4 * |words|
  {
    Le(|dims|, 8) + (Fields(UnsignedDims(dims), 8) + (Le(|words|, 8) + Fields(Naturals(words), 4)))
  }

  function Header(c: Config, flag: byte): (s: seq<byte>)
    ensures |s| == HeaderSize
  {
    Magic + (Le(FormatVersion, 4) + (Le(Unsigned64(c.inFeatures), 8) + (Le(Unsigned64(c.outFeatures), 8) + [flag])))
  }

  /** A checkpoint file with a given bias flag byte. */
  function Print(c: Config, flag: byte, d: Payload): seq<byte> {
    Header(c, flag) + (TensorBytes(WeightDims(c), d.weight) + if c.useBias then TensorBytes(BiasDims(c), d.bias) else [])
  }

  function Flag(c: Config): byte {
    if c.useBias then 1 else 0
  }

  /** The file that saving a module writes. */
  function Save(c: Config, d: Payload): seq<byte> {
    Print(c, Flag(c), d)
  }

  // ----- the accepted language, by fields

  ghost predicate HeaderAt(s: seq<byte>, c: Config) {
    && |s| >= HeaderSize && s[..8] == Magic && Field(s, 8, 4) == FormatVersion
    && Field(s, 12, 8) == Unsigned64(c.inFeatures) && Field(s, 20, 8) == Unsigned64(c.outFeatures)
    && (s[FlagAt] != 0 <==> c.useBias)
  }

  function TensorSize(dims: seq<int>): int {
    16 + 8 * |dims| + 4 * Numel(dims)
  }

  /** A tensor of the expected shape at a position: its rank, dimensions and element count. */
  ghost predicate TensorAt(s: seq<byte>, at: nat, dims: seq<int>) {
    && Numel(dims) >= 0 && at + TensorSize(dims) <= |s|
    && Field(s, at, 8) == |dims| && DimsAt(s, at + 8, dims) && Field(s, at + 8 + 8 * |dims|, 8) == Numel(dims)
  }

  /** The words stored from a position on. */
  function WordsAt(s: seq<byte>, at: nat, count: nat): (words: seq<Word>)
    ensures |words| == count
  {
    seq(count, i => WordNumber(s, at, i))
  }

  function WordNumber(s: seq<byte>, at: nat, i: int): Word {
    if i < 0 then 0
    else
      Widths();
      if at + i * 4 + 4 <= |s| then FromLeBound(s[at + i * 4..at + i * 4 + 4]); FieldNumber(s, at, 4, i) else 0
  }

  function BiasAt(c: Config): int {
    HeaderSize + TensorSize(WeightDims(c))
  }

  function FileSize(c: Config): int {
    BiasAt(c) + if c.useBias then TensorSize(BiasDims(c)) else 0
  }

  /** What loading demands of a file. */
  ghost predicate Accepted(s: seq<byte>, c: Config) {
    && HeaderAt(s, c)
    && TensorAt(s, HeaderSize, WeightDims(c))
    && (c.useBias ==> BiasAt(c) >= 0 && TensorAt(s, BiasAt(c), BiasDims(c)))
    && |s| == FileSize(c)
  }

  function ElementsOf(s: seq<byte>, at: nat, dims: seq<int>): seq<Word>
    requires Numel(dims) >= 0
  {
    WordsAt(s, at + 8 + 8 * |dims| + 8, Numel(dims))
  }

  /** The parameter contents in an accepted file. */
  function Loaded(s: seq<byte>, c: Config): Payload
    requires Numel(WeightDims(c)) >= 0 && Numel(BiasDims(c)) >= 0
  {
    Payload(ElementsOf(s, HeaderSize, WeightDims(c)),
            if c.useBias then ElementsOf(s, BiasAt(c), BiasDims(c)) else [])
  }

  // ----- the fields are those of the printed file

  lemma SplitSlice(s: seq<byte>, a: nat, b: nat, c: nat, x: seq<byte>, y: seq<byte>)
    requires a <= b <= c <= |s| && |x| == b - a
    ensures s[a..c] == x + y <==> s[a..b] == x && s[b..c] == y
  {
    assert s[a..c] == s[a..b] + s[b..c];
    SplitEqual(s[a..b], s[b..c], x, y);
  }

  lemma WordsAre(s: seq<byte>, at: nat, words: seq<Word>)
    requires at + 4 * |words| <= |s|
    ensures s[at..at + 4 * |words|] == Fields(Naturals(words), 4) <==> WordsAt(s, at, |words|) == words
  {
    Widths();
    FieldsAre(s, at, Naturals(words), 4);
    assert (forall i :: 0 <= i < |words| ==> FieldNumber(s, at, 4, i) == Naturals(words)[i]) <==>
           forall i :: 0 <= i < |words| ==> WordsAt(s, at, |words|)[i] == words[i];
  }

  lemma DimsAre(s: seq<byte>, at: nat, dims: seq<int>)
    requires at + 8 * |dims| <= |s|
    ensures s[at..at + 8 * |dims|] == Fields(UnsignedDims(dims), 8) <==> DimsAt(s, at, dims)
  {
    Widths();
    FieldsAre(s, at, UnsignedDims(dims), 8);
  }

  ghost predicate PartsEqual(s: seq<byte>, at: nat, a: nat, b: nat, dims: seq<int>, words: seq<Word>)
    requires at + 8 <= |s| && a + 8 * |dims| <= |s| && b + 8 + 4 * |words| <= |s|
  {
    && s[at..at + 8] == Le(|dims|, 8) && s[a..a + 8 * |dims|] == Fields(UnsignedDims(dims), 8)
    && s[b..b + 8] == Le(|words|, 8) && s[b + 8..b + 8 + 4 * |words|] == Fields(Naturals(words), 4)
  }

  lemma TensorSplit(s: seq<byte>, at: nat, a: nat, b: nat, e: nat, dims: seq<int>, words: seq<Word>)
    requires a == at + 8 && b == a + 8 * |dims| && e == b + 8 + 4 * |words| && e <= |s|
    ensures s[at..e] == TensorBytes(dims, words) <==> PartsEqual(s, at, a, b, dims, words)
  {
    var r, d, n, x := Le(|dims|, 8), Fields(UnsignedDims(dims), 8), Le(|words|, 8), Fields(Naturals(words), 4);
    SplitSlice(s, at, a, e, r, d + (n + x));
    SplitSlice(s, a, b, e, d, n + x);
    SplitSlice(s, b, b + 8, e, n, x);
  }

  lemma CountIs(s: seq<byte>, at: nat, count: nat)
    requires at + 8 <= |s| && count <= MAX_F32
    ensures s[at..at + 8] == Le(count, 8) <==> Field(s, at, 8) == count
  {
    assert Pow256(8) == TWO64 by {
      Widths();
    }
    FieldIs(s, at, 8, count);
  }

  ghost predicate DimsAt(s: seq<byte>, at: nat, dims: seq<int>) {
    forall i :: 0 <= i < |dims| ==> FieldNumber(s, at, 8, i) == Unsigned64(dims[i])
  }

  ghost predicate FieldsHold(s: seq<byte>, at: nat, a: nat, b: nat, dims: seq<int>, words: seq<Word>)
    requires at + 8 <= |s| && b + 8 <= |s|
  {
    Field(s, at, 8) == |dims| && DimsAt(s, a, dims) && Field(s, b, 8) == |words| && WordsAt(s, b + 8, |words|) == words
  }

  lemma PartsAre(s: seq<byte>, at: nat, a: nat, b: nat, dims: seq<int>, words: seq<Word>)
    requires at + 8 <= |s| && a + 8 * |dims| <= |s| && b + 8 + 4 * |words| <= |s|
    requires |dims| <= MAX_RANK && |words| <= MAX_F32
    ensures PartsEqual(s, at, a, b, dims, words) <==> FieldsHold(s, at, a, b, dims, words)
  {
    CountIs(s, at, |dims|);
    DimsAre(s, a, dims);
    CountIs(s, b, |words|);
    WordsAre(s, b + 8, words);
  }

  /** A tensor's fields and elements determine its bytes, and conversely. */
  lemma TensorExact(s: seq<byte>, at: nat, a: nat, b: nat, e: nat, dims: seq<int>, words: seq<Word>)
    requires |dims| <= MAX_RANK && |words| <= MAX_F32
    requires a == at + 8 && b == a + 8 * |dims| && e == b + 8 + 4 * |words| && e <= |s|
    ensures s[at..e] == TensorBytes(dims, words) <==> FieldsHold(s, at, a, b, dims, words)
  {
    assert s[at..e] == TensorBytes(dims, words) <==> PartsEqual(s, at, a, b, dims, words) by {
      TensorSplit(s, at, a, b, e, dims, words);
    }
    assert PartsEqual(s, at, a, b, dims, words) <==> FieldsHold(s, at, a, b, dims, words) by {
      PartsAre(s, at, a, b, dims, words);
    }
  }

  lemma HeaderExact(s: seq<byte>, c: Config)
    requires |s| >= HeaderSize
    ensures s[..HeaderSize] == Header(c, s[FlagAt]) && (s[FlagAt] != 0 <==> c.useBias) <==> HeaderAt(s, c)
  {
    Widths();
    var i, o, f := Le(Unsigned64(c.inFeatures), 8), Le(Unsigned64(c.outFeatures), 8), [s[FlagAt]];
    assert s[..HeaderSize] == s[0..HeaderSize] && s[..8] == s[0..8];
    SplitSlice(s, 0, 8, HeaderSize, Magic, Le(FormatVersion, 4) + (i + (o + f)));
    SplitSlice(s, 8, 12, HeaderSize, Le(FormatVersion, 4), i + (o + f));
    SplitSlice(s, 12, 20, HeaderSize, i, o + f);
    SplitSlice(s, 20, 28, HeaderSize, o, f);
    assert s[28..29] == f;
    FieldIs(s, 8, 4, FormatVersion);
    FieldIs(s, 12, 8, Unsigned64(c.inFeatures));
    FieldIs(s, 20, 8, Unsigned64(c.outFeatures));
  }

  lemma TensorIs(s: seq<byte>, at: nat, e: nat, dims: seq<int>, words: seq<Word>)
    requires |dims| <= MAX_RANK && |words| == Numel(dims) <= MAX_F32 && e == at + TensorSize(dims) && e <= |s|
    ensures s[at..e] == TensorBytes(dims, words) <==> TensorAt(s, at, dims) && ElementsOf(s, at, dims) == words
  {
    var b := at + 8 + 8 * |dims|;
    var bytes, slice := TensorBytes(dims, words), s[at..e];
    assert slice == bytes <==> FieldsHold(s, at, at + 8, b, dims, words) by {
      TensorExact(s, at, at + 8, b, e, dims, words);
    }
    var there := TensorAt(s, at, dims) && ElementsOf(s, at, dims) == words;
    assert FieldsHold(s, at, at + 8, b, dims, words) <==> there by {
      HoldsIsAt(s, at, b, dims, words);
    }
  }

  lemma HoldsIsAt(s: seq<byte>, at: nat, b: nat, dims: seq<int>, words: seq<Word>)
    requires |words| == Numel(dims) && b == at + 8 + 8 * |dims| && b + 8 + 4 * |words| <= |s|
    ensures FieldsHold(s, at, at + 8, b, dims, words) <==> TensorAt(s, at, dims) && ElementsOf(s, at, dims) == words
  {
    assert ElementsOf(s, at, dims) == WordsAt(s, b + 8, |words|);
  }

  ghost predicate FlagMatches(s: seq<byte>, c: Config) {
    |s| >= HeaderSize && (s[FlagAt] != 0 <==> c.useBias)
  }

  lemma PrintedSize(c: Config, flag: byte, d: Payload)
    requires ConfigOk(c) && PayloadOk(c, d)
    ensures |Print(c, flag, d)| == FileSize(c) && BiasAt(c) >= HeaderSize && FileSize(c) >= BiasAt(c)
  {
  }

  lemma BodyExact(s: seq<byte>, c: Config, d: Payload)
    requires ConfigOk(c) && PayloadOk(c, d) && |s| == FileSize(c) && HeaderSize <= BiasAt(c) <= |s|
    ensures s[HeaderSize..] == TensorBytes(WeightDims(c), d.weight) + (if c.useBias then TensorBytes(BiasDims(c), d.bias) else [])
            <==>
            TensorAt(s, HeaderSize, WeightDims(c)) && ElementsOf(s, HeaderSize, WeightDims(c)) == d.weight
            && (c.useBias ==> TensorAt(s, BiasAt(c), BiasDims(c)) && ElementsOf(s, BiasAt(c), BiasDims(c)) == d.bias)
  {
    var m, e := BiasAt(c), FileSize(c);
    assert s[HeaderSize..] == s[HeaderSize..e];
    SplitSlice(s, HeaderSize, m, e, TensorBytes(WeightDims(c), d.weight),
               if c.useBias then TensorBytes(BiasDims(c), d.bias) else []);
    TensorIs(s, HeaderSize, m, WeightDims(c), d.weight);
    if c.useBias {
      TensorIs(s, m, e, BiasDims(c), d.bias);
    }
  }

  /** The files that loading accepts, with given contents, are exactly those that printing
      can produce with those contents and a bias flag byte of the right truth value. */
  lemma AcceptedIsPrinted(s: seq<byte>, c: Config, d: Payload)
    requires ConfigOk(c) && PayloadOk(c, d)
    ensures Accepted(s, c) && Loaded(s, c) == d <==> FlagMatches(s, c) && s == Print(c, s[FlagAt], d)
  {
    if FlagMatches(s, c) {
      PrintedSize(c, s[FlagAt], d);
      if |s| == FileSize(c) {
        HeaderExact(s, c);
        BodyExact(s, c, d);
        assert s == s[..HeaderSize] + s[HeaderSize..];
        SplitEqual(s[..HeaderSize], s[HeaderSize..], Header(c, s[FlagAt]),
                   TensorBytes(WeightDims(c), d.weight) + if c.useBias then TensorBytes(BiasDims(c), d.bias) else []);
      }
    }
  }

  // ----- the relation of saving and loading

  lemma SavedFlag(c: Config, flag: byte, d: Payload)
    requires ConfigOk(c) && PayloadOk(c, d)
    ensures |Print(c, flag, d)| >= HeaderSize && Print(c, flag, d)[FlagAt] == flag
  {
    assert Header(c, flag)[FlagAt] == flag;
    assert Print(c, flag, d)[..HeaderSize] == Header(c, flag);
  }

  /** Loading what saving wrote gives back the parameters bit for bit. */
  lemma LoadOfSave(c: Config, d: Payload)
    requires ConfigOk(c) && PayloadOk(c, d)
    ensures Accepted(Save(c, d), c) && Loaded(Save(c, d), c) == d
  {
    SavedFlag(c, Flag(c), d);
    AcceptedIsPrinted(Save(c, d), c, d);
  }

  /** Saving what was loaded reproduces the file, with the bias flag byte normalised. */
  lemma SaveOfLoad(s: seq<byte>, c: Config)
    requires ConfigOk(c) && Accepted(s, c)
    ensures PayloadOk(c, Loaded(s, c)) && Save(c, Loaded(s, c)) == s[FlagAt := Flag(c)]
  {
    var d := Loaded(s, c);
    AcceptedIsPrinted(s, c, d);
    SavedFlag(c, s[FlagAt], d);
    SavedFlag(c, Flag(c), d);
    var t := Save(c, d);
    forall i | 0 <= i < |s| ensures s[FlagAt := Flag(c)][i] == t[i] {
      if i < FlagAt {
        assert s[i] == Header(c, s[FlagAt])[i] && t[i] == Header(c, Flag(c))[i];
      }
    }
  }

  /** No proper prefix and no proper extension of an accepted file is accepted. */
  lemma SelfDelimiting(s: seq<byte>, t: seq<byte>, c: Config)
    requires ConfigOk(c) && Accepted(s, c) && (t < s || s < t)
    ensures !Accepted(t, c)
  {
  }
}
