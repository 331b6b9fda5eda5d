/** Reading and writing the parts of a checkpoint. */
module CheckpointStreams {
  import opened Shapes
  import opened ByteCodec
  import opened Checkpoints

  lemma DimsFit(dims: seq<int>, i: nat)
    requires ValidDims(dims) && i < |dims|
    ensures 0 < dims[i] <= MAX_F32
  {
    NumelCons(dims, i);
    NumelSuffix(dims, i);
    NumelSuffix(dims, i + 1);
    MulAtLeast(dims[i], Numel(dims[i + 1..]));
  }

  // ----- reading one tensor

  method ReadDims(stream: InStream, rank: nat) returns (ok: bool, dims: seq<int>)
    requires stream.Valid()
    modifies stream
    ensures stream.Valid()
    ensures ok <==> old(stream.pos) + 8 * rank <= |stream.bytes|
    ensures ok ==> stream.pos == old(stream.pos) + 8 * rank && |dims| == rank
    ensures ok ==> forall i :: 0 <= i < rank ==> dims[i] == Signed64(FieldNumber(stream.bytes, old(stream.pos), 8, i))
  {
    dims := [];
    for i := 0 to rank
      invariant stream.Valid() && stream.pos == old(stream.pos) + 8 * i && |dims| == i
      invariant forall l :: 0 <= l < i ==> dims[l] == Signed64(FieldNumber(stream.bytes, old(stream.pos), 8, l))
    {
      var one, value := stream.ReadScalar(8);
      if !one {
        return false, dims;
      }
      dims := dims + [Signed64(value)];
    }
    ok := true;
  }

  method ReadWords(stream: InStream, count: nat) returns (ok: bool, words: seq<Word>)
    requires stream.Valid()
    modifies stream
    ensures stream.Valid()
    ensures ok <==> old(stream.pos) + 4 * count <= |stream.bytes|
    ensures ok ==> stream.pos == old(stream.pos) + 4 * count && words == WordsAt(stream.bytes, old(stream.pos), count)
  {
    Widths();
    words := [];
    for i := 0 to count
      invariant stream.Valid() && stream.pos == old(stream.pos) + 4 * i && |words| == i
      invariant forall l :: 0 <= l < i ==> words[l] == WordNumber(stream.bytes, old(stream.pos), l)
    {
      var one, value := stream.ReadScalar(4);
      if !one {
        return false, words;
      }
      words := words + [value];
    }
    ok := true;
  }

  /** The dimensions read are the expected ones exactly when the stored fields are. */
  lemma DimsRead(s: seq<byte>, at: nat, dims: seq<int>, expected: seq<int>)
    requires ValidDims(expected) && at + 8 * |dims| <= |s|
    requires forall i :: 0 <= i < |dims| ==> dims[i] == Signed64(FieldNumber(s, at, 8, i))
    ensures dims == expected <==> |dims| == |expected| && DimsAt(s, at, expected)
  {
    Widths();
    forall i | 0 <= i < |dims| && |dims| == |expected|
      ensures dims[i] == expected[i] <==> FieldNumber(s, at, 8, i) == Unsigned64(expected[i])
    {
      DimsFit(expected, i);
      FromLeBound(s[at + i * 8..at + i * 8 + 8]);
      SignedUnsigned(expected[i], FieldNumber(s, at, 8, i));
    }
  }

  /** Whether the dimensions of a file are valid and those expected, and their count. */
  method CheckDims(dims: seq<int>, expected: seq<int>) returns (ok: bool, count: int)
    requires ValidDims(expected)
    ensures ok <==> dims == expected
    ensures ok ==> count == Numel(expected)
  {
    var status, shape := ValidateShape(dims);
    ok, count := status.Ok? && SameShape(dims, expected), shape.numel;
  }

  /** Read a tensor of an expected shape: the stored rank, dimensions and element count must
      be those expected, and the elements must all be there. */
  method ReadTensorPayload(stream: InStream, expected: seq<int>) returns (status: Status, words: seq<Word>)
    requires stream.Valid() && ValidDims(expected)
    modifies stream
    ensures stream.Valid() && Numel(expected) >= 0
    ensures status.Ok? <==> TensorAt(stream.bytes, old(stream.pos), expected)
    ensures !status.Ok? ==> status == Error(InternalError)
    ensures status.Ok? ==> words == ElementsOf(stream.bytes, old(stream.pos), expected)
                           && stream.pos == old(stream.pos) + TensorSize(expected)
  {
    ghost var at, s := stream.pos, stream.bytes;
    NumelPositive(expected);
    words := [];
    var ok, rank := stream.ReadScalar(8);
    if !ok || rank > 32 {
      return Error(InternalError), words;
    }
    var dims;
    ok, dims := ReadDims(stream, rank);
    if !ok {
      return Error(InternalError), words;
    }
    var count, numel;
    ok, count := CheckDims(dims, expected);
    DimsRead(s, at + 8, dims, expected);
    if !ok {
      return Error(InternalError), words;
    }
    ok, numel := stream.ReadScalar(8);
    if !ok || numel != count || numel > MAX_F32 {
      return Error(InternalError), words;
    }
    ok, words := ReadWords(stream, numel);
    if !ok {
      return Error(InternalError), words;
    }
    status := Ok;
  }

  // ----- writing one tensor

  /** `bytes` is `written` followed by the first `i` of a list of fields. */
  ghost predicate Wrote(bytes: seq<byte>, written: seq<byte>, values: seq<nat>, n: nat, i: nat)
    requires i <= |values|
  {
    bytes == written + Fields(values[..i], n)
  }

  lemma WroteNone(written: seq<byte>, values: seq<nat>, n: nat)
    ensures Wrote(written, written, values, n, 0)
  {
    assert Fields(values[..0], n) == [];
  }

  lemma WroteNext(bytes: seq<byte>, written: seq<byte>, values: seq<nat>, n: nat, i: nat)
    requires i < |values| && Wrote(bytes, written, values, n, i)
    ensures Wrote(bytes + Le(values[i], n), written, values, n, i + 1)
  {
    var front, le := Fields(values[..i], n), Le(values[i], n);
    assert Fields(values[..i + 1], n) == front + le by {
      assert values[..i + 1][..i] == values[..i];
    }
    assert (written + front) + le == written + (front + le);
  }

  method WriteDims(written: seq<byte>, dims: seq<int>) returns (bytes: seq<byte>)
    ensures bytes == written + Fields(UnsignedDims(dims), 8)
  {
    ghost var u := UnsignedDims(dims);
    WroteNone(written, u, 8);
    bytes := written;
    for i := 0 to |dims|
      invariant Wrote(bytes, written, u, 8, i)
    {
      WroteNext(bytes, written, u, 8, i);
      bytes := bytes + Le(Unsigned64(dims[i]), 8);
    }
    assert u[..|dims|] == u;
  }

  method WriteWords(written: seq<byte>, words: seq<Word>) returns (bytes: seq<byte>)
    ensures bytes == written + Fields(Naturals(words), 4)
  {
    ghost var u := Naturals(words);
    WroteNone(written, u, 4);
    bytes := written;
    for i := 0 to |words|
      invariant Wrote(bytes, written, u, 4, i)
    {
      WroteNext(bytes, written, u, 4, i);
      bytes := bytes + Le(words[i], 4);
    }
    assert u[..|words|] == u;
  }

  lemma JoinParts(w: seq<byte>, a: seq<byte>, b: seq<byte>, c: seq<byte>, d: seq<byte>)
    ensures w + a + b + c + d == w + (a + (b + (c + d)))
  {
  }

  method SaveHeader(c: Config) returns (bytes: seq<byte>)
    ensures bytes == Header(c, Flag(c))
  {
    var flag: byte := if c.useBias then 1 else 0;
    bytes := Magic;
    bytes := bytes + Le(FormatVersion, 4);
    bytes := bytes + Le(Unsigned64(c.inFeatures), 8);
    bytes := bytes + Le(Unsigned64(c.outFeatures), 8);
    bytes := bytes + [flag];
    JoinParts(Magic, Le(FormatVersion, 4), Le(Unsigned64(c.inFeatures), 8), Le(Unsigned64(c.outFeatures), 8), [flag]);
  }

  lemma Associate(a: seq<byte>, b: seq<byte>, c: seq<byte>)
    ensures a + b + c == a + (b + c)
  {
  }

  lemma OneByte(s: seq<byte>)
    requires |s| >= HeaderSize
    ensures Field(s, FlagAt, 1) == s[FlagAt]
  {
    var one := s[FlagAt..FlagAt + 1];
    assert one == [s[FlagAt]] && one[1..] == [];
    assert FromLe([]) == 0;
  }

  /** Read the header and compare it with the module's configuration. */
  method CheckHeader(stream: InStream, config: Config) returns (status: Status)
    requires ConfigOk(config) && stream.Valid() && stream.pos == 0
    modifies stream
    ensures stream.Valid()
    ensures status.Ok? <==> HeaderAt(stream.bytes, config)
    ensures status.Ok? ==> stream.pos == HeaderSize
    ensures !status.Ok? ==> status == Error(InternalError)
  {
    var magic := stream.bytes[..if |stream.bytes| < 8 then |stream.bytes| else 8];
    stream.pos := |magic|;
    if magic != Magic {
      return Error(InternalError);
    }
    var ok, version := stream.ReadScalar(4);
    if !ok {
      return Error(InternalError);
    }
    var inFeatures, outFeatures, flag;
    ok, inFeatures := stream.ReadScalar(8);
    if !ok {
      return Error(InternalError);
    }
    ok, outFeatures := stream.ReadScalar(8);
    if !ok {
      return Error(InternalError);
    }
    ok, flag := stream.ReadScalar(1);
    if !ok {
      return Error(InternalError);
    }
    Widths();
    DimsFit(WeightDims(config), 0);
    DimsFit(WeightDims(config), 1);
    SignedUnsigned(config.inFeatures, inFeatures);
    SignedUnsigned(config.outFeatures, outFeatures);
    OneByte(stream.bytes);
    if version != FormatVersion || Signed64(inFeatures) != config.inFeatures
       || Signed64(outFeatures) != config.outFeatures || (flag != 0) != config.useBias {
      return Error(InternalError);
    }
    status := Ok;
  }
}
