/** The linear module: its parameters on the tensor heap, saving to a checkpoint, and loading
    one all-or-nothing. */
module LinearModules {
  import opened RealSums
  import opened Shapes
  import opened Layouts
  import opened ViewChains
  import opened Calculus
  import opened Worlds
  import opened Transitions
  import opened Heap
  import opened ByteCodec
  import opened Checkpoints
  import opened FileLayout
  import opened CheckpointStreams
  import opened Assignment

  /** How elements are stored in files: every word stands for an element of its own. */
  datatype Coding = Coding(decode: Word -> real, encode: real -> Word) {
    ghost predicate Faithful() {
      forall w: Word :: encode(decode(w)) == w
    }

    function Decoded(words: seq<Word>): (r: seq<real>)
      ensures |r| == |words|
    {
      seq(|words|, i requires 0 <= i < |words| => decode(words[i]))
    }

    function Encoded(values: seq<real>): (r: seq<Word>)
      ensures |r| == |values|
    {
      seq<Word>(|values|, i requires 0 <= i < |values| => encode(values[i]))
    }
  }

  lemma EncodeDecoded(c: Coding, words: seq<Word>)
    requires c.Faithful()
    ensures c.Encoded(c.Decoded(words)) == words
  {
  }

  /** A parameter is materialised, in row-major layout. */
  ghost predicate ParameterAt(w: World, t: nat, dims: seq<int>) {
    t < |w.tensors| && ValidDims(dims) && w.tensors[t].view == Canonical(dims)
  }

  // ----- parts of saving and loading

  /** Append one parameter to the bytes written so far. */
  method SaveTensor(h: TensorHeap, c: Coding, written: seq<byte>, t: nat) returns (status: Status, bytes: seq<byte>)
    requires h.Valid() && t < |h.tensors|
    ensures TensorOk(h.W(), h.tensors[t])
    ensures status.Ok? <==> Contiguous(h.tensors[t].view)
    ensures !status.Ok? ==> status == Error(InvalidArgument)
    ensures status.Ok? ==> bytes == written + TensorBytes(h.tensors[t].view.dims, c.Encoded(Logical(h.W(), t)))
  {
    assert TensorOk(h.W(), h.tensors[t]);
    var dims := h.tensors[t].view.dims;
    var numel := Numel(dims);
    NumelPositive(dims);
    bytes := WriteDims(written + Le(|dims|, 8), dims);
    bytes := bytes + Le(numel, 8);
    var direct := h.HasDirectAccess(t);
    if !direct {
      return Error(InvalidArgument), bytes;
    }
    var words := c.Encoded(h.storages[h.tensors[t].storage]);
    bytes := WriteWords(bytes, words);
    JoinParts(written, Le(|dims|, 8), Fields(UnsignedDims(dims), 8), Le(numel, 8), Fields(Naturals(words), 4));
    status := Ok;
  }

  /** A new leaf tensor that requires gradients. */
  method MakeParameter(h: TensorHeap, dims: seq<int>, values: seq<real>) returns (out: nat)
    requires h.Valid() && ValidDims(dims) && |values| == Numel(dims)
    modifies h
    ensures h.Valid() && h.Produced(old(h.M()), true, out) && out == |old(h.tensors)|
    ensures h.W() == AddMaterialised(old(h.W()), dims, values).(metas := old(h.metas)[out := Meta(true, true, None, None)])
    ensures IsNew(h.W(), out, values)
  {
    MaterialisedOk(h.p, h.W(), dims, values);
    out := h.NewTensor(dims, values);
    h.HeldIsAlive(out);
    assert MetaOk(h.p, h.W(), out, Meta(true, true, None, None));
    h.SetMeta(out, Meta(true, true, None, None));
  }

  // ----- the module

  class LinearModule {
    const config: Config
    const weight: nat
    const bias: Option<nat>

    /** The parameters are materialised tensors of the module's shapes, and do not alias. */
    ghost predicate Valid(w: World) {
      && ConfigOk(config) && ParameterAt(w, weight, WeightDims(config)) && TensorsOk(w)
      && (bias.Some? <==> config.useBias)
      && (bias.Some? ==> ParameterAt(w, bias.value, BiasDims(config))
                         && w.tensors[bias.value].counter != w.tensors[weight].counter)
    }

    constructor (config: Config, weight: nat, bias: Option<nat>)
      ensures this.config == config && this.weight == weight && this.bias == bias
    {
      this.config, this.weight, this.bias := config, weight, bias;
    }

    function Parameters(): (r: seq<nat>) {
      if bias.Some? then [weight, bias.value] else [weight]
    }

    /** The module's own references keep its parameters alive. */
    ghost predicate Held(held: multiset<nat>) {
      forall k :: 0 <= k < |Parameters()| ==> Parameters()[k] in held
    }

    ghost function Contents(c: Coding, w: World): (d: Payload)
      requires Valid(w)
      ensures PayloadOk(config, d)
    {
      assert TensorOk(w, w.tensors[weight]);
      assert bias.Some? ==> TensorOk(w, w.tensors[bias.value]);
      Payload(c.Encoded(Logical(w, weight)), if bias.Some? then c.Encoded(Logical(w, bias.value)) else [])
    }

    /** Nothing else that happens to the heap disturbs the module's invariant. */
    lemma StillValid(w: World, w': World)
      requires Valid(w) && w.tensors <= w'.tensors && TensorsOk(w')
      ensures Valid(w')
    {
      assert w'.tensors[weight] == w.tensors[weight];
      assert bias.Some? ==> w'.tensors[bias.value] == w.tensors[bias.value];
    }

    /** Write a checkpoint; it never fails for a module in its invariant. */
    method Save(h: TensorHeap, c: Coding) returns (status: Status, bytes: seq<byte>)
      requires h.Valid() && Valid(h.W())
      ensures status.Ok? && bytes == Checkpoints.Save(config, Contents(c, h.W()))
      ensures |bytes| >= 29 && bytes[..8] == [84, 83, 84, 82, 78, 86, 49, 0] && bytes[8..12] == [1, 0, 0, 0]
      ensures bytes[28] == if config.useBias then 1 else 0
      ensures Layout(bytes, config, Contents(c, h.W()))
    {
      SavedLayout(config, Contents(c, h.W()));
      CanonicalWellFormed(WeightDims(config));
      CanonicalWellFormed(BiasDims(config));
      bytes := SaveHeader(config);
      ghost var header, d := bytes, Contents(c, h.W());
      status, bytes := SaveTensor(h, c, bytes, weight);
      if !status.Ok? {
        return;
      }
      if bias.Some? {
        status, bytes := SaveTensor(h, c, bytes, bias.value);
        Associate(header, TensorBytes(WeightDims(config), d.weight), TensorBytes(BiasDims(config), d.bias));
      }
    }

    /** The contents of a file as the parameters will hold them. */
    ghost function Staged(c: Coding, d: Payload): (s: seq<seq<real>>)
      ensures |s| == |Parameters()|
    {
      if bias.Some? then [c.Decoded(d.weight), c.Decoded(d.bias)] else [c.Decoded(d.weight)]
    }

    /** Load a checkpoint.  On success both parameters hold the file's contents, every alias of
        them has moved one version, their gradients are gone, and nothing else changed; on
        failure nothing changed.  The errors after the file has been read are unreachable. */
    method Load(h: TensorHeap, c: Coding, bytes: seq<byte>) returns (status: Status)
      requires h.Valid() && Valid(h.W()) && Held(h.held)
      modifies h`storages, h`versions, h`metas, h`liveBytes, h`history
      ensures h.Valid() && h.Continues(old(h.M())) && Valid(h.W())
      ensures status.Ok? <==> Accepted(bytes, config)
      ensures !status.Ok? ==> h.W() == old(h.W()) && status == Error(InternalError)
      ensures Distinct(old(h.W()), Parameters()) && Numel(WeightDims(config)) >= 0 && Numel(BiasDims(config)) >= 0
      ensures status.Ok? ==> Committed(old(h.W()), h.W(), Parameters(), Staged(c, Loaded(bytes, config)))
      ensures status.Ok? ==>
                |bytes| >= 29 && bytes[..8] == [84, 83, 84, 82, 78, 86, 49, 0] && bytes[8..12] == [1, 0, 0, 0]
                && (bytes[28] != 0 <==> config.useBias) && Layout(bytes, config, Loaded(bytes, config))
    {
      var weights, biases;
      status, weights, biases := ReadFile(h, bytes);
      if status.Ok? {
        AcceptedLayout(bytes);
        status := Install(h, c, weights, biases);
      }
    }

    /** Read and check a whole file before anything is written. */
    method ReadFile(h: TensorHeap, bytes: seq<byte>) returns (status: Status, weights: seq<Word>, biases: seq<Word>)
      requires h.Valid() && Valid(h.W())
      ensures status.Ok? <==> Accepted(bytes, config)
      ensures !status.Ok? ==> status == Error(InternalError)
      ensures Numel(WeightDims(config)) >= 0 && Numel(BiasDims(config)) >= 0
      ensures status.Ok? ==> Loaded(bytes, config) == Payload(weights, biases) && PayloadOk(config, Payload(weights, biases))
    {
      NumelPositive(WeightDims(config));
      NumelPositive(BiasDims(config));
      weights, biases := [], [];
      var stream := new InStream(bytes);
      status := CheckHeader(stream, config);
      if !status.Ok? {
        return;
      }
      status, weights := ReadTensorPayload(stream, h.tensors[weight].view.dims);
      if !status.Ok? {
        return;
      }
      if config.useBias {
        status, biases := ReadTensorPayload(stream, h.tensors[bias.value].view.dims);
        if !status.Ok? {
          return;
        }
      }
      var ended := stream.AtEnd();
      if !ended {
        return Error(InternalError), weights, biases;
      }
    }

    lemma AcceptedLayout(bytes: seq<byte>)
      requires ConfigOk(config) && Accepted(bytes, config)
      ensures Numel(WeightDims(config)) >= 0 && Numel(BiasDims(config)) >= 0
      ensures Layout(bytes, config, Loaded(bytes, config))
    {
      NumelPositive(WeightDims(config));
      NumelPositive(BiasDims(config));
      AcceptedIsLayout(bytes, config, Loaded(bytes, config));
    }

    method Install(h: TensorHeap, c: Coding, weights: seq<Word>, biases: seq<Word>) returns (status: Status)
      requires h.Valid() && Valid(h.W()) && Held(h.held) && |weights| == Numel(WeightDims(config))
      requires config.useBias ==> |biases| == Numel(BiasDims(config))
      modifies h`storages, h`versions, h`metas, h`liveBytes, h`history
      ensures h.Valid() && h.Continues(old(h.M())) && Valid(h.W()) && status.Ok?
      ensures Distinct(old(h.W()), Parameters())
      ensures Committed(old(h.W()), h.W(), Parameters(), Staged(c, Payload(weights, biases)))
    {
      ghost var w := h.W();
      status := InstallWeight(h, c, weights);
      if status.Ok? && bias.Some? {
        status := InstallBias(h, w, c, weights, biases);
      }
    }

    lemma WeightReady(w: World, held: multiset<nat>)
      requires Valid(w) && Held(held)
      ensures weight in held && weight < |w.tensors| && Contiguous(w.tensors[weight].view)
      ensures Dims(w, weight) == WeightDims(config) && Distinct(w, [weight]) && Committed(w, w, [], [])
    {
      NothingCommitted(w);
      assert Parameters()[0] in held;
    }

    method InstallWeight(h: TensorHeap, c: Coding, weights: seq<Word>) returns (status: Status)
      requires h.Valid() && Valid(h.W()) && Held(h.held) && |weights| == Numel(WeightDims(config))
      modifies h`storages, h`versions, h`metas, h`liveBytes, h`history
      ensures h.Valid() && h.Continues(old(h.M())) && Valid(h.W()) && status.Ok?
      ensures Distinct(old(h.W()), [weight])
      ensures Committed(old(h.W()), h.W(), [weight], [c.Decoded(weights)])
    {
      ghost var w := h.W();
      WeightReady(w, h.held);
      assert [] + [weight] == [weight] && [] + [c.Decoded(weights)] == [c.Decoded(weights)];
      status := Replace(h, w, [], [], weight, c.Decoded(weights));
      StillValid(w, h.W());
    }

    method InstallBias(h: TensorHeap, ghost w: World, c: Coding, ghost weights: seq<Word>, biases: seq<Word>)
      returns (status: Status)
      requires h.Valid() && WorldOk(h.p, w) && Valid(w) && Held(h.held) && bias.Some?
      requires |biases| == Numel(BiasDims(config)) && Distinct(w, [weight])
      requires Committed(w, h.W(), [weight], [c.Decoded(weights)])
      modifies h`storages, h`versions, h`metas, h`liveBytes, h`history
      ensures h.Valid() && h.Continues(old(h.M())) && Valid(h.W()) && status.Ok?
      ensures Distinct(w, Parameters())
      ensures Committed(w, h.W(), Parameters(), Staged(c, Payload(weights, biases)))
    {
      CanonicalWellFormed(BiasDims(config));
      assert Parameters()[1] in h.held;
      assert [weight] + [bias.value] == Parameters();
      assert [c.Decoded(weights)] + [c.Decoded(biases)] == Staged(c, Payload(weights, biases));
      status := Replace(h, w, [weight], [c.Decoded(weights)], bias.value, c.Decoded(biases));
      StillValid(w, h.W());
    }
  }

  // ----- creation

  /** Positive dimensions whose product a byte size can hold. */
  predicate DimensionsOk(inFeatures: int, outFeatures: int) {
    && inFeatures > 0 && outFeatures > 0
    && inFeatures <= (TWO64 - 1) / outFeatures && inFeatures * outFeatures <= (TWO64 - 1) / 4
  }

  /** The configurations there are: the weight matrix must be representable. */
  lemma ConfigLimits(c: Config)
    ensures ConfigOk(c) <==> c.inFeatures > 0 && c.outFeatures > 0 && c.inFeatures * c.outFeatures <= 0x3fff_ffff_ffff_ffff
  {
    ConfigFits(c);
    NumelPair(c.inFeatures, c.outFeatures);
    var d := WeightDims(c);
    assert Positive(d) <==> d[0] > 0 && d[1] > 0;
  }

  lemma ConfigFits(c: Config)
    ensures ValidDims(WeightDims(c)) <==> ConfigOk(c)
    ensures ConfigOk(c) ==> DimensionsOk(c.inFeatures, c.outFeatures)
  {
    NumelPair(c.inFeatures, c.outFeatures);
    NumelSingle(c.outFeatures);
    if ValidDims(WeightDims(c)) {
      var i, o := WeightDims(c)[0], WeightDims(c)[1];
      MulMonotone(1, i, o);
      MulMonotone(1, o, i);
      assert i * o == o * i;
      QuotientFits(i, o);
    }
  }

  lemma QuotientFits(i: int, o: int)
    requires i > 0 && o > 0 && i * o <= MAX_F32
    ensures i <= (TWO64 - 1) / o
  {
    var q := (TWO64 - 1) / o;
    assert q * o + (TWO64 - 1) % o == TWO64 - 1;
    if i > q {
      MulMonotone(q + 1, i, o);
    }
  }

  /** A parameter as it is created: a leaf with the given values. */
  ghost predicate IsNew(w: World, i: nat, values: seq<real>) {
    i < |w.tensors| && TensorOk(w, w.tensors[i]) && Logical(w, i) == values
    && i in w.metas && w.metas[i] == Meta(true, true, None, None)
  }

  ghost predicate Starts(w: World, m: LinearModule, config: Config, weights: seq<real>, biases: seq<real>) {
    && m.config == config && IsNew(w, m.weight, weights) && Dims(w, m.weight) == [config.inFeatures, config.outFeatures]
    && (m.bias.Some? <==> config.useBias)
    && (m.bias.Some? ==> IsNew(w, m.bias.value, biases) && Dims(w, m.bias.value) == [config.outFeatures])
  }

  /** Create a linear module with given initial values.  It succeeds exactly if the weight
      matrix is representable; the module then holds its new parameters, which are leaves. */
  method LinearCreate(h: TensorHeap, config: Config, weights: seq<real>, biases: seq<real>)
    returns (status: Status, m: LinearModule?)
    requires h.Valid() && (ConfigOk(config) ==> |weights| == Numel(WeightDims(config)))
    requires ConfigOk(config) && config.useBias ==> |biases| == Numel(BiasDims(config))
    modifies h
    ensures h.Valid() && old(h.history) <= h.history && (status.Ok? <==> m != null)
    ensures status.Ok? <==> ConfigOk(config)
    ensures status.Ok? <==> config.inFeatures > 0 && config.outFeatures > 0
                            && config.inFeatures * config.outFeatures <= 0x3fff_ffff_ffff_ffff
    ensures m == null ==> h.W() == old(h.W()) && h.held == old(h.held)
    ensures m != null ==> fresh(m) && m.config == config && m.Valid(h.W()) && Extends(old(h.W()), h.W())
                          && h.held == old(h.held) + multiset(m.Parameters())
                          && Starts(h.W(), m, config, weights, biases)
  {
    m := null;
    ConfigFits(config);
    ConfigLimits(config);
    if !DimensionsOk(config.inFeatures, config.outFeatures) {
      return Error(InvalidArgument), m;
    }
    var shape;
    status, shape := ValidateShape(WeightDims(config));
    if !status.Ok? {
      return;
    }
    var weight, bias := MakeParameters(h, config, weights, biases);
    m := new LinearModule(config, weight, bias);
  }

  method MakeParameters(h: TensorHeap, config: Config, weights: seq<real>, biases: seq<real>)
    returns (weight: nat, bias: Option<nat>)
    requires h.Valid() && ConfigOk(config) && |weights| == Numel(WeightDims(config))
    requires config.useBias ==> |biases| == Numel(BiasDims(config))
    modifies h
    ensures h.Valid() && old(h.history) <= h.history && Extends(old(h.W()), h.W()) && TensorsOk(h.W())
    ensures ParameterAt(h.W(), weight, WeightDims(config)) && (bias.Some? <==> config.useBias)
    ensures bias.Some? ==> ParameterAt(h.W(), bias.value, BiasDims(config))
                           && h.tensors[bias.value].counter != h.tensors[weight].counter
    ensures h.held == old(h.held) + multiset(if bias.Some? then [weight, bias.value] else [weight])
    ensures IsNew(h.W(), weight, weights) && (bias.Some? ==> IsNew(h.W(), bias.value, biases))
  {
    weight := MakeParameter(h, WeightDims(config), weights);
    bias := None;
    assert ParameterAt(h.W(), weight, WeightDims(config));
    if config.useBias {
      ghost var held := h.held;
      assert TensorOk(h.W(), h.tensors[weight]);
      var status, shape := ValidateShape(BiasDims(config));
      var b := MakeParameter(h, BiasDims(config), biases);
      bias := Some(b);
      assert multiset([weight, b]) == multiset{weight} + multiset{b};
    }
  }

  /** Replace the contents of one parameter, move its version and drop its gradient. */
  method Replace(h: TensorHeap, ghost w: World, ghost done: seq<nat>, ghost staged: seq<seq<real>>, t: nat, data: seq<real>)
    returns (status: Status)
    requires h.Valid() && WorldOk(h.p, w) && Distinct(w, done) && Distinct(w, done + [t])
    requires |staged| == |done| && Committed(w, h.W(), done, staged)
    requires t < |w.tensors| && |data| == Numel(Dims(w, t)) && t in h.held
    modifies h`storages, h`versions, h`metas, h`liveBytes, h`history
    ensures h.Valid() && h.Continues(old(h.M()))
    ensures status.Ok? <==> Contiguous(w.tensors[t].view)
    ensures !status.Ok? ==> h.W() == old(h.W())
    ensures status.Ok? ==> Committed(w, h.W(), done + [t], staged + [data])
  {
    var direct := h.HasDirectAccess(t);
    if !direct {
      return Error(InvalidArgument);
    }
    CommitOne(h, w, done, staged, t, data);
    status := Ok;
  }

  /** What a module holds after a successful load is what the file holds. */
  lemma LoadedContents(p: Primitives, m: LinearModule, c: Coding, w: World, w': World, d: Payload)
    requires WorldOk(p, w) && WorldOk(p, w') && m.Valid(w) && m.Valid(w') && c.Faithful() && PayloadOk(m.config, d)
    requires Distinct(w, m.Parameters()) && Committed(w, w', m.Parameters(), m.Staged(c, d))
    ensures m.Contents(c, w') == d
  {
    CanonicalWellFormed(WeightDims(m.config));
    CanonicalWellFormed(BiasDims(m.config));
    assert m.Parameters()[0] == m.weight && m.Staged(c, d)[0] == c.Decoded(d.weight);
    assert TensorOk(w', w'.tensors[m.weight]);
    TargetHolds(p, w', m.weight, c.Decoded(d.weight));
    EncodeDecoded(c, d.weight);
    if m.bias.Some? {
      assert m.Parameters()[1] == m.bias.value && m.Staged(c, d)[1] == c.Decoded(d.bias);
      assert TensorOk(w', w'.tensors[m.bias.value]);
      TargetHolds(p, w', m.bias.value, c.Decoded(d.bias));
      EncodeDecoded(c, d.bias);
    }
  }

  /** Loading the checkpoint of one module into another of the same configuration copies the
      parameters exactly. */
  method Copy(h: TensorHeap, c: Coding, source: LinearModule, target: LinearModule) returns (status: Status)
    requires h.Valid() && c.Faithful() && source.Valid(h.W()) && target.Valid(h.W()) && target.Held(h.held)
    requires source.config == target.config
    modifies h`storages, h`versions, h`metas, h`liveBytes, h`history
    ensures h.Valid() && h.Continues(old(h.M())) && target.Valid(h.W()) && status.Ok?
    ensures target.Contents(c, h.W()) == source.Contents(c, old(h.W()))
  {
    ghost var w := h.W();
    ghost var d := source.Contents(c, w);
    var saved, bytes := source.Save(h, c);
    LoadOfSave(source.config, d);
    status := target.Load(h, c, bytes);
    LoadedContents(h.p, target, c, w, h.W(), d);
  }
}
