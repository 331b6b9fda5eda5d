/** The parameter optimizer: its state, its step, and its creation from tensor handles. */
module Optimizers {
  import opened RealSums
  import opened Shapes
  import opened Layouts
  import opened ViewChains
  import opened Calculus
  import opened Worlds
  import opened Transitions
  import opened Heap
  import opened Moments
  import opened OptimizerSteps
  import HandleRegistry
  import opened Assignment
  import opened LinearModules

  class Optimizer {
    const o: Hyper
    const parameters: seq<nat>
    var step: nat
    var first: seq<seq<real>>
    var second: seq<seq<real>>
    ghost var history: seq<Past>

    /** The moments are those of the gradients delivered so far, at most one per step. */
    ghost predicate Valid(w: World)
      reads this
    {
      && HyperOk(o) && TensorsOk(w)
      && |first| == |history| == |parameters| && (|second| == |parameters| || (o.kind.Sgd? && second == []))
      && forall k :: 0 <= k < |parameters| ==> SlotOk(w, k)
    }

    ghost predicate SlotOk(w: World, k: nat)
      requires k < |parameters|
      reads this
    {
      && ParameterOk(w, parameters[k])
      && k < |first| && k < |history| && |history[k]| <= step
      && MomentsOk(o, history[k], first[k], Second(k), Numel(Dims(w, parameters[k])))
    }

    /** The second moments of parameter `k`; the SGD optimizer of a module keeps none. */
    function Second(k: nat): seq<real>
      reads this
    {
      Moment(second, k)
    }

    constructor (o: Hyper, parameters: seq<nat>, moments: seq<seq<real>>, noSecond: bool, ghost w: World)
      requires HyperOk(o) && TensorsOk(w) && |moments| == |parameters| && (noSecond ==> o.kind.Sgd?)
      requires forall k :: 0 <= k < |parameters| ==>
                 ParameterOk(w, parameters[k]) && |moments[k]| == Numel(Dims(w, parameters[k]))
                 && forall i :: 0 <= i < |moments[k]| ==> moments[k][i] == 0.0
      ensures Valid(w) && step == 0 && this.o == o && this.parameters == parameters
      ensures second == if noSecond then [] else moments
    {
      this.o, this.parameters := o, parameters;
      step, first, second := 0, moments, if noSecond then [] else moments;
      history := seq(|parameters|, _ => []);
      new;
      forall k | 0 <= k < |parameters| ensures SlotOk(w, k) {
        NoHistory(o, moments[k]);
      }
    }

    /** Drop the gradients of all parameters, and of nothing else. */
    method ZeroGrad(h: TensorHeap)
      requires h.Valid() && Valid(h.W()) && forall k :: 0 <= k < |parameters| ==> parameters[k] in h.held
      modifies h`metas, h`liveBytes, h`history
      ensures h.Valid() && h.Continues(old(h.M())) && Valid(h.W()) && h.metas.Keys == old(h.metas.Keys)
      ensures forall t :: t in h.metas ==>
                h.metas[t] == if t in parameters then old(h.metas)[t].(gradient := None) else old(h.metas)[t]
    {
      ghost var w := h.W();
      ClearAll(h, parameters);
      StillValid(w, h.W());
    }

    /** Bias correction in every reachable state of an Adam optimizer: the corrected first
        moment is a combination of the delivered gradients with nonnegative weights that
        total at most one, and exactly one if the parameter missed no step; the corrected
        second moment is nonnegative, so the step divides by a positive number. */
    lemma CorrectedMoments(p: Primitives, w: World, k: nat, i: nat)
      requires Valid(w) && !o.kind.Sgd? && step >= 1 && k < |parameters| && Lawful(p)
      requires k < |first| && k < |second| && k < |history| && i < |first[k]| && i < |second[k]|
      ensures ElementCorrected(p, o, step, Column(history[k], i), first[k][i], second[k][i])
    {
      var past := Column(history[k], i);
      assert |past| <= step && first[k][i] == FirstMoment(o, past) && second[k][i] == SecondMoment(o, past) by {
        assert SlotOk(w, k);
      }
      ElementIsCorrected(p, o, step, past, first[k][i], second[k][i]);
    }

    /** The second moments an Adam optimizer keeps are never negative. */
    lemma SecondsNonNegative(w: World, k: nat, i: nat)
      requires Valid(w) && !o.kind.Sgd? && k < |parameters| && k < |first| && i < |first[k]|
      ensures At(Moment(second, k), i) >= 0.0
    {
      assert SlotOk(w, k);
      var past := Column(history[k], i);
      forall j | 0 <= j < |past| ensures Squares(past)[j] >= 0.0 {
        NonNegativeSquare(past[j]);
      }
      DecayedNonNegative(1.0 - o.beta2, o.beta2, Squares(past));
    }

    /** Nothing else that happens to the heap disturbs the optimizer's invariant. */
    lemma StillValid(w: World, w': World)
      requires Valid(w) && w.tensors <= w'.tensors && TensorsOk(w')
      ensures Valid(w')
    {
      forall k | 0 <= k < |parameters| ensures SlotOk(w', k) {
        assert SlotOk(w, k);
        assert w'.tensors[parameters[k]] == w.tensors[parameters[k]];
      }
    }

    /** One step of parameter `k`, if it has a gradient; never fails. */
    method StepParameter(h: TensorHeap, k: nat) returns (status: Status)
      requires h.Valid() && Valid(h.W()) && k < |parameters| && |history[k]| < step
      modifies h`storages, h`versions, h`history, this`first, this`second, this`history
      ensures h.Valid() && h.Continues(old(h.M())) && Valid(h.W()) && status.Ok?
      ensures StageOk(Stage(old(h.W()), old(history)), parameters)
      ensures Stage(h.W(), history) == StepOne(h.p, o, step, parameters, Stage(old(h.W()), old(history)), k)
      ensures forall l :: 0 <= l < |parameters| && l != k ==>
                Moment(first, l) == Moment(old(first), l) && Moment(second, l) == Moment(old(second), l)
      ensures HasGradient(old(h.W()), parameters[k]) ==>
                Stored(h.p, o, step, old(h.W()), h.W(), parameters[k], Moment(old(first), k), Moment(old(second), k),
                       Moment(first, k), Moment(second, k))
    {
      ghost var w, past := h.W(), history;
      AllParameters(w);
      assert SlotOk(w, k);
      var stepped, first', second';
      status, stepped, first', second' := StepTensor(h, o, step, parameters[k], first[k], Second(k), history[k]);
      if status.Ok? && stepped {
        MovedOk(h.p, o, step, w, parameters[k], past[k]);
        Remember(w, k, first', second');
        StillValid(w, h.W());
      }
    }

    method Remember(ghost w: World, k: nat, first': seq<real>, second': seq<real>)
      requires Valid(w) && k < |parameters| && |history[k]| < step && parameters[k] < |w.tensors|
      requires HasGradient(w, parameters[k])
      requires MomentsOk(o, Remembering(o, w, parameters[k], history[k]), first', second', Numel(Dims(w, parameters[k])))
      requires second == [] ==> second' == []
      modifies this`first, this`second, this`history
      ensures Valid(w) && k < |old(history)|
      ensures history == old(history)[k := Remembering(o, w, parameters[k], old(history)[k])]
      ensures first == old(first)[k := first'] && Moment(second, k) == second'
      ensures second == if |old(second)| > 0 then old(second)[k := second'] else old(second)
    {
      assert forall l :: 0 <= l < |parameters| ==> SlotOk(w, l);
      first := first[k := first'];
      if |second| > 0 {
        second := second[k := second'];
      }
      history := history[k := Remembering(o, w, parameters[k], history[k])];
      assert old(SlotOk(w, k));
      assert SlotOk(w, k);
      forall l | 0 <= l < |parameters| ensures SlotOk(w, l) {
        assert l != k ==> old(SlotOk(w, l));
      }
    }

    /** A step over all parameters, one after the other, each from the heap its predecessors
        left.  It never fails; the step counter advances whether or not a parameter has a
        gradient. */
    method CpuStep(h: TensorHeap) returns (status: Status)
      requires h.Valid() && Valid(h.W())
      modifies h`storages, h`versions, h`history, this`step, this`first, this`second, this`history
      ensures h.Valid() && h.Continues(old(h.M())) && Valid(h.W()) && status.Ok?
      ensures step == old(step) + 1
      ensures StageOk(Stage(old(h.W()), old(history)), parameters)
      ensures Stage(h.W(), history)
           == StepAll(h.p, o, step, parameters, Stage(old(h.W()), old(history)), |parameters|)
      ensures forall k :: 0 <= k < |parameters| && Lone(old(h.W()), parameters, k) && HasGradient(old(h.W()), parameters[k]) ==>
                Stored(h.p, o, step, old(h.W()), h.W(), parameters[k], Moment(old(first), k), Moment(old(second), k),
                       Moment(first, k), Moment(second, k))
    {
      ghost var w, past, first0, second0 := h.W(), history, first, second;
      AllParameters(w);
      step := step + 1;
      LaterStep(w);
      BeginStep(h.p, w);
      status := StepThrough(h, w, past, first0, second0);
      EndStep(h.p, w, past, first0, second0, h.W());
    }

    method StepThrough(h: TensorHeap, ghost w: World, ghost past: seq<Past>, ghost first0: seq<seq<real>>,
                       ghost second0: seq<seq<real>>) returns (status: Status)
      requires h.Valid() && Valid(h.W()) && InStep(h.p, w, past, first0, second0, h.W(), 0)
      modifies h`storages, h`versions, h`history, this`first, this`second, this`history
      ensures h.Valid() && h.Continues(old(h.M())) && Valid(h.W()) && status.Ok?
      ensures InStep(h.p, w, past, first0, second0, h.W(), |parameters|)
    {
      for k := 0 to |parameters|
        invariant h.Valid() && h.Continues(old(h.M())) && Valid(h.W())
        invariant InStep(h.p, w, past, first0, second0, h.W(), k)
      {
        status := StepNext(h, w, past, first0, second0, k);
        if !status.Ok? {
          return;
        }
      }
      status := Ok;
    }

    /** In the middle of a step, the first `k` parameters have had their turn. */
    ghost predicate InStep(p: Primitives, w: World, past: seq<Past>, first0: seq<seq<real>>, second0: seq<seq<real>>,
                           now: World, k: nat)
      reads this
    {
      && StageOk(Stage(w, past), parameters) && Lineages(w) && k <= |parameters|
      && (forall l :: 0 <= l < |parameters| ==> |past[l]| < step)
      && Stage(now, history) == StepAll(p, o, step, parameters, Stage(w, past), k)
      && StoredSoFar(p, o, step, parameters, w, now, first0, second0, first, second, k)
    }

    lemma BeginStep(p: Primitives, w: World)
      requires WorldOk(p, w) && StageOk(Stage(w, history), parameters)
      requires forall k :: 0 <= k < |parameters| ==> |history[k]| < step
      ensures InStep(p, w, history, first, second, w, 0)
    {
    }

    lemma EndStep(p: Primitives, w: World, past: seq<Past>, first0: seq<seq<real>>, second0: seq<seq<real>>, now: World)
      requires InStep(p, w, past, first0, second0, now, |parameters|)
      ensures StageOk(Stage(w, past), parameters)
      ensures Stage(now, history) == StepAll(p, o, step, parameters, Stage(w, past), |parameters|)
      ensures forall k :: 0 <= k < |parameters| && Lone(w, parameters, k) && HasGradient(w, parameters[k]) ==>
                Stored(p, o, step, w, now, parameters[k], Moment(first0, k), Moment(second0, k),
                       Moment(first, k), Moment(second, k))
    {
    }

    method StepNext(h: TensorHeap, ghost w: World, ghost past: seq<Past>, ghost first0: seq<seq<real>>,
                    ghost second0: seq<seq<real>>, k: nat) returns (status: Status)
      requires h.Valid() && Valid(h.W()) && k < |parameters| && InStep(h.p, w, past, first0, second0, h.W(), k)
      modifies h`storages, h`versions, h`history, this`first, this`second, this`history
      ensures h.Valid() && h.Continues(old(h.M())) && Valid(h.W()) && status.Ok?
      ensures InStep(h.p, w, past, first0, second0, h.W(), k + 1)
    {
      ShortHistory(h.p, w, past, k);
      ghost var now, before, m, v := h.W(), history, first, second;
      status := StepParameter(h, k);
      StoredNext(h.p, o, step, parameters, w, now, h.W(), first0, second0, m, v, first, second, k, before);
    }

    twostate lemma LaterStep(w: World)
      requires old(Valid(w)) && step == old(step) + 1
      requires first == old(first) && second == old(second) && history == old(history)
      ensures Valid(w)
    {
      forall k | 0 <= k < |parameters| ensures SlotOk(w, k) {
        assert old(SlotOk(w, k));
      }
    }

    lemma AllParameters(w: World)
      requires Valid(w)
      ensures StageOk(Stage(w, history), parameters) && forall k :: 0 <= k < |parameters| ==> |history[k]| <= step
    {
      forall k | 0 <= k < |parameters| ensures parameters[k] < |w.tensors| && |history[k]| <= step {
        assert SlotOk(w, k);
      }
    }

    /** A parameter still to be stepped has not gained an entry. */
    lemma ShortHistory(p: Primitives, w: World, past: seq<Past>, k: nat)
      requires k < |parameters| && StageOk(Stage(w, past), parameters) && |past[k]| < step
      requires history == StepAll(p, o, step, parameters, Stage(w, past), k).history
      ensures |history[k]| < step
    {
      StepsRemember(p, o, step, parameters, Stage(w, past), k, k);
    }
  }

  /** The metadata after dropping the gradients of some tensors. */
  function ClearedAll(metas: map<nat, Meta>, ids: seq<nat>): map<nat, Meta> {
    map t | t in metas :: if t in ids then metas[t].(gradient := None) else metas[t]
  }

  lemma ClearedNext(metas: map<nat, Meta>, ids: seq<nat>, t: nat)
    ensures Cleared(ClearedAll(metas, ids), t) == ClearedAll(metas, ids + [t])
  {
  }

  method ClearAll(h: TensorHeap, ids: seq<nat>)
    requires h.Valid() && forall k :: 0 <= k < |ids| ==> ids[k] in h.held
    modifies h`metas, h`liveBytes, h`history
    ensures h.Valid() && h.Continues(old(h.M())) && h.metas == ClearedAll(old(h.metas), ids)
  {
    ghost var before := h.metas;
    assert ClearedAll(before, []) == before;
    for k := 0 to |ids|
      invariant h.Valid() && h.Continues(old(h.M())) && h.metas == ClearedAll(before, ids[..k])
    {
      ClearedNext(before, ids[..k], ids[k]);
      assert ids[..k + 1] == ids[..k] + [ids[k]];
      h.HeldIsAlive(ids[k]);
      h.ClearGradient(ids[k]);
    }
    assert ids[..|ids|] == ids;
  }

  /** The corrected first moment is a combination of past gradients, the corrected second
      moment is nonnegative, and the denominator of the step is positive. */
  ghost predicate ElementCorrected(p: Primitives, o: Hyper, t: nat, past: seq<real>, first: real, second: real) {
    && Combination(o.beta1, t, past, Over(first, 1.0 - Power(o.beta1, t)))
    && Over(second, 1.0 - Power(o.beta2, t)) >= 0.0
    && p.sqrt(Over(second, 1.0 - Power(o.beta2, t))) + o.epsilon > 0.0
  }

  lemma FirstCorrected(o: Hyper, t: nat, past: seq<real>, first: real)
    requires HyperOk(o) && !o.kind.Sgd? && 1 <= t && |past| <= t && first == FirstMoment(o, past)
    ensures Combination(o.beta1, t, past, Over(first, 1.0 - Power(o.beta1, t)))
  {
    CorrectedIsCombination(o.beta1, t, past);
  }

  lemma SecondCorrected(o: Hyper, t: nat, past: seq<real>, second: real)
    requires HyperOk(o) && !o.kind.Sgd? && 1 <= t && |past| <= t && second == SecondMoment(o, past)
    ensures Over(second, 1.0 - Power(o.beta2, t)) >= 0.0
  {
    SecondNonNegative(o.beta2, t, past);
  }

  lemma ElementIsCorrected(p: Primitives, o: Hyper, t: nat, past: seq<real>, first: real, second: real)
    requires HyperOk(o) && !o.kind.Sgd? && 1 <= t && |past| <= t && Lawful(p)
    requires first == FirstMoment(o, past) && second == SecondMoment(o, past)
    ensures ElementCorrected(p, o, t, past, first, second)
  {
    FirstCorrected(o, t, past, first);
    SecondCorrected(o, t, past, second);
    assert LawAt(p, Over(second, 1.0 - Power(o.beta2, t)));
  }

  lemma NoHistory(o: Hyper, zeros: seq<real>)
    requires forall i :: 0 <= i < |zeros| ==> zeros[i] == 0.0
    ensures MomentsOk(o, [], zeros, zeros, |zeros|)
  {
    forall i | 0 <= i < |zeros|
      ensures zeros[i] == FirstMoment(o, Column([], i)) && zeros[i] == SecondMoment(o, Column([], i))
    {
      assert Column([], i) == [] && Squares([]) == [];
    }
  }

  // ----- creation

  /** The tensors among `ids` that require gradients, in order. */
  function Trainable(w: World, ids: seq<nat>): (r: seq<nat>)
    ensures forall k :: 0 <= k < |r| ==> r[k] in ids && RequiresGrad(w, r[k])
    ensures forall t :: t in ids && RequiresGrad(w, t) ==> t in r
  {
    if |ids| == 0 then []
    else
      var last := |ids| - 1;
      Trainable(w, ids[..last]) + if RequiresGrad(w, ids[last]) then [ids[last]] else []
  }

  /** Two entries of `out` stand in the order in which `ids` names them. */
  ghost predicate InOrder(out: seq<nat>, ids: seq<nat>) {
    forall j, k, a, b :: 0 <= j < k < |out| && 0 <= a < |ids| && 0 <= b < |ids| && out[j] == ids[a] && out[k] == ids[b] ==>
      a < b
  }

  /** The trainable ones among distinct tensors are listed once each, in their order. */
  lemma {:induction false} TrainableOnce(w: World, ids: seq<nat>)
    requires forall a, b :: 0 <= a < b < |ids| ==> ids[a] != ids[b]
    ensures forall j, k :: 0 <= j < k < |Trainable(w, ids)| ==> Trainable(w, ids)[j] != Trainable(w, ids)[k]
    ensures InOrder(Trainable(w, ids), ids)
  {
    if |ids| != 0 {
      var last := |ids| - 1;
      var rest := ids[..last];
      TrainableOnce(w, rest);
      assert ids == rest + [ids[last]] && ids[last] !in rest;
      LongerInOrder(Trainable(w, rest), rest, ids[last]);
    }
  }

  lemma LongerInOrder(out: seq<nat>, ids: seq<nat>, x: nat)
    requires x !in ids && InOrder(out, ids) && forall j :: 0 <= j < |out| ==> out[j] in ids
    ensures InOrder(out, ids + [x]) && InOrder(out + [x], ids + [x]) && x !in out
  {
    assert forall j :: 0 <= j < |out| ==> out[j] != x;
    forall j, k, a, b | 0 <= j < k < |out + [x]| && 0 <= a < |ids + [x]| && 0 <= b < |ids + [x]|
                        && (out + [x])[j] == (ids + [x])[a] && (out + [x])[k] == (ids + [x])[b]
      ensures a < b
    {
      assert (out + [x])[j] == out[j] && (ids + [x])[a] == ids[a];
      if k < |out| {
        assert (out + [x])[k] == out[k] && (ids + [x])[b] == ids[b];
      }
    }
  }

  /** A created optimizer steps a parameter that has a gradient and storage of its own exactly
      once: its version moves by one. */
  lemma CreatedStepsOnce(p: Primitives, o: Hyper, t: nat, ids: seq<nat>, s: Stage, k: nat)
    requires forall a, b :: 0 <= a < b < |ids| ==> ids[a] != ids[b]
    requires StageOk(s, Trainable(s.world, ids)) && Lineages(s.world) && k < |Trainable(s.world, ids)|
    requires HasGradient(s.world, Trainable(s.world, ids)[k]) && Tensors(s.world, ids)
    requires forall a :: 0 <= a < |ids| && ids[a] != Trainable(s.world, ids)[k] ==>
               s.world.tensors[ids[a]].counter != s.world.tensors[Trainable(s.world, ids)[k]].counter
    ensures var params := Trainable(s.world, ids);
            Lone(s.world, params, k) && Bearers(s.world, params, |params|, params[k]) == 1
            && Count(StepAll(p, o, t, params, s, |params|).world, params[k]) == Count(s.world, params[k]) + 1
  {
    var params := Trainable(s.world, ids);
    TrainableOnce(s.world, ids);
    forall l | 0 <= l < |params| && l != k ensures s.world.tensors[params[l]].counter != s.world.tensors[params[k]].counter {
      assert params[l] in ids && params[l] != params[k];
    }
    LoneBearsOnce(s.world, params, k, |params|);
    StepAlone(p, o, t, params, s, k);
  }

  ghost predicate AllTensors(t: HandleRegistry.Table, handles: seq<Handle>) {
    forall k :: 0 <= k < |handles| ==> IsTensor(t, handles[k])
  }

  function Named(t: HandleRegistry.Table, handles: seq<Handle>): (ids: seq<nat>)
    requires AllTensors(t, handles)
    ensures |ids| == |handles|
  {
    seq(|handles|, k requires 0 <= k < |handles| && AllTensors(t, handles) => TensorOf(t, handles[k]))
  }

  ghost predicate NoRepeats(ids: seq<nat>) {
    forall k, l :: 0 <= k < l < |ids| ==> ids[k] != ids[l]
  }

  /** Collect the trainable tensors among distinct tensors named by handles. */
  method CollectParameters(r: HandleRegistry.Registry, h: TensorHeap, handles: seq<Handle>)
    returns (status: Status, out: seq<nat>)
    ensures status.Ok? <==>
              AllTensors(r.T(), handles) && NoRepeats(Named(r.T(), handles))
              && |Trainable(h.W(), Named(r.T(), handles))| > 0
    ensures status.Ok? ==> AllTensors(r.T(), handles) && out == Trainable(h.W(), Named(r.T(), handles))
    ensures status.Ok? ==> forall j, k :: 0 <= j < k < |out| ==> out[j] != out[k]
    ensures status.Ok? ==> InOrder(out, Named(r.T(), handles))
    ensures status.Ok? ==> forall a :: 0 <= a < |handles| ==>
              handles[a] in r.entries && r.entries[handles[a]].kind.TensorHandle?
              && var i := r.entries[handles[a]].item;
                 Named(r.T(), handles)[a] == i && (i in out <==> i in h.metas && h.metas[i].requiresGrad)
    ensures status.Ok? ==> forall j :: 0 <= j < |out| ==> out[j] in Named(r.T(), handles)
  {
    out := [];
    ghost var t, w := r.T(), h.W();
    if |handles| == 0 {
      return Error(InvalidArgument), out;
    }
    var seen: set<nat> := {};
    for k := 0 to |handles|
      invariant AllTensors(t, handles[..k]) && NoRepeats(Named(t, handles[..k]))
      invariant out == Trainable(w, Named(t, handles[..k]))
      invariant seen == set x | x in Named(t, handles[..k])
    {
      var found, item := r.Lookup(handles[k], HandleRegistry.TensorHandle);
      if !found.Ok? {
        assert !IsTensor(t, handles[k]);
        return found, out;
      }
      NamedNext(t, handles, k);
      if item.value in seen {
        RepeatFound(t, handles, k);
        return Error(InvalidArgument), out;
      }
      seen := seen + {item.value};
      var needed := h.RequiresGrad(item.value);
      if needed {
        out := out + [item.value];
      }
    }
    assert handles[..|handles|] == handles;
    if |out| == 0 {
      return Error(InvalidArgument), out;
    }
    TrainableOnce(w, Named(t, handles));
    NamedItems(t, handles);
    status := Ok;
  }

  lemma NamedItems(t: HandleRegistry.Table, handles: seq<Handle>)
    requires AllTensors(t, handles)
    ensures forall a :: 0 <= a < |handles| ==>
              handles[a] in t.entries && t.entries[handles[a]].kind.TensorHandle?
              && Named(t, handles)[a] == t.entries[handles[a]].item && Named(t, handles)[a] in Named(t, handles)
  {
    forall a | 0 <= a < |handles| ensures IsTensor(t, handles[a]) {
    }
  }

  lemma NamedNext(t: HandleRegistry.Table, handles: seq<Handle>, k: nat)
    requires k < |handles| && AllTensors(t, handles[..k]) && IsTensor(t, handles[k])
    ensures AllTensors(t, handles[..k + 1])
    ensures Named(t, handles[..k + 1]) == Named(t, handles[..k]) + [TensorOf(t, handles[k])]
    ensures Named(t, handles[..k + 1])[..k] == Named(t, handles[..k])
  {
    assert handles[..k + 1] == handles[..k] + [handles[k]];
  }

  lemma RepeatFound(t: HandleRegistry.Table, handles: seq<Handle>, k: nat)
    requires k < |handles| && AllTensors(t, handles[..k]) && IsTensor(t, handles[k])
    requires TensorOf(t, handles[k]) in Named(t, handles[..k])
    ensures AllTensors(t, handles) ==> !NoRepeats(Named(t, handles))
  {
    if AllTensors(t, handles) {
      var l :| 0 <= l < k && Named(t, handles[..k])[l] == TensorOf(t, handles[k]);
      assert Named(t, handles)[l] == Named(t, handles)[k];
    }
  }

  /** Create an optimizer over the trainable tensors among those named.  It succeeds exactly
      for acceptable settings and distinct tensors of which at least one is trainable and
      all trainable ones are contiguous. */
  method Create(r: HandleRegistry.Registry, h: TensorHeap, handles: seq<Handle>, o: Hyper)
    returns (status: Status, optimizer: Optimizer?)
    requires h.Valid() && HandlesOk(r.T(), h.W())
    ensures status.Ok? <==> optimizer != null
    ensures status.Ok? <==>
              HyperOk(o) && AllTensors(r.T(), handles) && NoRepeats(Named(r.T(), handles))
              && |Trainable(h.W(), Named(r.T(), handles))| > 0
              && forall t :: t in Trainable(h.W(), Named(r.T(), handles)) ==> ParameterOk(h.W(), t)
    ensures HyperOk(o) <==> o.rate > 0.0 && o.decay >= 0.0
                            && if o.kind.Sgd? then o.momentum >= 0.0
                               else 0.0 <= o.beta1 < 1.0 && 0.0 <= o.beta2 < 1.0 && o.epsilon > 0.0
    ensures optimizer != null ==>
              fresh(optimizer) && optimizer.Valid(h.W()) && optimizer.step == 0 && optimizer.o == o
              && AllTensors(r.T(), handles) && optimizer.parameters == Trainable(h.W(), Named(r.T(), handles))
    ensures optimizer != null ==>
              InOrder(optimizer.parameters, Named(r.T(), handles))
              && forall j, k :: 0 <= j < k < |optimizer.parameters| ==> optimizer.parameters[j] != optimizer.parameters[k]
  {
    optimizer := null;
    if !HyperOk(o) {
      return Error(InvalidArgument), null;
    }
    var parameters;
    status, parameters := CollectParameters(r, h, handles);
    if !status.Ok? {
      return status, null;
    }
    var moments;
    status, moments := InitialMoments(h, parameters);
    if !status.Ok? {
      return status, null;
    }
    optimizer := new Optimizer(o, parameters, moments, false, h.W());
  }

  /** Create the optimizer of a module, over the module's parameters; it succeeds exactly for
      acceptable settings. */
  method CreateForModule(h: TensorHeap, m: LinearModule, o: Hyper) returns (status: Status, optimizer: Optimizer?)
    requires h.Valid() && m.Valid(h.W())
    ensures status.Ok? <==> optimizer != null
    ensures status.Ok? <==> o.rate > 0.0 && o.decay >= 0.0
                            && if o.kind.Sgd? then o.momentum >= 0.0
                               else 0.0 <= o.beta1 < 1.0 && 0.0 <= o.beta2 < 1.0 && o.epsilon > 0.0
    ensures optimizer != null ==>
              fresh(optimizer) && optimizer.Valid(h.W()) && optimizer.step == 0 && optimizer.o == o
              && optimizer.parameters == m.Parameters() && (o.kind.Sgd? ==> optimizer.second == [])
  {
    if !HyperOk(o) {
      return Error(InvalidArgument), null;
    }
    ParametersFit(m, h.W());
    var moments;
    status, moments := InitialMoments(h, m.Parameters());
    optimizer := new Optimizer(o, m.Parameters(), moments, o.kind.Sgd?, h.W());
  }

  lemma ParametersFit(m: LinearModule, w: World)
    requires m.Valid(w)
    ensures forall k :: 0 <= k < |m.Parameters()| ==> m.Parameters()[k] < |w.tensors|
    ensures forall t :: t in m.Parameters() ==> ParameterOk(w, t)
  {
    forall t | t in m.Parameters() ensures ParameterOk(w, t) {
      CanonicalWellFormed(w.tensors[t].view.dims);
    }
  }

  /** Zero moments of the sizes of contiguous parameters. */
  method InitialMoments(h: TensorHeap, parameters: seq<nat>) returns (status: Status, moments: seq<seq<real>>)
    requires h.Valid() && forall k :: 0 <= k < |parameters| ==> parameters[k] < |h.tensors|
    ensures status.Ok? <==> forall t :: t in parameters ==> ParameterOk(h.W(), t)
    ensures status.Ok? ==> |moments| == |parameters|
    ensures status.Ok? ==> forall k :: 0 <= k < |parameters| ==>
              |moments[k]| == Numel(h.tensors[parameters[k]].view.dims)
              && forall i :: 0 <= i < |moments[k]| ==> moments[k][i] == 0.0
  {
    ghost var w := h.W();
    moments := [];
    for k := 0 to |parameters|
      invariant |moments| == k
      invariant forall l :: 0 <= l < k ==>
                  ParameterOk(w, parameters[l]) && |moments[l]| == Numel(w.tensors[parameters[l]].view.dims)
                  && forall i :: 0 <= i < |moments[l]| ==> moments[l][i] == 0.0
    {
      var direct := h.HasDirectAccess(parameters[k]);
      if !direct {
        assert parameters[k] in parameters;
        return Error(InvalidArgument), moments;
      }
      moments := moments + [Zeros(|h.storages[h.tensors[parameters[k]].storage]|)];
    }
    status := Ok;
  }
}
