/** SGD, Adam and AdamW steps over the tensor heap: the element update, the step of one
    parameter, and the step of a list of parameters as a fold. */
module OptimizerSteps {
  import opened RealSums
  import opened Shapes
  import opened Layouts
  import opened Calculus
  import opened Worlds
  import opened Transitions
  import opened Heap
  import opened Moments
  import TrainingBridge

  datatype Kind = Sgd | Adam | AdamW

  datatype Hyper = Hyper(kind: Kind, rate: real, momentum: real, beta1: real, beta2: real, epsilon: real, decay: real)

  /** The settings an optimizer accepts. */
  predicate HyperOk(o: Hyper) {
    && o.rate > 0.0 && o.decay >= 0.0
    && (if o.kind.Sgd? then o.momentum >= 0.0
        else 0.0 <= o.beta1 < 1.0 && 0.0 <= o.beta2 < 1.0 && o.epsilon > 0.0)
  }

  // ----- what a step means, from the history of gradients

  /** The gradient a step works with; coupled weight decay adds to it. */
  function Effective(o: Hyper, value: real, g: real): real {
    if o.kind.AdamW? then g else g + Times(o.decay, value)
  }

  function FirstMoment(o: Hyper, past: seq<real>): real {
    if o.kind.Sgd? then (if o.momentum > 0.0 then Decayed(1.0, o.momentum, past) else 0.0)
    else Decayed(1.0 - o.beta1, o.beta1, past)
  }

  function SecondMoment(o: Hyper, past: seq<real>): real {
    if o.kind.Sgd? then 0.0 else Decayed(1.0 - o.beta2, o.beta2, Squares(past))
  }

  /** The direction of step `t` after the gradients in `past`, the last of them new. */
  function Direction(p: Primitives, o: Hyper, t: nat, past: seq<real>): real
    requires |past| > 0
  {
    if o.kind.Sgd? then (if o.momentum > 0.0 then Decayed(1.0, o.momentum, past) else past[|past| - 1])
    else Over(Corrected(o.beta1, t, past), p.sqrt(Corrected(o.beta2, t, Squares(past))) + o.epsilon)
  }

  /** Decoupled weight decay shrinks the value itself. */
  function Shrunk(o: Hyper, value: real): real {
    if o.kind.AdamW? then Times(value, 1.0 - Times(o.rate, o.decay)) else value
  }

  function NextValue(p: Primitives, o: Hyper, t: nat, value: real, past: seq<real>): real
    requires |past| > 0
  {
    Minus(Shrunk(o, value), Times(o.rate, Direction(p, o, t, past)))
  }

  lemma Remembered(o: Hyper, past: seq<real>, e: real)
    ensures o.kind.Sgd? && o.momentum > 0.0 ==>
              FirstMoment(o, past + [e]) == Times(o.momentum, FirstMoment(o, past)) + e
    ensures !o.kind.Sgd? ==>
              FirstMoment(o, past + [e]) == Times(o.beta1, FirstMoment(o, past)) + Times(1.0 - o.beta1, e)
    ensures !o.kind.Sgd? ==>
              SecondMoment(o, past + [e])
              == Times(o.beta2, SecondMoment(o, past)) + Times(Times(1.0 - o.beta2, e), e)
  {
    assert (past + [e])[..|past|] == past;
    assert Squares(past + [e])[..|past|] == Squares(past);
    Reorder(1.0 - o.beta2, e, e);
  }

  // ----- one element

  method Powers(b: real, t: nat) returns (power: real)
    ensures power == Power(b, t)
  {
    power := 1.0;
    for i := 0 to t
      invariant power == Power(b, i)
    {
      power := Times(b, power);
    }
  }

  /** An SGD update of one element. */
  method SgdElement(o: Hyper, value: real, g: real, first: real) returns (value': real, first': real)
    ensures var grad := g + o.decay * value;
            if o.momentum > 0.0 then first' == o.momentum * first + grad && value' == value - o.rate * first'
            else first' == first && value' == value - o.rate * grad
    ensures SgdMoved(o, value, g, first, value', first')
  {
    var grad := g + Times(o.decay, value);
    first' := first;
    if o.momentum > 0.0 {
      first' := Times(o.momentum, first) + grad;
      grad := first';
    }
    value' := Minus(value, Times(o.rate, grad));
  }

  /** The same with products named, as the proofs about histories use it. */
  ghost predicate SgdMoved(o: Hyper, value: real, g: real, first: real, value': real, first': real) {
    var grad := g + Times(o.decay, value);
    if o.momentum > 0.0 then first' == Times(o.momentum, first) + grad && value' == Minus(value, Times(o.rate, first'))
    else first' == first && value' == Minus(value, Times(o.rate, grad))
  }

  lemma SgdTakes(p: Primitives, o: Hyper, t: nat, past: seq<real>, value: real, g: real, first: real,
                 value': real, first': real)
    requires o.kind.Sgd? && first == FirstMoment(o, past) && SgdMoved(o, value, g, first, value', first')
    ensures Took(p, o, t, value, past + [Effective(o, value, g)], value', first', 0.0)
  {
    Remembered(o, past, Effective(o, value, g));
  }

  lemma NoDecay(o: Hyper, value: real)
    requires o.decay == 0.0
    ensures Shrunk(o, value) == value
  {
    if o.kind.AdamW? {
      assert Times(o.rate, o.decay) == 0.0;
    }
  }

  method AdamGradient(o: Hyper, value: real, g: real) returns (shrunk: real, grad: real)
    requires !o.kind.Sgd? && HyperOk(o)
    ensures shrunk == Shrunk(o, value) && grad == Effective(o, value, g)
  {
    shrunk, grad := value, g;
    if o.kind.Adam? {
      grad := grad + Times(o.decay, value);
    } else if o.decay > 0.0 {
      shrunk := Times(value, 1.0 - Times(o.rate, o.decay));
    } else {
      NoDecay(o, value);
    }
  }

  /** An Adam or AdamW update of one element; `power1` and `power2` are the decay rates to the
      power of the step.  The divisors are positive in every state an optimizer reaches. */
  method AdamElement(p: Primitives, o: Hyper, power1: real, power2: real, value: real, g: real, first: real, second: real)
    returns (value': real, first': real, second': real)
    requires !o.kind.Sgd? && HyperOk(o)
    ensures var e := if o.kind.Adam? then g + o.decay * value else g;
            first' == o.beta1 * first + (1.0 - o.beta1) * e && second' == o.beta2 * second + (1.0 - o.beta2) * e * e
    ensures power1 != 1.0 && power2 != 1.0 && p.sqrt(second' / (1.0 - power2)) + o.epsilon != 0.0 ==>
              var v := if o.kind.AdamW? then value * (1.0 - o.rate * o.decay) else value;
              value' == v - o.rate * ((first' / (1.0 - power1)) / (p.sqrt(second' / (1.0 - power2)) + o.epsilon))
    ensures AdamMoved(p, o, power1, power2, value, g, first, second, value', first', second')
  {
    var shrunk, grad := AdamGradient(o, value, g);
    first' := Times(o.beta1, first) + Times(1.0 - o.beta1, grad);
    second' := Times(o.beta2, second) + Times(Times(1.0 - o.beta2, grad), grad);
    var firstHat := Over(first', 1.0 - power1);
    var secondHat := Over(second', 1.0 - power2);
    value' := Minus(shrunk, Times(o.rate, Over(firstHat, p.sqrt(secondHat) + o.epsilon)));
    PlainAdamMoments(p, o, power1, power2, value, g, first, second, value', first', second');
    if power1 != 1.0 && power2 != 1.0 && p.sqrt(second' / (1.0 - power2)) + o.epsilon != 0.0 {
      PlainAdamStep(p, o, power1, power2, value, first', second', value');
    }
  }

  /** The same with products and quotients named, as the proofs about histories use it. */
  ghost predicate AdamMoved(p: Primitives, o: Hyper, power1: real, power2: real, value: real, g: real,
                            first: real, second: real, value': real, first': real, second': real) {
    var e := Effective(o, value, g);
    && first' == Times(o.beta1, first) + Times(1.0 - o.beta1, e)
    && second' == Times(o.beta2, second) + Times(Times(1.0 - o.beta2, e), e)
    && value' == Minus(Shrunk(o, value), Times(o.rate, Over(Over(first', 1.0 - power1),
                                                             p.sqrt(Over(second', 1.0 - power2)) + o.epsilon)))
  }

  lemma PlainAdamStep(p: Primitives, o: Hyper, power1: real, power2: real, value: real, first: real, second: real,
                      value': real)
    requires value' == Minus(Shrunk(o, value), Times(o.rate, Over(Over(first, 1.0 - power1),
                                                                   p.sqrt(Over(second, 1.0 - power2)) + o.epsilon)))
    requires power1 != 1.0 && power2 != 1.0 && p.sqrt(second / (1.0 - power2)) + o.epsilon != 0.0
    ensures var v := if o.kind.AdamW? then value * (1.0 - o.rate * o.decay) else value;
            value' == v - o.rate * ((first / (1.0 - power1)) / (p.sqrt(second / (1.0 - power2)) + o.epsilon))
  {
    PlainShrunk(value, o.rate, o.decay);
    PlainAdamValue(p, value', Shrunk(o, value), o.rate, o.epsilon, first, second, 1.0 - power1, 1.0 - power2);
  }

  lemma PlainAdamMoments(p: Primitives, o: Hyper, power1: real, power2: real, value: real, g: real,
                         first: real, second: real, value': real, first': real, second': real)
    requires !o.kind.Sgd? && AdamMoved(p, o, power1, power2, value, g, first, second, value', first', second')
    ensures var e := if o.kind.Adam? then g + o.decay * value else g;
            first' == o.beta1 * first + (1.0 - o.beta1) * e && second' == o.beta2 * second + (1.0 - o.beta2) * e * e
  {
    var e := Effective(o, value, g);
    PlainMoments(o.beta1, first, e);
    PlainMoments(o.beta2, second, e);
  }

  lemma PlainAdamValue(p: Primitives, x: real, v: real, rate: real, epsilon: real, first: real, second: real,
                       c1: real, c2: real)
    requires c1 != 0.0 && c2 != 0.0 && p.sqrt(second / c2) + epsilon != 0.0
    requires x == Minus(v, Times(rate, Over(Over(first, c1), p.sqrt(Over(second, c2)) + epsilon)))
    ensures x == v - rate * ((first / c1) / (p.sqrt(second / c2) + epsilon))
  {
    PlainQuotient(second, c2);
    PlainValue(x, v, rate, first, c1, p.sqrt(second / c2) + epsilon);
  }

  lemma PlainMoments(b: real, m: real, e: real)
    ensures Times(b, m) + Times(1.0 - b, e) == b * m + (1.0 - b) * e
    ensures Times(b, m) + Times(Times(1.0 - b, e), e) == b * m + (1.0 - b) * e * e
  {
  }

  lemma PlainShrunk(value: real, rate: real, decay: real)
    ensures Times(value, 1.0 - Times(rate, decay)) == value * (1.0 - rate * decay)
  {
  }

  lemma PlainQuotient(x: real, d: real)
    requires d != 0.0
    ensures Over(x, d) == x / d
  {
  }

  lemma PlainValue(x: real, v: real, rate: real, first: real, c: real, d: real)
    requires c != 0.0 && d != 0.0 && x == Minus(v, Times(rate, Over(Over(first, c), d)))
    ensures x == v - rate * ((first / c) / d)
  {
    PlainQuotient(first, c);
    PlainQuotient(first / c, d);
  }

  lemma AdamTakes(p: Primitives, o: Hyper, t: nat, past: seq<real>, power1: real, power2: real, value: real, g: real,
                  first: real, second: real, value': real, first': real, second': real)
    requires !o.kind.Sgd? && first == FirstMoment(o, past) && second == SecondMoment(o, past)
    requires power1 == Power(o.beta1, t) && power2 == Power(o.beta2, t)
    requires AdamMoved(p, o, power1, power2, value, g, first, second, value', first', second')
    ensures Took(p, o, t, value, past + [Effective(o, value, g)], value', first', second')
  {
    var now := past + [Effective(o, value, g)];
    Remembered(o, past, Effective(o, value, g));
    assert Over(first', 1.0 - power1) == Corrected(o.beta1, t, now);
    assert Over(second', 1.0 - power2) == Corrected(o.beta2, t, Squares(now));
  }

  /** One element has been updated in step `t`. */
  ghost predicate ElementMoved(p: Primitives, o: Hyper, t: nat, value: real, g: real, first: real, second: real,
                               value': real, first': real, second': real) {
    if o.kind.Sgd? then SgdMoved(o, value, g, first, value', first')
    else AdamMoved(p, o, Power(o.beta1, t), Power(o.beta2, t), value, g, first, second, value', first', second')
  }

  // ----- one parameter

  /** The past effective gradients of element `i`. */
  function Column(history: seq<seq<real>>, i: int): (c: seq<real>)
    ensures |c| == |history|
  {
    seq(|history|, j requires 0 <= j < |history| => At(history[j], i))
  }

  /** The moments of `n` elements are those of their past gradients; SGD may do without
      second moments. */
  ghost predicate MomentsOk(o: Hyper, history: seq<seq<real>>, first: seq<real>, second: seq<real>, n: int) {
    && |first| == n && (|second| == n || (o.kind.Sgd? && second == []))
    && forall i :: 0 <= i < n ==>
         first[i] == FirstMoment(o, Column(history, i)) && At(second, i) == SecondMoment(o, Column(history, i))
  }

  function EffectiveAll(o: Hyper, values: seq<real>, grad: seq<real>): (e: seq<real>)
    ensures |e| == |values|
  {
    seq(|values|, i requires 0 <= i < |values| => Effective(o, values[i], At(grad, i)))
  }

  /** Every element takes step `t` with the gradient last added to the history. */
  function Advanced(p: Primitives, o: Hyper, t: nat, values: seq<real>, past: seq<seq<real>>): (r: seq<real>)
    requires |past| > 0
    ensures |r| == |values|
  {
    seq(|values|, i requires 0 <= i < |values| && |past| > 0 => NextValue(p, o, t, values[i], Column(past, i)))
  }

  lemma ColumnExtends(history: seq<seq<real>>, e: seq<real>, i: nat)
    requires i < |e|
    ensures Column(history + [e], i) == Column(history, i) + [e[i]]
  {
  }

  ghost predicate Took(p: Primitives, o: Hyper, t: nat, value: real, past: seq<real>, value': real, first': real, second': real)
    requires |past| > 0
  {
    value' == NextValue(p, o, t, value, past) && first' == FirstMoment(o, past) && second' == SecondMoment(o, past)
  }

  /** The first `n` elements have taken the step, the others are as before. */
  ghost predicate Partly(p: Primitives, o: Hyper, t: nat, now: seq<seq<real>>, n: nat, values: seq<real>,
                         first: seq<real>, second: seq<real>, values': seq<real>, first': seq<real>, second': seq<real>) {
    && |now| > 0 && |values'| == |first'| == |values| == |first| && n <= |values|
    && |second'| == |second| && (|second| == |values| || (o.kind.Sgd? && second == []))
    && (forall l :: 0 <= l < n ==> Took(p, o, t, values[l], Column(now, l), values'[l], first'[l], At(second', l)))
    && (forall l :: n <= l < |values| ==>
          values'[l] == values[l] && first'[l] == first[l] && At(second', l) == At(second, l))
  }

  lemma PartlyNext(p: Primitives, o: Hyper, t: nat, now: seq<seq<real>>, i: nat, values: seq<real>,
                   first: seq<real>, second: seq<real>, values': seq<real>, first': seq<real>, second': seq<real>,
                   v: real, m: real, second'': seq<real>)
    requires Partly(p, o, t, now, i, values, first, second, values', first', second') && i < |values|
    requires |second''| == |second'| && forall l :: l != i ==> At(second'', l) == At(second', l)
    requires Took(p, o, t, values[i], Column(now, i), v, m, At(second'', i))
    ensures Partly(p, o, t, now, i + 1, values, first, second, values'[i := v], first'[i := m], second'')
  {
  }

  lemma PartlyDone(p: Primitives, o: Hyper, t: nat, now: seq<seq<real>>, values: seq<real>,
                   first: seq<real>, second: seq<real>, values': seq<real>, first': seq<real>, second': seq<real>)
    requires Partly(p, o, t, now, |values|, values, first, second, values', first', second')
    ensures values' == Advanced(p, o, t, values, now) && MomentsOk(o, now, first', second', |values|)
  {
    forall l | 0 <= l < |values|
      ensures values'[l] == NextValue(p, o, t, values[l], Column(now, l))
      ensures first'[l] == FirstMoment(o, Column(now, l)) && At(second', l) == SecondMoment(o, Column(now, l))
    {
      assert Took(p, o, t, values[l], Column(now, l), values'[l], first'[l], At(second', l));
    }
  }

  /** One element of one parameter, with its moments. */
  method StepElement(p: Primitives, o: Hyper, ghost t: nat, power1: real, power2: real, value: real, g: real, first: real,
                     second: seq<real>, i: nat, ghost past: seq<real>)
    returns (value': real, first': real, second': seq<real>)
    requires HyperOk(o) && first == FirstMoment(o, past) && At(second, i) == SecondMoment(o, past)
    requires !o.kind.Sgd? ==> i < |second|
    requires power1 == Power(o.beta1, t) && power2 == Power(o.beta2, t)
    ensures |second'| == |second| && forall l :: l != i ==> At(second', l) == At(second, l)
    ensures Took(p, o, t, value, past + [Effective(o, value, g)], value', first', At(second', i))
    ensures ElementMoved(p, o, t, value, g, first, At(second, i), value', first', At(second', i))
  {
    second' := second;
    if o.kind.Sgd? {
      value', first' := SgdElement(o, value, g, first);
      SgdTakes(p, o, t, past, value, g, first, value', first');
    } else {
      var s;
      value', first', s := AdamElement(p, o, power1, power2, value, g, first, second[i]);
      AdamTakes(p, o, t, past, power1, power2, value, g, first, second[i], value', first', s);
      second' := second[i := s];
    }
  }

  method StepElements(p: Primitives, o: Hyper, t: nat, values: seq<real>, grad: seq<real>,
                      first: seq<real>, second: seq<real>, ghost history: seq<seq<real>>)
    returns (values': seq<real>, first': seq<real>, second': seq<real>)
    requires HyperOk(o) && |grad| == |values| && MomentsOk(o, history, first, second, |values|)
    ensures var now := history + [EffectiveAll(o, values, grad)];
            values' == Advanced(p, o, t, values, now) && MomentsOk(o, now, first', second', |values|)
    ensures |second'| == |second|
    ensures forall l :: 0 <= l < |values| ==>
              ElementMoved(p, o, t, values[l], grad[l], first[l], At(second, l), values'[l], first'[l], At(second', l))
  {
    ghost var e := EffectiveAll(o, values, grad);
    ghost var now := history + [e];
    values', first', second' := values, first, second;
    var power1 := Powers(o.beta1, t);
    var power2 := Powers(o.beta2, t);
    for i := 0 to |values|
      invariant Partly(p, o, t, now, i, values, first, second, values', first', second')
      invariant forall l :: 0 <= l < i ==>
                  ElementMoved(p, o, t, values[l], grad[l], first[l], At(second, l), values'[l], first'[l], At(second', l))
    {
      ColumnExtends(history, e, i);
      var v, m, s := StepElement(p, o, t, power1, power2, values[i], grad[i], first[i], second', i, Column(history, i));
      PartlyNext(p, o, t, now, i, values, first, second, values', first', second', v, m, s);
      values', first', second' := values'[i := v], first'[i := m], s;
    }
    PartlyDone(p, o, t, now, values, first, second, values', first', second');
  }

  // ----- the step of one parameter on the heap

  predicate HasGradient(w: World, t: nat) {
    t in w.metas && w.metas[t].gradient.Some?
  }

  function GradientOf(w: World, t: nat): seq<real>
    requires HasGradient(w, t)
  {
    w.metas[t].gradient.value.data
  }

  /** The storage a tensor shares with its aliases. */
  function Store(w: World, j: nat): seq<real>
    requires TensorsOk(w) && j < |w.tensors|
  {
    assert TensorOk(w, w.tensors[j]);
    w.storages[w.tensors[j].storage]
  }

  function Count(w: World, j: nat): nat
    requires TensorsOk(w) && j < |w.tensors|
  {
    assert TensorOk(w, w.tensors[j]);
    Version(w, j)
  }

  ghost predicate ParameterOk(w: World, t: nat) {
    t < |w.tensors| && Contiguous(w.tensors[t].view)
  }

  type Past = seq<seq<real>>

  /** The history of a parameter after a step with its present gradient. */
  function Remembering(o: Hyper, w: World, q: nat, past: Past): (r: Past)
    requires TensorsOk(w) && q < |w.tensors| && HasGradient(w, q)
    ensures |r| == |past| + 1
  {
    past + [EffectiveAll(o, Store(w, q), GradientOf(w, q))]
  }

  /** The heap after step `t` of parameter `q`, which has a gradient. */
  function Moved(p: Primitives, o: Hyper, t: nat, w: World, q: nat, past: Past): World
    requires TensorsOk(w) && q < |w.tensors| && HasGradient(w, q)
  {
    assert TensorOk(w, w.tensors[q]);
    Write(w, q, Advanced(p, o, t, Store(w, q), Remembering(o, w, q, past)))
  }

  /** A published gradient has as many elements as the parameter's storage. */
  lemma GradientFits(p: Primitives, w: World, t: nat)
    requires WorldOk(p, w) && ParameterOk(w, t) && HasGradient(w, t)
    ensures TensorOk(w, w.tensors[t]) && |GradientOf(w, t)| == |Store(w, t)| == Numel(w.tensors[t].view.dims)
    ensures ValidDims(Dims(w, t)) && CanonicalDense(w.metas[t].gradient.value, Dims(w, t))
  {
    assert MetaOk(p, w, t, w.metas[t]);
    assert TensorOk(w, w.tensors[t]);
  }

  /** Every stored element of parameter `q`, with its moments, has been updated with the
      corresponding element of the gradient. */
  ghost predicate Stored(p: Primitives, o: Hyper, t: nat, w: World, w': World, q: nat, first: seq<real>, second: seq<real>,
                         first': seq<real>, second': seq<real>) {
    && q < |w.tensors| && w'.tensors == w.tensors && w.tensors[q].storage < |w.storages| == |w'.storages|
    && |first| == |first'| && |second| == |second'| && (|second| == |first| || (o.kind.Sgd? && second == []))
    && q in w.metas && w.metas[q].gradient.Some? && |w.metas[q].gradient.value.data| == |first|
    && var s := w.tensors[q].storage;
       |w.storages[s]| == |first| && |w'.storages[s]| == |first|
       && forall i :: 0 <= i < |first| ==>
            ElementMoved(p, o, t, w.storages[s][i], w.metas[q].gradient.value.data[i], first[i], At(second, i),
                         w'.storages[s][i], first'[i], At(second', i))
  }

  /** Step one parameter, if it has a gradient: new contents, then a new version.  The errors
      are unreachable. */
  method StepTensor(h: TensorHeap, o: Hyper, t: nat, q: nat, first: seq<real>, second: seq<real>, ghost past: Past)
    returns (status: Status, stepped: bool, first': seq<real>, second': seq<real>)
    requires h.Valid() && HyperOk(o) && ParameterOk(h.W(), q)
    requires MomentsOk(o, past, first, second, Numel(Dims(h.W(), q)))
    modifies h`storages, h`versions, h`history
    ensures h.Valid() && h.Continues(old(h.M())) && status.Ok?
    ensures stepped <==> q in old(h.metas) && old(h.metas)[q].gradient.Some?
    ensures stepped <==> HasGradient(old(h.W()), q)
    ensures !stepped ==> h.W() == old(h.W()) && first' == first && second' == second
    ensures |second'| == |second|
    ensures stepped ==> h.W() == Moved(h.p, o, t, old(h.W()), q, past)
                        && MomentsOk(o, Remembering(o, old(h.W()), q, past), first', second', Numel(Dims(h.W(), q)))
    ensures stepped ==> Stored(h.p, o, t, old(h.W()), h.W(), q, first, second, first', second')
  {
    status, stepped, first', second' := Ok, false, first, second;
    ghost var w := h.W();
    if q !in h.metas || h.metas[q].gradient.None? {
      return;
    }
    stepped := true;
    GradientFits(h.p, w, q);
    var direct := h.HasDirectAccess(q);
    if !direct {
      return Error(InvalidArgument), stepped, first', second';
    }
    var values := h.storages[h.tensors[q].storage];
    var grad := TrainingBridge.CanonicalValues(h.metas[q].gradient.value, h.tensors[q].view.dims);
    if |values| != |grad| {
      return Error(InternalError), stepped, first', second';
    }
    var values';
    values', first', second' := StepElements(h.p, o, t, values, grad, first, second, past);
    h.StoreValues(q, values');
    h.IncrementVersion(q, w);
  }

  // ----- the stored elements of one parameter

  /** A step of SGD on a parameter, in plain arithmetic: the stored element `x` becomes `x'`
      under the gradient element `g`, and its moment `m` becomes `m'`. */
  lemma SgdStored(p: Primitives, o: Hyper, t: nat, w: World, w': World, q: nat, first: seq<real>, second: seq<real>,
                  first': seq<real>, second': seq<real>, i: nat, x: real, g: real, m: real, x': real, m': real)
    requires Stored(p, o, t, w, w', q, first, second, first', second') && o.kind.Sgd? && i < |first|
    requires x == w.storages[w.tensors[q].storage][i] && g == w.metas[q].gradient.value.data[i] && m == first[i]
    requires x' == w'.storages[w.tensors[q].storage][i] && m' == first'[i]
    ensures var grad := g + o.decay * x;
            if o.momentum > 0.0 then m' == o.momentum * m + grad && x' == x - o.rate * m'
            else m' == m && x' == x - o.rate * grad
  {
    assert ElementMoved(p, o, t, x, g, m, At(second, i), x', m', At(second', i));
  }

  /** A step of Adam or AdamW on a parameter, in plain arithmetic: the stored element `x`
      becomes `x'` under the gradient element `g`, and its moments `m` and `v` become `m'`
      and `v'`.  Second moments stay nonnegative, so everything divided by is positive. */
  lemma AdamStored(p: Primitives, o: Hyper, t: nat, w: World, w': World, q: nat, first: seq<real>, second: seq<real>,
                   first': seq<real>, second': seq<real>, i: nat, x: real, g: real, m: real, v: real,
                   x': real, m': real, v': real, power1: real, power2: real)
    requires Stored(p, o, t, w, w', q, first, second, first', second') && !o.kind.Sgd? && i < |first|
    requires x == w.storages[w.tensors[q].storage][i] && g == w.metas[q].gradient.value.data[i]
    requires m == first[i] && v == At(second, i) >= 0.0
    requires x' == w'.storages[w.tensors[q].storage][i] && m' == first'[i] && v' == At(second', i)
    requires HyperOk(o) && Lawful(p) && t >= 1 && power1 == Power(o.beta1, t) && power2 == Power(o.beta2, t)
    ensures v' >= 0.0 && power1 < 1.0 && power2 < 1.0 && p.sqrt(v' / (1.0 - power2)) + o.epsilon > 0.0
    ensures var e := if o.kind.Adam? then g + o.decay * x else g;
            m' == o.beta1 * m + (1.0 - o.beta1) * e && v' == o.beta2 * v + (1.0 - o.beta2) * e * e
    ensures var start := if o.kind.AdamW? then x * (1.0 - o.rate * o.decay) else x;
            x' == start - o.rate * ((m' / (1.0 - power1)) / (p.sqrt(v' / (1.0 - power2)) + o.epsilon))
  {
    PowerBounds(o.beta1, t, t);
    PowerBounds(o.beta2, t, t);
    assert ElementMoved(p, o, t, x, g, m, v, x', m', v');
    AdamWritten(p, o, power1, power2, x, g, m, v, x', m', v');
  }

  lemma AdamWritten(p: Primitives, o: Hyper, power1: real, power2: real, x: real, g: real, first: real, second: real,
                    x': real, first': real, second': real)
    requires AdamMoved(p, o, power1, power2, x, g, first, second, x', first', second') && !o.kind.Sgd?
    requires HyperOk(o) && Lawful(p) && power1 < 1.0 && power2 < 1.0 && second >= 0.0
    ensures second' >= 0.0 && p.sqrt(second' / (1.0 - power2)) + o.epsilon > 0.0
    ensures var e := if o.kind.Adam? then g + o.decay * x else g;
            first' == o.beta1 * first + (1.0 - o.beta1) * e && second' == o.beta2 * second + (1.0 - o.beta2) * e * e
    ensures var v := if o.kind.AdamW? then x * (1.0 - o.rate * o.decay) else x;
            x' == v - o.rate * ((first' / (1.0 - power1)) / (p.sqrt(second' / (1.0 - power2)) + o.epsilon))
  {
    StaysNonNegative(o, second, Effective(o, x, g), second');
    AdamDivisor(p, o.epsilon, second', 1.0 - power2);
    PlainAdamMoments(p, o, power1, power2, x, g, first, second, x', first', second');
    PlainAdamStep(p, o, power1, power2, x, first', second', x');
  }

  lemma StaysNonNegative(o: Hyper, second: real, e: real, second': real)
    requires HyperOk(o) && !o.kind.Sgd? && second >= 0.0
    requires second' == Times(o.beta2, second) + Times(Times(1.0 - o.beta2, e), e)
    ensures second' >= 0.0
  {
    NonNegativeProduct(o.beta2, second);
    NonNegativeSquare(e);
    NonNegativeProduct(1.0 - o.beta2, Times(e, e));
    Reorder(1.0 - o.beta2, e, e);
  }

  lemma AdamDivisor(p: Primitives, epsilon: real, second: real, c: real)
    requires Lawful(p) && epsilon > 0.0 && second >= 0.0 && c > 0.0
    ensures p.sqrt(second / c) + epsilon > 0.0
  {
    assert LawAt(p, second / c) && second / c >= 0.0;
  }

  // ----- a step over a list of parameters

  ghost predicate Tensors(w: World, ids: seq<nat>) {
    forall k :: 0 <= k < |ids| ==> ids[k] < |w.tensors|
  }

  /** The heap and the histories of the parameters. */
  datatype Stage = Stage(world: World, history: seq<Past>)

  ghost predicate StageOk(s: Stage, params: seq<nat>) {
    TensorsOk(s.world) && Tensors(s.world, params) && |s.history| == |params|
  }

  ghost predicate SameFrame(w0: World, w: World) {
    w.tensors == w0.tensors && w.metas == w0.metas && w.records == w0.records
  }

  lemma MovedOk(p: Primitives, o: Hyper, t: nat, w: World, q: nat, past: Past)
    requires TensorsOk(w) && q < |w.tensors| && HasGradient(w, q)
    ensures TensorsOk(Moved(p, o, t, w, q, past)) && SameFrame(w, Moved(p, o, t, w, q, past))
  {
    var w' := Moved(p, o, t, w, q, past);
    forall j | 0 <= j < |w.tensors| ensures TensorOk(w', w'.tensors[j]) {
      assert TensorOk(w, w.tensors[j]);
    }
  }

  /** Parameter number `k` takes its step from the heap it finds. */
  ghost function StepOne(p: Primitives, o: Hyper, t: nat, params: seq<nat>, s: Stage, k: nat): (r: Stage)
    requires StageOk(s, params) && k < |params|
    ensures StageOk(r, params) && SameFrame(s.world, r.world)
  {
    var q := params[k];
    if !HasGradient(s.world, q) then s
    else
      MovedOk(p, o, t, s.world, q, s.history[k]);
      Stage(Moved(p, o, t, s.world, q, s.history[k]), s.history[k := Remembering(o, s.world, q, s.history[k])])
  }

  /** The first `n` parameters take their steps one after the other, each from the heap its
      predecessors left. */
  ghost function StepAll(p: Primitives, o: Hyper, t: nat, params: seq<nat>, s: Stage, n: nat): (r: Stage)
    requires StageOk(s, params) && n <= |params|
    ensures StageOk(r, params) && SameFrame(s.world, r.world)
  {
    if n == 0 then s else StepOne(p, o, t, params, StepAll(p, o, t, params, s, n - 1), n - 1)
  }

  // ----- parameters that share their storage with no other one

  /** No other gradient-bearing parameter shares the storage of parameter `k`. */
  ghost predicate Lone(w: World, params: seq<nat>, k: nat)
    requires Tensors(w, params) && k < |params|
  {
    forall l :: 0 <= l < |params| && l != k && params[l] in w.metas && w.metas[params[l]].gradient.Some? ==>
      w.tensors[params[l]].counter != w.tensors[params[k]].counter
  }

  /** Moments of a list of parameters; where second moments are not kept they are empty. */
  function Moment(moments: seq<seq<real>>, k: nat): seq<real> {
    if k < |moments| then moments[k] else []
  }

  /** After the first `n` parameters have had their turn: each lone one among them that has a
      gradient is stored, each lone one still to come is untouched. */
  ghost predicate StoredSoFar(p: Primitives, o: Hyper, t: nat, params: seq<nat>, w: World, now: World,
                              first: seq<seq<real>>, second: seq<seq<real>>, first': seq<seq<real>>, second': seq<seq<real>>,
                              n: nat)
    requires TensorsOk(w) && Tensors(w, params)
  {
    && TensorsOk(now) && SameFrame(w, now) && |now.storages| == |w.storages|
    && (forall k :: 0 <= k < n && k < |params| && Lone(w, params, k) && HasGradient(w, params[k]) ==>
          Stored(p, o, t, w, now, params[k], Moment(first, k), Moment(second, k), Moment(first', k), Moment(second', k)))
    && (forall k :: n <= k < |params| ==> Moment(first', k) == Moment(first, k) && Moment(second', k) == Moment(second, k))
    && (forall k :: n <= k < |params| && Lone(w, params, k) ==> Store(now, params[k]) == Store(w, params[k]))
  }

  lemma StoredNext(p: Primitives, o: Hyper, t: nat, params: seq<nat>, w: World, now: World, next: World,
                   first: seq<seq<real>>, second: seq<seq<real>>, first': seq<seq<real>>, second': seq<seq<real>>,
                   first'': seq<seq<real>>, second'': seq<seq<real>>, n: nat, history: seq<Past>)
    requires TensorsOk(w) && Tensors(w, params) && Lineages(w) && n < |params| && |history| == |params|
    requires StoredSoFar(p, o, t, params, w, now, first, second, first', second', n)
    requires next == StepOne(p, o, t, params, Stage(now, history), n).world
    requires forall k :: 0 <= k < |params| && k != n ==>
               Moment(first'', k) == Moment(first', k) && Moment(second'', k) == Moment(second', k)
    requires HasGradient(now, params[n]) ==>
               Stored(p, o, t, now, next, params[n], Moment(first', n), Moment(second', n),
                      Moment(first'', n), Moment(second'', n))
    ensures StoredSoFar(p, o, t, params, w, next, first, second, first'', second'', n + 1)
  {
    forall k | 0 <= k < |params| && k != n && Lone(w, params, k) ensures Store(next, params[k]) == Store(now, params[k]) {
      StepReaches(p, o, t, params, Stage(now, history), n, params[k]);
    }
    forall k | 0 <= k < n + 1 && Lone(w, params, k) && HasGradient(w, params[k])
      ensures Stored(p, o, t, w, next, params[k], Moment(first, k), Moment(second, k), Moment(first'', k), Moment(second'', k))
    {
      if k < n {
        StoredStays(p, o, t, w, now, w, next, params[k], Moment(first, k), Moment(second, k),
                    Moment(first'', k), Moment(second'', k));
      } else {
        StoredStays(p, o, t, now, next, w, next, params[k], Moment(first, k), Moment(second, k),
                    Moment(first'', k), Moment(second'', k));
      }
    }
  }

  /** What is stored does not depend on the other storages. */
  lemma StoredStays(p: Primitives, o: Hyper, t: nat, v: World, v': World, w: World, w': World, q: nat,
                    first: seq<real>, second: seq<real>, first': seq<real>, second': seq<real>)
    requires Stored(p, o, t, v, v', q, first, second, first', second')
    requires w.tensors == v.tensors && w'.tensors == v.tensors && w.metas == v.metas
    requires |w.storages| == |v.storages| && |w'.storages| == |v'.storages|
    requires w.storages[w.tensors[q].storage] == v.storages[w.tensors[q].storage]
    requires w'.storages[w.tensors[q].storage] == v'.storages[w.tensors[q].storage]
    ensures Stored(p, o, t, w, w', q, first, second, first', second')
  {
  }

  // ----- what the fold does

  /** How many of the first `n` parameters have a gradient and share the storage of `j`. */
  ghost function Bearers(w: World, params: seq<nat>, n: nat, j: nat): nat
    requires Tensors(w, params) && n <= |params| && j < |w.tensors|
  {
    if n == 0 then 0
    else Bearers(w, params, n - 1, j)
         + if params[n - 1] in w.metas && w.metas[params[n - 1]].gradient.Some?
              && w.tensors[params[n - 1]].counter == w.tensors[j].counter then 1 else 0
  }

  /** One step moves the version of exactly the parameter's aliases by one, and changes the
      contents of nothing else. */
  lemma StepReaches(p: Primitives, o: Hyper, t: nat, params: seq<nat>, s: Stage, k: nat, j: nat)
    requires StageOk(s, params) && k < |params| && Lineages(s.world) && j < |s.world.tensors|
    ensures var q, r := params[k], StepOne(p, o, t, params, s, k);
            if HasGradient(s.world, q) && s.world.tensors[q].counter == s.world.tensors[j].counter
            then Count(r.world, j) == Count(s.world, j) + 1
            else Count(r.world, j) == Count(s.world, j) && Store(r.world, j) == Store(s.world, j)
  {
    assert TensorOk(s.world, s.world.tensors[j]) && TensorOk(s.world, s.world.tensors[params[k]]);
  }

  /** A step over parameters raises every version by the number of gradient-bearing
      parameters that share it, and leaves contents alone where there are none. */
  lemma {:induction false} StepsReach(p: Primitives, o: Hyper, t: nat, params: seq<nat>, s: Stage, n: nat, j: nat)
    requires StageOk(s, params) && n <= |params| && Lineages(s.world) && j < |s.world.tensors|
    ensures var r := StepAll(p, o, t, params, s, n);
            Count(r.world, j) == Count(s.world, j) + Bearers(s.world, params, n, j)
            && (Bearers(s.world, params, n, j) == 0 ==> Store(r.world, j) == Store(s.world, j))
  {
    if n != 0 {
      StepsReach(p, o, t, params, s, n - 1, j);
      StepReaches(p, o, t, params, StepAll(p, o, t, params, s, n - 1), n - 1, j);
    }
  }

  /** The history of parameter `k` after the first `n` parameters have had their turn. */
  ghost predicate Remembers(params: seq<nat>, s: Stage, r: Stage, n: nat, k: nat)
    requires |s.history| == |params| == |r.history| && k < |params|
  {
    if k < n && HasGradient(s.world, params[k])
    then |r.history[k]| == |s.history[k]| + 1 && s.history[k] <= r.history[k]
    else r.history[k] == s.history[k]
  }

  /** Histories grow by one entry exactly for the gradient-bearing parameters. */
  lemma {:induction false} StepsRemember(p: Primitives, o: Hyper, t: nat, params: seq<nat>, s: Stage, n: nat, k: nat)
    requires StageOk(s, params) && n <= |params| && k < |params|
    ensures Remembers(params, s, StepAll(p, o, t, params, s, n), n, k)
  {
    if n != 0 {
      StepsRemember(p, o, t, params, s, n - 1, k);
      StepRemembers(p, o, t, params, s, StepAll(p, o, t, params, s, n - 1), n - 1, k);
    }
  }

  lemma StepRemembers(p: Primitives, o: Hyper, t: nat, params: seq<nat>, s: Stage, r: Stage, m: nat, k: nat)
    requires StageOk(s, params) && StageOk(r, params) && m < |params| && k < |params| && r.world.metas == s.world.metas
    requires Remembers(params, s, r, m, k)
    ensures Remembers(params, s, StepOne(p, o, t, params, r, m), m + 1, k)
  {
  }

  lemma StepItself(p: Primitives, o: Hyper, t: nat, params: seq<nat>, s: Stage, k: nat)
    requires StageOk(s, params) && k < |params| && HasGradient(s.world, params[k])
    ensures var r := StepOne(p, o, t, params, s, k);
            r.history[k] == Remembering(o, s.world, params[k], s.history[k])
            && Store(r.world, params[k]) == Advanced(p, o, t, Store(s.world, params[k]), r.history[k])
  {
    assert TensorOk(s.world, s.world.tensors[params[k]]);
  }

  /** Parameter `k` has stepped from what `before` left in its storage, and it is still so. */
  ghost predicate SteppedFrom(p: Primitives, o: Hyper, t: nat, params: seq<nat>, before: Stage, r: Stage, k: nat)
  {
    && StageOk(before, params) && StageOk(r, params) && k < |params| && HasGradient(before.world, params[k])
    && r.history[k] == Remembering(o, before.world, params[k], before.history[k])
    && Store(r.world, params[k]) == Advanced(p, o, t, Store(before.world, params[k]), r.history[k])
  }

  /** Each gradient-bearing parameter steps from the contents its predecessors left in its
      storage, and the result stays until the next one that shares it. */
  lemma StepsFrom(p: Primitives, o: Hyper, t: nat, params: seq<nat>, s: Stage, n: nat, k: nat)
    requires StageOk(s, params) && k < n <= |params| && Lineages(s.world) && HasGradient(s.world, params[k])
    requires Bearers(s.world, params, n, params[k]) == Bearers(s.world, params, k + 1, params[k])
    ensures SteppedFrom(p, o, t, params, StepAll(p, o, t, params, s, k), StepAll(p, o, t, params, s, n), k)
  {
    var before := StepAll(p, o, t, params, s, k);
    var now := StepOne(p, o, t, params, before, k);
    SteppedNow(p, o, t, params, before, k);
    for m := k + 1 to n
      invariant SteppedFrom(p, o, t, params, before, now, k)
      invariant SameFrame(s.world, now.world) && now == StepAll(p, o, t, params, s, m)
    {
      NotABearer(s.world, params, k, m, n);
      StaysStepped(p, o, t, params, before, now, m, k);
      now := StepOne(p, o, t, params, now, m);
    }
  }

  /** Parameter `m` does not step, or does not share the storage of parameter `k`. */
  ghost predicate Spares(w: World, params: seq<nat>, m: nat, k: nat)
    requires Tensors(w, params) && m < |params| && k < |params|
  {
    HasGradient(w, params[m]) ==> w.tensors[params[m]].counter != w.tensors[params[k]].counter
  }

  lemma NotABearer(w: World, params: seq<nat>, k: nat, m: nat, n: nat)
    requires Tensors(w, params) && k < m < n <= |params|
    requires Bearers(w, params, n, params[k]) == Bearers(w, params, k + 1, params[k])
    ensures Spares(w, params, m, k)
  {
    BearersGrow(w, params, k + 1, m, params[k]);
    BearersGrow(w, params, m + 1, n, params[k]);
  }

  lemma SteppedNow(p: Primitives, o: Hyper, t: nat, params: seq<nat>, s: Stage, k: nat)
    requires StageOk(s, params) && k < |params| && HasGradient(s.world, params[k])
    ensures SteppedFrom(p, o, t, params, s, StepOne(p, o, t, params, s, k), k)
  {
    StepItself(p, o, t, params, s, k);
  }

  lemma StaysStepped(p: Primitives, o: Hyper, t: nat, params: seq<nat>, before: Stage, r: Stage, m: nat, k: nat)
    requires SteppedFrom(p, o, t, params, before, r, k) && k < m < |params| && Lineages(r.world)
    requires Spares(r.world, params, m, k)
    ensures SteppedFrom(p, o, t, params, before, StepOne(p, o, t, params, r, m), k)
  {
    StepReaches(p, o, t, params, r, m, params[k]);
  }

  lemma {:induction false} BearersGrow(w: World, params: seq<nat>, m: nat, n: nat, j: nat)
    requires Tensors(w, params) && m <= n <= |params| && j < |w.tensors|
    ensures Bearers(w, params, m, j) <= Bearers(w, params, n, j)
  {
    if m < n {
      BearersGrow(w, params, m, n - 1, j);
    }
  }

  /** A lone parameter that has a gradient bears once. */
  lemma {:induction false} LoneBearsOnce(w: World, params: seq<nat>, k: nat, n: nat)
    requires Tensors(w, params) && n <= |params| && k < |params| && Lone(w, params, k) && HasGradient(w, params[k])
    ensures Bearers(w, params, n, params[k]) == if k < n then 1 else 0
  {
    if n != 0 {
      LoneBearsOnce(w, params, k, n - 1);
    }
  }

  /** A parameter that shares its storage with no other gradient-bearing one takes exactly
      one step from where it was. */
  lemma StepAlone(p: Primitives, o: Hyper, t: nat, params: seq<nat>, s: Stage, k: nat)
    requires StageOk(s, params) && k < |params| && Lineages(s.world) && HasGradient(s.world, params[k])
    requires Bearers(s.world, params, |params|, params[k]) == 1
    ensures var r, q := StepAll(p, o, t, params, s, |params|), params[k];
            Count(r.world, q) == Count(s.world, q) + 1
            && r.history[k] == Remembering(o, s.world, q, s.history[k])
            && Store(r.world, q) == Advanced(p, o, t, Store(s.world, q), r.history[k])
  {
    var q, n := params[k], |params|;
    BearersGrow(s.world, params, k + 1, n, q);
    StepsReach(p, o, t, params, s, n, q);
    StepsReach(p, o, t, params, s, k, q);
    StepsRemember(p, o, t, params, s, k, k);
    StepsFrom(p, o, t, params, s, n, k);
  }
}
