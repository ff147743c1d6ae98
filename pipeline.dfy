/**
  Sources built from `pullable.firstN` by the two operators, the `pipe` fold that
  builds them, the start guard every source and operator shares, and what the final
  sink of a composed source receives.
 */
module Pipeline {
  import opened Protocol
  import Operators

  /** A source: the pullable at the head, wrapped by operators applied to it. */
  datatype Source =
    | Head(maxCount: int)
    | MultiplyBySource(factor: int, input: Source)
    | TapSource(input: Source)

  /** An operator with its configuration, as a value: `multiplyBy(factor)` or `tap(fn)`. */
  datatype Operator = MultiplyByOp(factor: int) | TapOp

  /** `op(inputSource)`: the source an operator returns. */
  function Apply(op: Operator, input: Source): (r: Source)
    ensures Root(r) == Root(input) && Chain(r) == Chain(input) + [op]
    ensures Gain(r) == Gain(input) * (if op.MultiplyByOp? then op.factor else 1)
    ensures TapCount(r) == TapCount(input) + (if op.TapOp? then 1 else 0)
  {
    match op
    case MultiplyByOp(f) => MultiplyBySource(f, input)
    case TapOp => TapSource(input)
  }

  /** The bound of the pullable at the head of a source. */
  function Root(s: Source): int
  {
    match s
    case Head(n) => n
    case MultiplyBySource(_, input) => Root(input)
    case TapSource(input) => Root(input)
  }

  /** The operators wrapped around the head, innermost first. */
  function Chain(s: Source): seq<Operator>
  {
    match s
    case Head(_) => []
    case MultiplyBySource(f, input) => Chain(input) + [MultiplyByOp(f)]
    case TapSource(input) => Chain(input) + [TapOp]
  }

  /**
    `pipe(source, ...ops)`, i.e. `ops.reduce((res, op) => op(res), source)`: the
    operators end up wrapped around the source in list order, the first innermost.
   */
  function Pipe(source: Source, ops: seq<Operator>): (r: Source)
    ensures Root(r) == Root(source)
    ensures Chain(r) == Chain(source) + ops
    decreases |ops|
  {
    if ops == [] then source
    else
      var r := Pipe(Apply(ops[0], source), ops[1..]);
      assert Chain(source) + [ops[0]] + ops[1..] == Chain(source) + ops;
      r
  }

  /** The fold is a left fold: the last operator is applied last, to everything before it. */
  lemma {:induction false} PipeSnoc(source: Source, ops: seq<Operator>, op: Operator)
    ensures Pipe(source, ops + [op]) == Apply(op, Pipe(source, ops))
    decreases |ops|
  {
    if ops == [] {
      assert [op][1..] == [];
    } else {
      assert (ops + [op])[1..] == ops[1..] + [op];
      PipeSnoc(Apply(ops[0], source), ops[1..], op);
    }
  }

  /** Every source is the pipe of its head through its own operators. */
  lemma {:induction false} PipeOfChain(s: Source)
    ensures Pipe(Head(Root(s)), Chain(s)) == s
  {
    match s
    case Head(_) =>
    case MultiplyBySource(f, input) =>
      PipeOfChain(input);
      PipeSnoc(Head(Root(input)), Chain(input), MultiplyByOp(f));
    case TapSource(input) =>
      PipeOfChain(input);
      PipeSnoc(Head(Root(input)), Chain(input), TapOp);
  }

  /**
    What a call `s(start, sink)` does before it returns: either it declines, or the
    sink has been greeted and every source down to the head has been greeted in turn
    (`greeted` lists them, outermost first).
   */
  datatype Handshake = Declined | Greeted(toSink: seq<Message>, greeted: seq<Source>)

  /**
    The start guard shared by firstN, multiplyBy and tap: a start other than 0
    returns without sending anything and without greeting upstream; a start of 0
    greets upstream with 0, and the one Greet the head sends reaches the sink.
   */
  function Start(s: Source, start: int): (r: Handshake)
    ensures r.Declined? <==> start != 0
    ensures r.Greeted? ==>
      r.toSink == [Greet] && |r.greeted| == |Chain(s)| + 1 &&
      r.greeted[0] == s && r.greeted[|Chain(s)|] == Head(Root(s))
    ensures r.Greeted? ==> forall i :: 0 <= i < |Chain(s)| ==>
      !r.greeted[i].Head? && r.greeted[i + 1] == r.greeted[i].input
  {
    if start != 0 then Declined
    else
      match s
      case Head(_) => Greeted([Greet], [s])
      case MultiplyBySource(f, input) =>
        var h := Start(input, 0);
        Greeted(Operators.MultiplyBy(f, h.toSink), [s] + h.greeted)
      case TapSource(input) =>
        var h := Start(input, 0);
        Operators.TapTransparent(h.toSink);
        Greeted(Operators.Forwarded(Operators.Tap(h.toSink)), [s] + h.greeted)
  }

  /**
    What the sink of `s` receives while the head emits `trace`: each operator passes
    every message on, one for one, with its type unchanged.
   */
  function Delivered(s: Source, trace: seq<Message>): (r: seq<Message>)
    ensures |r| == |trace|
    ensures forall i :: 0 <= i < |trace| ==> r[i].Type() == trace[i].Type()
  {
    match s
    case Head(_) => trace
    case MultiplyBySource(f, input) => Operators.MultiplyBy(f, Delivered(input, trace))
    case TapSource(input) =>
      var d := Delivered(input, trace);
      Operators.TapTransparent(d);
      Operators.Forwarded(Operators.Tap(d))
  }

  /** The product of the factors of every multiplyBy in the source. */
  function Gain(s: Source): int
  {
    match s
    case Head(_) => 1
    case MultiplyBySource(f, input) => Gain(input) * f
    case TapSource(input) => Gain(input)
  }

  /** A composed source delivers what one multiplyBy by its total gain would. */
  lemma {:induction false} DeliveredScales(s: Source, trace: seq<Message>)
    ensures Delivered(s, trace) == Operators.MultiplyBy(Gain(s), trace)
  {
    match s
    case Head(_) =>
      Operators.MultiplyByOne(trace);
    case MultiplyBySource(f, input) =>
      DeliveredScales(input, trace);
      Operators.MultiplyByCompose(Gain(input), f, trace);
    case TapSource(input) =>
      DeliveredScales(input, trace);
      Operators.TapTransparent(Delivered(input, trace));
  }

  /** Delivery is message by message: it distributes over concatenation. */
  lemma DeliveredAppend(s: Source, a: seq<Message>, b: seq<Message>)
    ensures Delivered(s, a + b) == Delivered(s, a) + Delivered(s, b)
  {
    DeliveredScales(s, a + b);
    DeliveredScales(s, a);
    DeliveredScales(s, b);
    Operators.MultiplyByAppend(Gain(s), a, b);
  }

  /** The number of tap operators in a source. */
  function TapCount(s: Source): nat
  {
    match s
    case Head(_) => 0
    case MultiplyBySource(_, input) => TapCount(input)
    case TapSource(input) => TapCount(input) + 1
  }

  /**
    The messages each tap's observer is called with while the head emits `trace`,
    innermost tap first.
   */
  function Observations(s: Source, trace: seq<Message>): (r: seq<seq<Message>>)
    ensures |r| == TapCount(s)
  {
    match s
    case Head(_) => []
    case MultiplyBySource(_, input) => Observations(input, trace)
    case TapSource(input) =>
      Observations(input, trace) + [Operators.Observed(Operators.Tap(Delivered(input, trace)))]
  }

  /** Each observer trace of `xs` followed by the matching one of `ys`. */
  function Extend(xs: seq<seq<Message>>, ys: seq<seq<Message>>): (r: seq<seq<Message>>)
    requires |xs| == |ys|
  {
    seq(|xs|, i requires 0 <= i < |xs| => xs[i] + ys[i])
  }

  /** Observation also happens message by message. */
  lemma {:induction false} ObservationsAppend(s: Source, a: seq<Message>, b: seq<Message>)
    ensures Observations(s, a + b) == Extend(Observations(s, a), Observations(s, b))
  {
    match s
    case Head(_) =>
    case MultiplyBySource(_, input) =>
      ObservationsAppend(input, a, b);
    case TapSource(input) =>
      ObservationsAppend(input, a, b);
      var da, db := Delivered(input, a), Delivered(input, b);
      DeliveredAppend(input, a, b);
      Operators.TapTransparent(da + db);
      Operators.TapTransparent(da);
      Operators.TapTransparent(db);
      var oa, ob := Observations(input, a), Observations(input, b);
      assert Extend(oa + [da], ob + [db]) == Extend(oa, ob) + [da + db];
  }

  /** The source each tap wraps, innermost tap first. */
  function TapInputs(s: Source): (r: seq<Source>)
    ensures |r| == TapCount(s)
  {
    match s
    case Head(_) => []
    case MultiplyBySource(_, input) => TapInputs(input)
    case TapSource(input) => TapInputs(input) + [input]
  }

  /** Every tap observes exactly what the source it wraps delivers. */
  lemma {:induction false} TapsSeeTheirInputs(s: Source, trace: seq<Message>)
    ensures forall j :: 0 <= j < TapCount(s) ==>
      Observations(s, trace)[j] == Delivered(TapInputs(s)[j], trace)
  {
    match s
    case Head(_) =>
    case MultiplyBySource(_, input) =>
      TapsSeeTheirInputs(input, trace);
    case TapSource(input) =>
      TapsSeeTheirInputs(input, trace);
      Operators.TapTransparent(Delivered(input, trace));
  }

  /** The first message a greeted sink receives is what the head's Greet turns into. */
  lemma StartDelivers(s: Source)
    ensures Start(s, 0).toSink == Delivered(s, [Greet])
  {
    DeliveredScales(s, [Greet]);
  }

  /** The last tap of a source observes exactly what the source's sink receives. */
  lemma {:induction false} OuterTapSeesDelivery(input: Source, trace: seq<Message>)
    ensures var obs := Observations(TapSource(input), trace);
      obs[|obs| - 1] == Delivered(TapSource(input), trace)
  {
    Operators.TapTransparent(Delivered(input, trace));
  }
}
