/**
  The two operators. Each keeps no state of its own and handles every message from
  upstream by calling its sink once, so over a session it is a function from the
  upstream trace to the trace its sink receives.
 */
module Operators {
  import opened Protocol

  /** What `multiplyBySink` passes on for one message from upstream. */
  function Scale(factor: int, m: Message): (r: Message)
    ensures r.Type() == m.Type()
    ensures m.Data? ==> r.v == m.v * factor
    ensures !m.Data? ==> r == m
  {
    if m.Data? then Data(m.v * factor) else m
  }

  /**
    `multiplyBy(factor)`: every Data(v) becomes Data(v * factor), every other message
    is forwarded as it is; nothing is dropped, added or reordered.
   */
  function MultiplyBy(factor: int, trace: seq<Message>): (r: seq<Message>)
    ensures |r| == |trace|
    ensures forall i :: 0 <= i < |trace| ==>
      r[i].Type() == trace[i].Type() &&
      (trace[i].Data? ==> r[i] == Data(trace[i].v * factor)) &&
      (!trace[i].Data? ==> r[i] == trace[i])
  {
    if trace == [] then [] else [Scale(factor, trace[0])] + MultiplyBy(factor, trace[1..])
  }

  /** The operator acts message by message, so it distributes over concatenation. */
  lemma {:induction false} MultiplyByAppend(factor: int, a: seq<Message>, b: seq<Message>)
    ensures MultiplyBy(factor, a + b) == MultiplyBy(factor, a) + MultiplyBy(factor, b)
  {
    if a != [] {
      assert (a + b)[1..] == a[1..] + b;
      MultiplyByAppend(factor, a[1..], b);
    } else {
      assert a + b == b;
    }
  }

  /** Two multiplyBy operators in a row act as one multiplying by the product. */
  lemma MultiplyByCompose(f: int, g: int, trace: seq<Message>)
    ensures MultiplyBy(g, MultiplyBy(f, trace)) == MultiplyBy(f * g, trace)
  {
    var r, s := MultiplyBy(g, MultiplyBy(f, trace)), MultiplyBy(f * g, trace);
    forall i | 0 <= i < |trace|
      ensures r[i] == s[i]
    {
      if trace[i].Data? {
        MulAssoc(trace[i].v, f, g);
      }
    }
  }

  /** The one arithmetic step of `MultiplyByCompose`, kept apart from the sequence reasoning. */
  lemma MulAssoc(v: int, f: int, g: int)
    ensures v * f * g == v * (f * g)
  {
  }

  /** multiplyBy(1) forwards everything unchanged. */
  lemma MultiplyByOne(trace: seq<Message>)
    ensures MultiplyBy(1, trace) == trace
  {
    var r := MultiplyBy(1, trace);
    assert forall i :: 0 <= i < |trace| ==> r[i] == trace[i];
  }

  /** What happens inside `tapSink` for one message: the observer is called, then the sink. */
  datatype TapEvent = Observe(m: Message) | Pass(m: Message)

  /**
    `tap(fn)` over a session: for every message from upstream, greet included, first
    `fn` sees it and then the sink receives it unchanged.
   */
  function Tap(trace: seq<Message>): (r: seq<TapEvent>)
    ensures |r| == 2 * |trace|
    ensures forall i :: 0 <= i < |trace| ==> r[2 * i] == Observe(trace[i]) && r[2 * i + 1] == Pass(trace[i])
  {
    if trace == [] then [] else [Observe(trace[0]), Pass(trace[0])] + Tap(trace[1..])
  }

  /** The messages the observer function is called with. */
  function Observed(events: seq<TapEvent>): seq<Message>
  {
    if events == [] then []
    else if events[0].Observe? then [events[0].m] + Observed(events[1..])
    else Observed(events[1..])
  }

  /** The messages passed on to the sink. */
  function Forwarded(events: seq<TapEvent>): seq<Message>
  {
    if events == [] then []
    else if events[0].Pass? then [events[0].m] + Forwarded(events[1..])
    else Forwarded(events[1..])
  }

  /** Both the observer and the sink see exactly the upstream trace. */
  lemma {:induction false} TapTransparent(trace: seq<Message>)
    ensures Observed(Tap(trace)) == trace
    ensures Forwarded(Tap(trace)) == trace
  {
    if trace != [] {
      var e := Tap(trace);
      assert e == [Observe(trace[0]), Pass(trace[0])] + Tap(trace[1..]);
      assert e[1..][1..] == Tap(trace[1..]);
      TapTransparent(trace[1..]);
    }
  }
}
