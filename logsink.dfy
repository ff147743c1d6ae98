/**
  The `log` sink: it greets its input source with start 0, asks for data on the
  greeting and after every datum, and sends the Terminate's type back through the
  talkback when one arrives. The synchronous recursion (the sink calling the talkback
  from inside its own callback) is unrolled into a loop.
 */
module LogSink {
  import opened Wrappers
  import opened Protocol
  import opened Pullable
  import opened Pipeline

  /** The talkback type `logSink` calls back with on receiving `m`. */
  function Reply(m: Message): (t: int)
    ensures t == 1 || t == 2
    ensures t == 2 <==> m.Terminate?
  {
    match m
    case Greet => 1
    case Data(_) => 1
    case Terminate(_) => 2
  }

  /** Everything the head of a source sends to its sink in one `log` session. */
  function Run(maxCount: int): seq<Message>
  {
    [Greet] + Counting(0, Capacity(maxCount)) + [Terminate(None)]
  }

  /**
    `log(s)`: drives `s` until the head sends Terminate, then echoes it. `received`
    is what `logSink` is called with; `observed` is what each tap's observer is called
    with; `requests` are the types it calls the talkback with. The talkback is the
    head's own, because the operators pass the Greet on unchanged.
   */
  method Log(s: Source) returns (received: seq<Message>, observed: seq<seq<Message>>, requests: seq<int>)
    ensures received == Delivered(s, Run(Root(s)))
    ensures observed == Observations(s, Run(Root(s)))
    ensures requests == Repeat(1, Capacity(Root(s)) + 1) + [2]
  {
    var maxCount := Root(s);
    var cap := Capacity(maxCount);
    var session := Call(maxCount, 0);
    var talkback: FirstN := session;
    StartDelivers(s);
    received := Start(s, 0).toSink;
    observed := Observations(s, [Greet]);
    requests := [];
    var last := Some(received[0]);
    // Each call of logSink calls the talkback; the run ends when the talkback no
    // longer calls the sink back.
    while last.Some?
      invariant talkback.Valid() && talkback.maxCount == maxCount && talkback.ended <= 1
      invariant received == Delivered(s, talkback.sent)
      invariant observed == Observations(s, talkback.sent)
      invariant last.Some? ==> (last.value.Terminate? <==> talkback.ended == 1)
      invariant last.Some? ==> requests == Repeat(1, talkback.counter + talkback.ended)
      invariant last.None? ==> talkback.ended == 1 && requests == Repeat(1, cap + 1) + [2]
      decreases cap - talkback.counter + 1 - talkback.ended + (if last.Some? then 1 else 0)
    {
      received, observed, requests, last := Answer(s, talkback, last.value, received, observed, requests);
    }
    assert talkback.counter == cap;
    assert talkback.sent == Run(maxCount) by {
      RepeatSnoc(Terminate(None), 0);
    }
  }

  /**
    One call of `logSink` with the message `m`: it calls the talkback with 1 after a
    Greet or a datum and with 2 after the Terminate, and the head may answer with its
    next message. `requests` are the talkback calls so far.
   */
  method Answer(s: Source, talkback: FirstN, m: Message, received: seq<Message>, observed: seq<seq<Message>>, requests: seq<int>)
    returns (received': seq<Message>, observed': seq<seq<Message>>, requests': seq<int>, last: Option<Message>)
    requires talkback.Valid() && talkback.ended <= 1
    requires received == Delivered(s, talkback.sent) && observed == Observations(s, talkback.sent)
    requires m.Terminate? <==> talkback.ended == 1
    requires requests == Repeat(1, talkback.counter + talkback.ended)
    modifies talkback
    ensures talkback.Valid() && talkback.ended <= 1
    ensures received' == Delivered(s, talkback.sent) && observed' == Observations(s, talkback.sent)
    ensures last.Some? ==>
      talkback.counter + talkback.ended == old(talkback.counter + talkback.ended) + 1 &&
      (last.value.Terminate? <==> talkback.ended == 1) &&
      requests' == Repeat(1, talkback.counter + talkback.ended)
    ensures last.None? ==>
      talkback.counter == old(talkback.counter) && talkback.ended == 1 &&
      requests' == Repeat(1, Capacity(talkback.maxCount) + 1) + [2]
    ensures requests' == requests + [Reply(m)]
    ensures last.None? <==> m.Terminate?
    ensures last.Some? ==> received' == received + [last.value]
  {
    var t := Reply(m);
    RepeatSnoc(1, talkback.counter + talkback.ended);
    requests' := requests + [t];
    received', observed', last := Request(s, talkback, t, received, observed);
  }

  /**
    One call of the talkback by `logSink`: the head answers (or not), and an answer
    travels down the operators to the sink, passing every tap's observer.
   */
  method Request(s: Source, talkback: FirstN, t: int, received: seq<Message>, observed: seq<seq<Message>>)
    returns (received': seq<Message>, observed': seq<seq<Message>>, last: Option<Message>)
    requires talkback.Valid()
    requires received == Delivered(s, talkback.sent) && observed == Observations(s, talkback.sent)
    modifies talkback
    ensures talkback.Valid()
    ensures received' == Delivered(s, talkback.sent) && observed' == Observations(s, talkback.sent)
    ensures t == 1 && old(talkback.counter) <= talkback.maxCount ==>
      talkback.counter == old(talkback.counter) + 1 && talkback.ended == old(talkback.ended) &&
      last.Some? && last.value.Data?
    ensures t == 1 && old(talkback.counter) > talkback.maxCount ==>
      talkback.counter == old(talkback.counter) && talkback.ended == old(talkback.ended) + 1 &&
      last.Some? && last.value.Terminate?
    ensures t != 1 ==>
      talkback.counter == old(talkback.counter) && talkback.ended == old(talkback.ended) && last.None?
    ensures last.Some? ==> received' == received + [last.value]
    ensures last.None? ==> received' == received && observed' == observed
  {
    ghost var sentBefore := talkback.sent;
    var emitted := talkback.Talkback(t);
    if emitted.Some? {
      var m := emitted.value;
      DeliverOne(s, sentBefore, m);
      var d := Delivered(s, [m]);
      assert d == [d[0]];
      received' := received + d;
      observed' := Extend(observed, Observations(s, [m]));
      last := Some(d[0]);
    } else {
      received', observed', last := received, observed, None;
    }
  }

  /** One more message from the head reaches the sink and the observers after the earlier ones. */
  lemma DeliverOne(s: Source, before: seq<Message>, m: Message)
    ensures Delivered(s, before + [m]) == Delivered(s, before) + Delivered(s, [m])
    ensures Observations(s, before + [m]) == Extend(Observations(s, before), Observations(s, [m]))
    ensures Delivered(s, [m])[0].Type() == m.Type()
  {
    DeliveredAppend(s, before, [m]);
    ObservationsAppend(s, before, [m]);
  }

  /** A multiplyBy chain of gain `f` applied to a whole session of the head. */
  lemma ScaledRun(f: int, maxCount: int)
    ensures Operators.MultiplyBy(f, Run(maxCount)) ==
      [Greet] + seq(Capacity(maxCount), i requires 0 <= i < Capacity(maxCount) => Data(f * i)) + [Terminate(None)]
  {
    var r := Operators.MultiplyBy(f, Run(maxCount));
    var e := [Greet] + seq(Capacity(maxCount), i requires 0 <= i < Capacity(maxCount) => Data(f * i)) + [Terminate(None)];
    assert |r| == |e|;
    forall i | 0 <= i < |r|
      ensures r[i] == e[i]
    {
      if 0 < i <= Capacity(maxCount) {
        assert Run(maxCount)[i] == Data(i - 1);
      }
    }
  }

  /** A whole `log` session as the sink of a composed source sees it. */
  lemma DeliveredRun(s: Source)
    ensures Delivered(s, Run(Root(s))) ==
      [Greet] + seq(Capacity(Root(s)), i requires 0 <= i < Capacity(Root(s)) => Data(Gain(s) * i)) + [Terminate(None)]
  {
    DeliveredScales(s, Run(Root(s)));
    ScaledRun(Gain(s), Root(s));
  }

  /** The pipeline at the end of readme.js, around a head of any bound `n`. */
  function ReadmePipeline(n: int): (r: Source)
    ensures Root(r) == n && Chain(r) == [MultiplyByOp(2), MultiplyByOp(2), TapOp]
    ensures Gain(r) == 4 && TapCount(r) == 1
  {
    Pipe(Head(n), [MultiplyByOp(2), MultiplyByOp(2), TapOp])
  }

  /**
    A `log` session of that pipeline: the values 0, 4, 8, ... for every value of the
    head, framed by the greeting and the terminate, and the tap sees the same.
   */
  lemma ReadmeSession(n: int)
    ensures Root(ReadmePipeline(n)) == n
    ensures Delivered(ReadmePipeline(n), Run(n)) ==
      [Greet] + seq(Capacity(n), i requires 0 <= i < Capacity(n) => Data(4 * i)) + [Terminate(None)]
    ensures Observations(ReadmePipeline(n), Run(n)) == [Delivered(ReadmePipeline(n), Run(n))]
  {
    var inner := MultiplyBySource(2, MultiplyBySource(2, Head(n)));
    var s := ReadmePipeline(n);
    assert s == TapSource(inner);
    assert Gain(MultiplyBySource(2, Head(n))) == 2;
    assert Gain(s) == 4;
    assert Observations(MultiplyBySource(2, Head(n)), Run(n)) == [];
    DeliveredRun(s);
    OuterTapSeesDelivery(inner, Run(n));
  }

  /**
    The program at the end of readme.js:
    `pipe(pullable.firstN(10), multiplyBy(2), multiplyBy(2), tap(...), log)`.
    The inclusive bound gives eleven values, 0 to 40 in steps of 4.
   */
  method Readme() returns (received: seq<Message>, observed: seq<seq<Message>>, requests: seq<int>)
    ensures received == [Greet] + seq(11, i requires 0 <= i < 11 => Data(4 * i)) + [Terminate(None)]
    ensures observed == [received]
    ensures requests == Repeat(1, 12) + [2]
  {
    received, observed, requests := Log(ReadmePipeline(10));
    ReadmeSession(10);
  }
}
