/**
  `pullable.firstN(maxCount)`: a pull source that answers each data request with the
  next value of a counter, and with Terminate once the counter has passed `maxCount`.
 */
module Pullable {
  import opened Wrappers
  import opened Protocol

  /**
    How many data messages a session of `firstN(maxCount)` can emit: the guard is
    `counter <= maxCount` with the counter starting at 0, so the values are
    0, 1, ..., maxCount (none at all when maxCount is negative).
   */
  function Capacity(maxCount: int): nat
  {
    if maxCount < 0 then 0 else maxCount + 1
  }

  /**
    One session of `firstN(maxCount)`, created when the source is called with
    start 0. `counter` is the closure variable; `sent` is every message the session
    has passed to its sink, in order.
   */
  class FirstN {
    const maxCount: int
    var counter: int
    var sent: seq<Message>
    /** How many Terminate messages have been sent so far. */
    ghost var ended: nat

    /**
      The shape every session's output has: the greeting, the counter's values in
      order, then only Terminate messages, and those only once the values are used up.
     */
    ghost predicate Valid()
      reads this
    {
      0 <= counter <= Capacity(maxCount) &&
      (ended > 0 ==> counter == Capacity(maxCount)) &&
      sent == [Greet] + Counting(0, counter) + Repeat(Terminate(None), ended)
    }

    /** The body of the source after its start guard: counter 0, then `sink(0, talkback)`. */
    constructor Greeted(maxCount: int)
      ensures Valid() && this.maxCount == maxCount
      ensures counter == 0 && ended == 0 && sent == [Greet]
    {
      this.maxCount := maxCount;
      counter := 0;
      ended := 0;
      sent := [Greet];
    }

    /**
      `pullableTalkback(t)`: a type-1 request yields `Data(counter)` and increments
      the counter while `counter <= maxCount`, and Terminate without payload after
      that; every other type, 2 included, emits nothing and changes nothing.
     */
    method Talkback(t: int) returns (emitted: Option<Message>)
      requires Valid()
      modifies this
      ensures Valid()
      ensures t == 1 && old(counter) <= maxCount ==>
        emitted == Some(Data(old(counter))) && counter == old(counter) + 1
      ensures t == 1 && old(counter) > maxCount ==>
        emitted == Some(Terminate(None)) && counter == old(counter)
      ensures t != 1 ==> emitted == None && counter == old(counter)
      ensures sent == old(sent) + (if emitted.Some? then [emitted.value] else [])
      ensures ended == old(ended) + (if emitted == Some(Terminate(None)) then 1 else 0)
    {
      if t == 1 && counter <= maxCount {
        emitted := Some(Data(counter));
        assert Counting(0, counter + 1) == Counting(0, counter) + [Data(counter)];
        counter := counter + 1;
      } else if t == 1 {
        emitted := Some(Terminate(None));
        assert Repeat(Terminate(None), ended + 1) == Repeat(Terminate(None), ended) + [Terminate(None)];
        ended := ended + 1;
      } else {
        emitted := None;
      }
      if emitted.Some? {
        sent := sent + [emitted.value];
      }
    }
  }

  /**
    `firstN(maxCount)(start, sink)`: any start other than 0 returns at once, with no
    session and nothing sent; start 0 opens a session that has sent only its greeting.
   */
  method Call(maxCount: int, start: int) returns (session: FirstN?)
    ensures start != 0 <==> session == null
    ensures session != null ==>
      fresh(session) && session.Valid() && session.maxCount == maxCount &&
      session.counter == 0 && session.sent == [Greet]
  {
    if start != 0 {
      return null;
    }
    session := new FirstN.Greeted(maxCount);
  }

  /**
    A fresh session asked for data `k` times: the values 0, 1, ... up to the capacity,
    then a Terminate for every further request (nothing marks the session as done).
   */
  method PullRepeatedly(maxCount: int, k: nat) returns (sent: seq<Message>)
    ensures var n := if k <= Capacity(maxCount) then k else Capacity(maxCount);
      sent == [Greet] + Counting(0, n) + Repeat(Terminate(None), k - n)
  {
    var session := new FirstN.Greeted(maxCount);
    var i := 0;
    while i < k
      invariant 0 <= i <= k
      invariant session.Valid() && session.maxCount == maxCount
      invariant session.counter == if i <= Capacity(maxCount) then i else Capacity(maxCount)
      invariant session.ended == i - session.counter
    {
      var _ := session.Talkback(1);
      i := i + 1;
    }
    sent := session.sent;
  }

  /**
    A cancellation (type 2) followed by a request: the talkback ignores the 2, so the
    request is answered as if no cancellation had happened.
   */
  method PullAfterCancel(maxCount: int) returns (sent: seq<Message>)
    ensures maxCount >= 0 ==> sent == [Greet, Data(0)]
    ensures maxCount < 0 ==> sent == [Greet, Terminate(None)]
  {
    var session := new FirstN.Greeted(maxCount);
    var _ := session.Talkback(2);
    var _ := session.Talkback(1);
    sent := session.sent;
  }
}
