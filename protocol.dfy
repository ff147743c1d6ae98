/** The optional payload of a Terminate message. */
module Wrappers {
  datatype Option<+T> = None | Some(value: T)
}

/**
  The callbag message shape. Sources and sinks are one callable `(type, payload)`;
  here the pair is a tagged union, so only the three discriminants exist.
 */
module Protocol {
  import opened Wrappers

  /**
    Greet is the handshake (type 0; its talkback payload is not represented: the
    operators forward it unchanged, so the talkback a sink receives is the one the
    pullable source created). Data carries one value (type 1). Terminate (type 2)
    carries an error payload, or None on normal completion.
   */
  datatype Message = Greet | Data(v: int) | Terminate(err: Option<int>)
  {
    /** The discriminant passed as the first argument of the callable. */
    function Type(): nat
    {
      match this
      case Greet => 0
      case Data(_) => 1
      case Terminate(_) => 2
    }
  }

  /** `n` consecutive data messages carrying `from`, `from + 1`, ... */
  function Counting(from: int, n: nat): seq<Message>
  {
    seq(n, i requires 0 <= i < n => Data(from + i))
  }

  /** `x` repeated `n` times. */
  function Repeat<T>(x: T, n: nat): seq<T>
  {
    seq(n, _ => x)
  }

  lemma RepeatSnoc<T>(x: T, n: nat)
    ensures Repeat(x, n + 1) == Repeat(x, n) + [x]
  {
  }
}
