# callbag readme.js, modelled in Dafny

`readme.js` shows the callbag protocol. A source and a sink talk through one callable
`(type, payload)`. Type 0 is the greeting and carries the talkback. Type 1 is a datum
(source to sink) or a request for one (sink to source, through the talkback). Type 2
ends the session, optionally carrying an error.

The model covers the sequential, synchronous part of the file:

- `pullable.firstN(maxCount)` is the class `Pullable.FirstN`. One object is one session.
  It holds the closure's `counter` and the trace `sent` of everything it has passed to
  its sink. Its method `Talkback(t)` is `pullableTalkback`.
- `multiplyBy(factor)` and `tap(fn)` are functions over message traces
  (`Operators.MultiplyBy`, `Operators.Tap`). Neither operator keeps state, and each
  calls its sink exactly once per message from upstream. `Tap` returns the interleaving
  of observer calls and sink calls.
- Composed sources are the datatype `Pipeline.Source`. `Pipeline.Pipe` is the
  `ops.reduce` fold. `Pipeline.Start` is the `start !== 0` guard that every
  source and operator shares. `Pipeline.Delivered` and `Pipeline.Observations` say what
  the final sink and each tap's observer receive while the head emits a given trace.
- `log` is the method `LogSink.Log`. In readme.js the sink calls the talkback from
  inside its own callback. The model unrolls that recursion into a loop that runs until
  a talkback call no longer calls the sink back. `LogSink.Readme` is the program at the
  end of the file.

The code and the protocol description differ in three places. The model follows the code:

- The bound is inclusive: `counter <= maxCount`, so `firstN(10)` emits the 11 values
  0..10.
- The talkback ignores type 2. A request after a "cancellation" is still answered.
- There is no terminated flag. Every request after exhaustion gets another Terminate.
  Also, `log` sends the Terminate back through the talkback (readme.js:85), although
  the protocol says the receiving party must not respond.

Terminate never carries an error here, because `pullable.firstN` never sends one.
Greet carries no payload in `Message`. The operators forward the Greet unchanged,
talkback included, so the talkback the sink calls is the head session itself.
`LogSink.Log` therefore opens the head session with `Pullable.Call(maxCount, 0)`, takes
its first message from `Pipeline.Start`, and then calls the `FirstN` object directly.

## Model

| member | source | states |
|---|---|---|
| `Pullable.FirstN.Greeted` | readme.js:132-134 | after the guard, a session starts with counter 0 and has sent exactly one message, the Greet; it satisfies the session invariant (greeting, consecutive values, then only Terminates) |
| `Pullable.FirstN.Talkback` | readme.js:134-139 | type 1 with `counter <= maxCount` sends `Data(counter)` and increments the counter by 1; type 1 past the bound sends `Terminate` with no payload and leaves the counter as it is; any other type (2 included) sends nothing and changes nothing; the trace grows by exactly the message sent; the invariant is kept, so the values sent are 0, 1, 2, … in order |
| `Pullable.Call` | readme.js:125-139 | start other than 0: no session and nothing sent; start 0: a fresh session that has sent only its Greet |
| `Pullable.PullRepeatedly` | readme.js:134-137 | k requests on a fresh session yield Greet, the values 0..n-1 with n = min(k, maxCount+1) (0 if maxCount < 0), then k-n Terminates: exhaustion is repeated, not absorbing |
| `Pullable.PullAfterCancel` | readme.js:134-138 | a type-2 call followed by a request still gets `Data(0)` (or Terminate when maxCount < 0): the talkback does not cancel |
| `Operators.Scale` | readme.js:165-167 | one message through `multiplyBySink`: the type is kept, a datum's value is multiplied by the factor, any other message is passed on as it is |
| `Operators.MultiplyBy` | readme.js:154-168 | same length and order as the input, every type kept, each `Data(v)` becomes `Data(v*factor)`, every other message is forwarded unchanged |
| `Operators.MultiplyByAppend` | readme.js:164-168 | the operator works message by message: it distributes over concatenation of traces |
| `Operators.MultiplyByCompose` | readme.js:154-168 | `multiplyBy(f)` then `multiplyBy(g)` equals `multiplyBy(f*g)` |
| `Operators.MultiplyByOne` | readme.js:164-168 | `multiplyBy(1)` forwards the trace unchanged |
| `Operators.Tap` | readme.js:172-179 | for every upstream message, greet included, the observer call comes first and the unchanged sink call right after it; twice as many events as messages |
| `Operators.TapTransparent` | readme.js:176-179 | both the observer trace and the sink trace equal the input trace |
| `Pipeline.Apply` | readme.js:151-173 | `op(res)`: the new source keeps the head, adds `op` as its outermost operator, multiplies the gain by the factor of a multiplyBy and adds one tap for a tap |
| `Pipeline.Pipe` | readme.js:150-152 | the result keeps the source's head and wraps it in the operators in list order, first innermost (a left fold) |
| `Pipeline.PipeSnoc` | readme.js:150-152 | `pipe(s, ops + [op]) == op(pipe(s, ops))` |
| `Pipeline.PipeOfChain` | readme.js:150-152 | every composed source is the pipe of its head through its own operators |
| `Pipeline.Start` | readme.js:125-181 | the guards at lines 126, 156 and 174: a start other than 0 declines, with nothing sent and nothing greeted upstream; start 0 greets every source down to the head, each one greeting the source it wraps (lines 164 and 176), and exactly one Greet reaches the sink |
| `Pipeline.StartDelivers` | readme.js:154-181 | the Greet that `Start` hands the sink is what `Delivered` gives for the head's Greet, so the two descriptions of a session agree |
| `Pipeline.Delivered` | readme.js:154-181 | what a composed source's sink receives: one message per message of the head, in order, with the type unchanged |
| `Pipeline.DeliveredScales` | readme.js:154-181 | a chain of multiplyBy and tap delivers what one multiplyBy by the product of its factors would |
| `Pipeline.DeliveredAppend` | readme.js:154-181 | delivery distributes over concatenation (no buffering or reordering across messages) |
| `Pipeline.Observations` | readme.js:172-179 | one observer trace per tap in the source |
| `Pipeline.ObservationsAppend` | readme.js:172-179 | each observer's trace for `a + b` is its trace for `a` followed by its trace for `b` |
| `Pipeline.TapsSeeTheirInputs` | readme.js:172-179 | every tap, not only the outermost, observes exactly what the source it wraps delivers |
| `Pipeline.OuterTapSeesDelivery` | readme.js:176-178 | the outermost tap observes exactly what its sink receives |
| `LogSink.Log` | readme.js:63-88 | driving any composed source: the sink receives the delivery of Greet, Data 0..maxCount, one Terminate; each tap observes its share of the same; the talkback is called with 1 once per Greet or Data, then with 2 once |
| `LogSink.Reply` | readme.js:68-86 | the type `logSink` calls the talkback with (lines 72, 77 and 85) is 1 or 2, and it is 2 exactly when the message received is a Terminate |
| `LogSink.Answer` | readme.js:68-86 | one call of `logSink` with message m: exactly one talkback call, of type `Reply(m)`, is recorded; the run ends (no message comes back) exactly when m is the Terminate; otherwise the head answers, so the counter or the Terminate count goes up by one and the sink's trace grows by exactly that answer |
| `LogSink.Request` | readme.js:72-85 | one talkback call by `logSink`: the head's reply (if any) is passed down to the sink and the observers, with the counter and Terminate count updated as `Talkback` promises; the sink's trace grows by exactly the reply it is handed, or not at all |
| `LogSink.DeliverOne` | readme.js:164-179 | one more head message adds exactly one delivered message, of the same type, after the earlier ones |
| `LogSink.ScaledRun` | readme.js:164-168 | a whole session seen through a gain f: Greet, `Data(f*i)` for i in 0..maxCount, Terminate |
| `LogSink.DeliveredRun` | readme.js:63-88 | what `log` receives from any composed source, in terms of the source's head bound and gain |
| `LogSink.ReadmePipeline` | readme.js:183-188 | the `pipe(...)` at the end of the file: a head of bound n wrapped by multiplyBy(2), multiplyBy(2) and tap in that order, so its gain is 4 and it has one tap |
| `LogSink.ReadmeSession` | readme.js:183-189 | the readme pipeline with any bound n delivers Greet, 0, 4, 8, …, 4n, Terminate, and its tap observes the same |
| `LogSink.Readme` | readme.js:183-189 | the program at the end of the file: `log` receives Greet, the 11 values 0, 4, …, 40, one Terminate with no payload; the tap observes exactly that; the talkback gets twelve 1s, then the echoed 2 |

## Left out

- `listenable.interval` (readme.js:105-121) and `puller.interval` (readme.js:34-58):
  `setInterval` and `clearInterval` drive them, so their behaviour is timing and host I/O.
  This includes the `start !== 0` guard at readme.js:108.
- `listener` (readme.js:10-32): an illustrative stub with no behaviour.
- `console.log` in `log`, in `puller` and in the observer passed to `tap` at
  readme.js:187: the model keeps the message traces and not the printing. The observer
  is modelled as the sequence of messages it is called with.
- JavaScript number semantics of `data * factor`: payloads are unbounded `int`.
- The talkback payload of Greet and the payload `log` echoes with type 2 (readme.js:85).
  The pullable talkback looks only at its type, so the model records only types.
- The re-entrant call depth of the synchronous recursion: `LogSink.Log` unrolls it
  into a loop.
- Guarantees that the protocol describes and readme.js does not give: cancellation
  that stops later data, and a terminal state after which nothing more is exchanged.
  The model follows the code; `Pullable.PullAfterCancel` and `Pullable.PullRepeatedly`
  state what the code does instead.
- `pipe(..., log)` applies `log` as its last operator, and `log` returns `undefined`.
  The model writes that call as `LogSink.Log(Pipeline.Pipe(source, ops))`.
- `Pipeline.Observations`: its own contract gives only the number of observer traces.
  What the traces hold is stated by `Pipeline.TapsSeeTheirInputs` (every tap sees what
  the source it wraps delivers), `Pipeline.ObservationsAppend` and
  `Pipeline.OuterTapSeesDelivery`.
