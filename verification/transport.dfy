/** What the WebSocket transport's handlers hand back to the framework: the
    steps an `open` handler takes, the settlement of the promise it returns,
    and the outcome of a `message` handler. */
module WsTransport {
  import opened Json

  /** One inbound frame: its raw text and its parsed object. */
  datatype Frame = Frame(raw: string, parsed: Object)

  /** What one call of the handshake listener does to the promise. */
  datatype Decision = Resolve | Reject(reason: string)

  /** The state of the promise returned by `open`. */
  datatype Settlement = Pending | Settled(decision: Decision)

  /** One call of `resolve` or `reject`: a settled promise ignores it. */
  function Deliver(state: Settlement, d: Decision): Settlement
  {
    if state.Pending? then Settled(d) else state
  }

  /** The promise after the listener `decide` has seen `frames`, in arrival
      order. The listener stays registered, so every frame reaches it. */
  function Listen(decide: Frame -> Decision, frames: seq<Frame>): (s: Settlement)
    ensures s.Pending? <==> |frames| == 0
    decreases |frames|
  {
    if |frames| == 0 then Pending
    else Deliver(Listen(decide, frames[..|frames| - 1]), decide(frames[|frames| - 1]))
  }

  /** The first frame alone decides the handshake. */
  lemma {:induction false} FirstFrameDecides(decide: Frame -> Decision, frames: seq<Frame>)
    requires |frames| > 0
    ensures Listen(decide, frames) == Settled(decide(frames[0]))
    decreases |frames|
  {
    if |frames| > 1 {
      var init := frames[..|frames| - 1];
      FirstFrameDecides(decide, init);
      assert init[0] == frames[0];
    }
  }

  /** Frames that arrive after the handshake settled cannot change it. */
  lemma SettledIsFinal(decide: Frame -> Decision, frames: seq<Frame>, later: seq<Frame>)
    requires |frames| > 0
    ensures Listen(decide, frames + later) == Listen(decide, frames)
  {
    FirstFrameDecides(decide, frames);
    FirstFrameDecides(decide, frames + later);
    assert (frames + later)[0] == frames[0];
  }

  /** One step of an `open` handler, in program order. */
  datatype OpenStep = RegisterListener | Send(payload: Value)

  /** Every frame the handler sends is preceded by the registration of the
      message listener, so an immediate reply from the server is not missed. */
  predicate ListensBeforeSending(steps: seq<OpenStep>)
  {
    forall j :: 0 <= j < |steps| && steps[j].Send? ==>
      exists i :: 0 <= i < j && steps[i] == RegisterListener
  }

  /** The payloads an `open` handler sends, in order. */
  function Sent(steps: seq<OpenStep>): seq<Value>
    decreases |steps|
  {
    if |steps| == 0 then []
    else (if steps[0].Send? then [steps[0].payload] else []) + Sent(steps[1..])
  }

  /** What a `message` handler hands back: `undefined`, an array of results,
      or a thrown `TypeError` (a property call on a value that lacks it). */
  datatype Outcome<R> = Undefined | Returned(results: seq<R>) | Threw
}
