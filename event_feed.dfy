/**
 * The specification of the event feed: what `receiveEvent` pushes for the
 * frame results one connection delivers, and what the reconnect loop of
 * `launch` pushes over successive connections.
 */
module EventFeed {
  import opened Wrappers
  import opened RawEvents
  import opened FrameDecoder
  import opened EventMapper
  import ConnectRetry

  /** One result of `incoming.receiveCatching()`. */
  datatype FrameResult =
    | Closed                          // the incoming channel is closed
    | ReceiveFailure(cancellation: bool)  // a failed result; `cancellation` when its exception is a CancellationException
    | TextFrame(text: string)
    | BinaryFrame(bytes: seq<bv8>)
    | OtherFrame                      // a ping, pong or close frame

  /** Why the receive loop stopped. */
  datatype ReceiveEnd =
    | RemoteClosed
    | Cancelled
    | FramesExhausted                 // the connection delivered nothing more and is no longer active
    | DecodeFailed(text: string, error: DecodeError)
    | NotActive                       // the session job was not active when the loop began

  datatype ReceiveRun = ReceiveRun(pushed: seq<Event>, end: ReceiveEnd)

  /** A frame's payload and the event it is mapped to: decode, then dispatch. */
  function Dispatch(codec: Codec, text: string): (r: Result<Event, DecodeError>)
    // a payload that is not a JSON object, or has no `post_type`, is never pushed
    ensures codec.parseObject(text).None? ==> r == Failure(MalformedJson)
    ensures codec.parseObject(text).Some? && POST_TYPE_FIELD !in codec.parseObject(text).value ==> r == Failure(MissingPostType)
    // whatever is pushed is a mapped event carrying the payload as its raw text
    ensures r.Success? ==> r.value.Mapped? && r.value.raw == text
    // a frame with a post type but no subtype, time or self id is pushed as an unknown event with the defaults
    ensures (HasPostType(codec, text)
             && var obj := codec.parseObject(text).value;
                SubTypeFieldName(codec, PostTypeOf(codec, text)) !in obj && TIME_FIELD !in obj && SELF_ID_FIELD !in obj) ==>
              r == Success(Mapped(Unknown, text, UnknownEvent(DEFAULT_TIME, DEFAULT_SELF_ID, PostTypeOf(codec, text), text)))
    ensures r.Success? <==> ResolveRawEvent(codec, text).Success?
    ensures r.Success? ==> r.value == ResolveRawEventToEvent(text, ResolveRawEvent(codec, text).value)
    ensures r.Failure? ==> r.error == ResolveRawEvent(codec, text).error
  {
    var event :- ResolveRawEvent(codec, text);
    Success(ResolveRawEventToEvent(text, event))
  }

  /** What `receiveEvent` does with the frame results, read in order. */
  function Receive(codec: Codec, frames: seq<FrameResult>): (run: ReceiveRun)
    ensures |run.pushed| <= |frames|
    ensures !run.end.NotActive?
    ensures run.end.DecodeFailed? ==> Dispatch(codec, run.end.text) == Failure(run.end.error)
    decreases |frames|, 1
  {
    if frames == [] then ReceiveRun([], FramesExhausted)
    else
      match frames[0]
      case Closed => ReceiveRun([], RemoteClosed)
      case ReceiveFailure(cancellation) =>
        if cancellation then ReceiveRun([], Cancelled) else Receive(codec, frames[1..])
      case OtherFrame => Receive(codec, frames[1..])
      case TextFrame(text) => Feed(codec, text, frames[1..])
      case BinaryFrame(bytes) => Feed(codec, codec.decodeUtf8(bytes), frames[1..])
  }

  /** A payload followed by the rest of the frames: a decode failure stops everything. */
  function Feed(codec: Codec, text: string, rest: seq<FrameResult>): (run: ReceiveRun)
    ensures |run.pushed| <= |rest| + 1
    ensures !run.end.NotActive?
    ensures run.end.DecodeFailed? ==> Dispatch(codec, run.end.text) == Failure(run.end.error)
    // the payload's own event is pushed first, or the loop stops at it with nothing pushed
    ensures Dispatch(codec, text).Success? ==> |run.pushed| > 0 && run.pushed[0] == Dispatch(codec, text).value
    ensures Dispatch(codec, text).Failure? ==> run == ReceiveRun([], DecodeFailed(text, Dispatch(codec, text).error))
    decreases |rest|, 2
  {
    match Dispatch(codec, text)
    case Failure(e) => ReceiveRun([], DecodeFailed(text, e))
    case Success(event) =>
      var tail := Receive(codec, rest);
      ReceiveRun([event] + tail.pushed, tail.end)
  }

  /**
   * The bot's event queue after the receive loop reads `frames[i..]`,
   * starting from `queue`: the loop as it runs, one frame result at a time.
   */
  function ReceiveFrom(queue: seq<Event>, codec: Codec, frames: seq<FrameResult>, i: nat): ReceiveRun
    requires i <= |frames|
    decreases |frames| - i, 1
  {
    if i == |frames| then ReceiveRun(queue, FramesExhausted)
    else
      match frames[i]
      case Closed => ReceiveRun(queue, RemoteClosed)
      case ReceiveFailure(cancellation) =>
        if cancellation then ReceiveRun(queue, Cancelled) else ReceiveFrom(queue, codec, frames, i + 1)
      case OtherFrame => ReceiveFrom(queue, codec, frames, i + 1)
      case TextFrame(text) => FeedFrom(queue, codec, text, frames, i + 1)
      case BinaryFrame(bytes) => FeedFrom(queue, codec, codec.decodeUtf8(bytes), frames, i + 1)
  }

  function FeedFrom(queue: seq<Event>, codec: Codec, text: string, frames: seq<FrameResult>, i: nat): ReceiveRun
    requires i <= |frames|
    decreases |frames| - i + 1, 0
  {
    match Dispatch(codec, text)
    case Failure(e) => ReceiveRun(queue, DecodeFailed(text, e))
    case Success(event) => ReceiveFrom(queue + [event], codec, frames, i)
  }

  /** Reading the frames onto a queue appends to it what `Receive` pushes, and ends as `Receive` does. */
  lemma {:induction false} ReceiveFromIsReceive(queue: seq<Event>, codec: Codec, frames: seq<FrameResult>, i: nat)
    requires i <= |frames|
    ensures var run := Receive(codec, frames[i..]);
            ReceiveFrom(queue, codec, frames, i) == ReceiveRun(queue + run.pushed, run.end)
    decreases |frames| - i, 1
  {
    if i < |frames| {
      assert frames[i..][0] == frames[i] && frames[i..][1..] == frames[i + 1..];
      match frames[i]
      case Closed =>
      case ReceiveFailure(cancellation) =>
        if !cancellation {
          ReceiveFromIsReceive(queue, codec, frames, i + 1);
        }
      case OtherFrame =>
        ReceiveFromIsReceive(queue, codec, frames, i + 1);
      case TextFrame(text) =>
        FeedFromIsFeed(queue, codec, text, frames, i + 1);
      case BinaryFrame(bytes) =>
        FeedFromIsFeed(queue, codec, codec.decodeUtf8(bytes), frames, i + 1);
    } else {
      assert frames[i..] == [];
    }
  }

  lemma {:induction false} FeedFromIsFeed(queue: seq<Event>, codec: Codec, text: string, frames: seq<FrameResult>, i: nat)
    requires i <= |frames|
    ensures var run := Feed(codec, text, frames[i..]);
            FeedFrom(queue, codec, text, frames, i) == ReceiveRun(queue + run.pushed, run.end)
    decreases |frames| - i + 1, 0
  {
    if Dispatch(codec, text).Success? {
      var event := Dispatch(codec, text).value;
      ReceiveFromIsReceive(queue + [event], codec, frames, i);
      var tail := Receive(codec, frames[i..]);
      assert queue + [event] + tail.pushed == queue + ([event] + tail.pushed);
    }
  }

  // An independent statement of the same behaviour, as a pipeline of
  // sequence operations: cut at the first end, keep the payloads, decode.

  predicate EndsReceive(f: FrameResult) {
    f.Closed? || (f.ReceiveFailure? && f.cancellation)
  }

  /** The frame results before the first Closed or cancellation. */
  function Live(frames: seq<FrameResult>): (live: seq<FrameResult>)
    ensures |live| <= |frames| && live == frames[..|live|]
    ensures forall i :: 0 <= i < |live| ==> !EndsReceive(live[i])
    ensures |live| < |frames| ==> EndsReceive(frames[|live|])
  {
    if frames == [] || EndsReceive(frames[0]) then []
    else
      var rest := Live(frames[1..]);
      assert frames == [frames[0]] + frames[1..];
      [frames[0]] + rest
  }

  /** The text of each Text and Binary frame, in order. */
  function Payloads(codec: Codec, frames: seq<FrameResult>): seq<string> {
    if frames == [] then []
    else
      match frames[0]
      case TextFrame(text) => [text] + Payloads(codec, frames[1..])
      case BinaryFrame(bytes) => [codec.decodeUtf8(bytes)] + Payloads(codec, frames[1..])
      case _ => Payloads(codec, frames[1..])
  }

  /** The number of leading payloads that decode. */
  function DecodedPrefix(codec: Codec, texts: seq<string>): (n: nat)
    ensures n <= |texts|
    ensures forall i :: 0 <= i < n ==> Dispatch(codec, texts[i]).Success?
    ensures n < |texts| ==> Dispatch(codec, texts[n]).Failure?
  {
    if texts == [] || Dispatch(codec, texts[0]).Failure? then 0
    else 1 + DecodedPrefix(codec, texts[1..])
  }

  /**
   * `run` pushed the dispatched events of the leading payloads of `texts` that
   * decode, in order, and ended with a decode failure exactly when a payload
   * fails to decode, at the first such payload.
   */
  predicate PushesDecodedPrefix(codec: Codec, run: ReceiveRun, texts: seq<string>) {
    var n := DecodedPrefix(codec, texts);
    && |run.pushed| == n
    && (forall i :: 0 <= i < n ==> Dispatch(codec, texts[i]) == Success(run.pushed[i]))
    && (run.end.DecodeFailed? <==> n < |texts|)
    && (run.end.DecodeFailed? ==> run.end.text == texts[n])
  }

  /**
   * The pushed events are exactly the dispatched payloads of the frames before
   * the first Closed or cancellation, in wire order, up to the first payload
   * that fails to decode; the loop ends with a decode failure exactly when
   * there is such a payload, and that payload's event is not pushed.
   */
  lemma {:induction false} ReceivePushesDispatchedPayloads(codec: Codec, frames: seq<FrameResult>)
    ensures PushesDecodedPrefix(codec, Receive(codec, frames), Payloads(codec, Live(frames)))
    decreases |frames|
  {
    if frames != [] {
      var rest := frames[1..];
      match frames[0]
      case Closed =>
      case ReceiveFailure(cancellation) =>
        if !cancellation {
          ReceivePushesDispatchedPayloads(codec, rest);
          assert Payloads(codec, Live(frames)) == Payloads(codec, Live(rest));
        }
      case OtherFrame =>
        ReceivePushesDispatchedPayloads(codec, rest);
        assert Payloads(codec, Live(frames)) == Payloads(codec, Live(rest));
      case TextFrame(text) =>
        ReceivePushesDispatchedPayloads(codec, rest);
        PayloadsCons(codec, text, frames);
        FeedPushesDecodedPrefix(codec, text, rest, Payloads(codec, Live(rest)));
      case BinaryFrame(bytes) =>
        ReceivePushesDispatchedPayloads(codec, rest);
        PayloadsCons(codec, codec.decodeUtf8(bytes), frames);
        FeedPushesDecodedPrefix(codec, codec.decodeUtf8(bytes), rest, Payloads(codec, Live(rest)));
    }
  }

  /**
   * When no payload fails to decode, the loop ends where the live frames end:
   * on the first Closed, on the first cancellation, or when the frames run out.
   */
  lemma {:induction false} ReceiveEndsWhereLiveEnds(codec: Codec, frames: seq<FrameResult>)
    ensures var run := Receive(codec, frames);
            var live := Live(frames);
            !run.end.DecodeFailed? ==>
              && (run.end == FramesExhausted <==> live == frames)
              && (run.end == RemoteClosed <==> |live| < |frames| && frames[|live|].Closed?)
              && (run.end == Cancelled <==> |live| < |frames| && frames[|live|].ReceiveFailure?)
    decreases |frames|
  {
    if frames != [] && !EndsReceive(frames[0]) {
      var rest := frames[1..];
      ReceiveEndsWhereLiveEnds(codec, rest);
      assert Live(frames) == [frames[0]] + Live(rest);
      assert forall k :: 0 <= k < |rest| ==> frames[k + 1] == rest[k];
    }
  }

  /** A payload in front of frames whose receive loop pushes the decoded prefix of `texts`. */
  lemma FeedPushesDecodedPrefix(codec: Codec, text: string, rest: seq<FrameResult>, texts: seq<string>)
    requires PushesDecodedPrefix(codec, Receive(codec, rest), texts)
    ensures PushesDecodedPrefix(codec, Feed(codec, text, rest), [text] + texts)
  {
    assert ([text] + texts)[0] == text && ([text] + texts)[1..] == texts;
    if Dispatch(codec, text).Success? {
      var run := Feed(codec, text, rest);
      var n := DecodedPrefix(codec, [text] + texts);
      forall i | 0 <= i < n
        ensures Dispatch(codec, ([text] + texts)[i]) == Success(run.pushed[i])
      {
        if i > 0 {
          assert ([text] + texts)[i] == texts[i - 1];
        }
      }
    }
  }

  lemma PayloadsCons(codec: Codec, text: string, frames: seq<FrameResult>)
    requires frames != [] && !EndsReceive(frames[0])
    requires frames[0] == TextFrame(text) || (frames[0].BinaryFrame? && text == codec.decodeUtf8(frames[0].bytes))
    ensures Payloads(codec, Live(frames)) == [text] + Payloads(codec, Live(frames[1..]))
  {
    var live := Live(frames);
    assert live[0] == frames[0] && live[1..] == Live(frames[1..]);
  }

  /** Frames the loop skips, failures other than cancellation and non-payload frames, change nothing. */
  lemma SkippedFramesChangeNothing(codec: Codec, f: FrameResult, rest: seq<FrameResult>)
    requires f.OtherFrame? || (f.ReceiveFailure? && !f.cancellation)
    ensures Receive(codec, [f] + rest) == Receive(codec, rest)
  {
    assert ([f] + rest)[1..] == rest;
  }

  /** A frame that is not a JSON object stops the loop with a decode failure and pushes nothing for it. */
  lemma MalformedFrameIsFatal(codec: Codec, pushedBefore: seq<FrameResult>, text: string, rest: seq<FrameResult>)
    requires codec.parseObject(text).None?
    requires Receive(codec, pushedBefore).end == FramesExhausted
    ensures Receive(codec, pushedBefore + [TextFrame(text)] + rest)
         == ReceiveRun(Receive(codec, pushedBefore).pushed, DecodeFailed(text, MalformedJson))
  {
    ReceiveAppend(codec, pushedBefore, [TextFrame(text)] + rest);
    assert pushedBefore + [TextFrame(text)] + rest == pushedBefore + ([TextFrame(text)] + rest);
  }

  /** The receive loop over two stretches of frames: the second is read only when the first runs out. */
  lemma {:induction false} ReceiveAppend(codec: Codec, a: seq<FrameResult>, b: seq<FrameResult>)
    ensures var ra := Receive(codec, a);
      Receive(codec, a + b) == if ra.end == FramesExhausted
                               then ReceiveRun(ra.pushed + Receive(codec, b).pushed, Receive(codec, b).end)
                               else ra
    decreases |a|
  {
    if a == [] {
      assert a + b == b;
    } else {
      assert (a + b)[0] == a[0] && (a + b)[1..] == a[1..] + b;
      ReceiveAppend(codec, a[1..], b);
      match a[0]
      case TextFrame(text) =>
        if Dispatch(codec, text).Success? {
          assert [Dispatch(codec, text).value] + (Receive(codec, a[1..]).pushed + Receive(codec, b).pushed)
              == ([Dispatch(codec, text).value] + Receive(codec, a[1..]).pushed) + Receive(codec, b).pushed;
        }
      case BinaryFrame(bytes) =>
        var text := codec.decodeUtf8(bytes);
        if Dispatch(codec, text).Success? {
          assert [Dispatch(codec, text).value] + (Receive(codec, a[1..]).pushed + Receive(codec, b).pushed)
              == ([Dispatch(codec, text).value] + Receive(codec, a[1..]).pushed) + Receive(codec, b).pushed;
        }
      case _ =>
    }
  }

  // The reconnect loop of `launch`.

  /**
   * What one pass of the reconnect loop meets: the outcomes of its connect
   * attempts, used only when the pass has to reconnect, and the frame results
   * the connection then delivers.
   */
  datatype Round = Round(attempts: seq<bool>, frames: seq<FrameResult>)

  /** How the reconnect loop stops. */
  datatype LaunchEnd =
    | JobInactive                                   // the session job was not active
    | NoConnection(retryTimes: nat)                 // the retry loop returned null
    | ConnectExhausted(retryTimes: nat)             // the retry loop threw
    | ReceiveFailed(text: string, error: DecodeError)  // the receive loop threw
    | RoundsExhausted                               // every modelled connection has been used

  datatype LaunchRun = LaunchRun(pushed: seq<Event>, end: LaunchEnd)

  /** What `launch(session)` pushes over the given rounds while its session job stays active. */
  function Launch(maxRetry: int, d: nat, codec: Codec, session: Option<nat>, rounds: seq<Round>): (run: LaunchRun)
    // the loop runs only while the session job is active, and a decode failure ends it at a payload that fails
    ensures !run.end.JobInactive?
    ensures run.end.ReceiveFailed? ==> Dispatch(codec, run.end.text) == Failure(run.end.error)
    decreases |rounds|, 1
  {
    if rounds == [] then LaunchRun([], RoundsExhausted)
    else LaunchRound(maxRetry, d, codec, session, rounds[0], rounds[1..])
  }

  /** What one pass of the reconnect loop pushes, and the end it reaches when the loop stops there. */
  datatype RoundRun = RoundRun(pushed: seq<Event>, stop: Option<LaunchEnd>)

  /**
   * One pass of the reconnect loop: reconnect with retry unless a connection
   * is held, then receive on the connection.
   */
  function RoundStep(maxRetry: int, d: nat, codec: Codec, session: Option<nat>, round: Round): (step: RoundRun)
    // a pass stops the loop only on a failed reconnect or a decode failure
    ensures step.stop.Some? ==> step.stop.value.NoConnection? || step.stop.value.ConnectExhausted? || step.stop.value.ReceiveFailed?
    // a held connection is never replaced, so only the receive loop can stop the pass
    ensures session.Some? ==> step.stop.None? || step.stop.value.ReceiveFailed?
    // a pass that gets no connection pushes nothing
    ensures (session.None? && !ConnectRetry.Expected(maxRetry, d, round.attempts).outcome.Connected?) ==>
              step.pushed == [] && step.stop.Some?
    ensures step.stop.Some? && step.stop.value.ReceiveFailed? ==>
              Dispatch(codec, step.stop.value.text) == Failure(step.stop.value.error)
  {
    var retry := ConnectRetry.Expected(maxRetry, d, round.attempts);
    if session.None? && retry.outcome.Exhausted? then RoundRun([], Some(ConnectExhausted(retry.retryTimes)))
    else if session.None? && !retry.outcome.Connected? then RoundRun([], Some(NoConnection(retry.retryTimes)))
    else
      var received := Receive(codec, round.frames);
      if received.end.DecodeFailed? then RoundRun(received.pushed, Some(ReceiveFailed(received.end.text, received.end.error)))
      else RoundRun(received.pushed, None)
  }

  /** One pass of the reconnect loop, then the passes over the remaining rounds. */
  function LaunchRound(maxRetry: int, d: nat, codec: Codec, session: Option<nat>, round: Round, rest: seq<Round>): (run: LaunchRun)
    ensures !run.end.JobInactive?
    ensures run.end.ReceiveFailed? ==> Dispatch(codec, run.end.text) == Failure(run.end.error)
    // what this pass pushes comes first
    ensures RoundStep(maxRetry, d, codec, session, round).pushed <= run.pushed
    decreases |rest|, 2
  {
    var step := RoundStep(maxRetry, d, codec, session, round);
    if step.stop.Some? then LaunchRun(step.pushed, step.stop.value)
    else
      var later := Launch(maxRetry, d, codec, None, rest);
      LaunchRun(step.pushed + later.pushed, later.end)
  }

  /**
   * The connection a pass receives on: the one held, else the one the retry
   * loop returns; None when the pass has to reconnect and cannot.
   */
  function RoundConnection(maxRetry: int, d: nat, session: Option<nat>, round: Round): (c: Option<nat>)
    ensures session.Some? ==> c == session
    ensures session.None? ==> (c.Some? <==> ConnectRetry.Expected(maxRetry, d, round.attempts).outcome.Connected?)
    ensures session.None? && c.Some? ==> c.value == ConnectRetry.Expected(maxRetry, d, round.attempts).outcome.attempt
  {
    if session.Some? then session
    else
      var retry := ConnectRetry.Expected(maxRetry, d, round.attempts);
      if retry.outcome.Connected? then Some(retry.outcome.attempt) else None
  }

  /**
   * The state of a session while `launch` runs: the bot's event queue, the
   * connection the session last received on, and, once the loop stops, how.
   */
  datatype LaunchState = LaunchState(queue: seq<Event>, held: Option<nat>, end: LaunchEnd)

  /**
   * The state after the passes over `rounds[i..]`, starting from the queue
   * `queue` and the held connection `held`: the loop of `launch` as it runs,
   * one pass at a time.
   */
  function LaunchFrom(queue: seq<Event>, held: Option<nat>, maxRetry: int, d: nat, codec: Codec, session: Option<nat>,
                      rounds: seq<Round>, i: nat): LaunchState
    requires i <= |rounds|
    decreases |rounds| - i
  {
    if i == |rounds| then LaunchState(queue, held, RoundsExhausted)
    else
      var step := RoundStep(maxRetry, d, codec, session, rounds[i]);
      var connection := RoundConnection(maxRetry, d, session, rounds[i]);
      var held' := if connection.Some? then connection else held;
      if step.stop.Some? then LaunchState(queue + step.pushed, held', step.stop.value)
      else LaunchFrom(queue + step.pushed, held', maxRetry, d, codec, None, rounds, i + 1)
  }

  /** Running the passes onto a queue appends to it what `Launch` pushes, and ends as `Launch` does. */
  lemma {:induction false} LaunchFromIsLaunch(queue: seq<Event>, held: Option<nat>, maxRetry: int, d: nat, codec: Codec,
                                              session: Option<nat>, rounds: seq<Round>, i: nat)
    requires i <= |rounds|
    ensures var run := Launch(maxRetry, d, codec, session, rounds[i..]);
            var state := LaunchFrom(queue, held, maxRetry, d, codec, session, rounds, i);
            state.queue == queue + run.pushed && state.end == run.end
    decreases |rounds| - i
  {
    if i < |rounds| {
      assert rounds[i..][0] == rounds[i] && rounds[i..][1..] == rounds[i + 1..];
      var step := RoundStep(maxRetry, d, codec, session, rounds[i]);
      var connection := RoundConnection(maxRetry, d, session, rounds[i]);
      var held' := if connection.Some? then connection else held;
      if step.stop.None? {
        LaunchFromIsLaunch(queue + step.pushed, held', maxRetry, d, codec, None, rounds, i + 1);
        var later := Launch(maxRetry, d, codec, None, rounds[i + 1..]);
        assert queue + step.pushed + later.pushed == queue + (step.pushed + later.pushed);
      }
    }
  }

  /**
   * A session that received on some connection holds one afterwards: when the
   * loop ran a pass to its receive loop (it ran out of rounds after at least
   * one, or a payload failed to decode), the held connection is set.
   */
  lemma {:induction false} LaunchHoldsLastConnection(queue: seq<Event>, held: Option<nat>, maxRetry: int, d: nat, codec: Codec,
                                                     session: Option<nat>, rounds: seq<Round>, i: nat)
    requires i < |rounds|
    requires LaunchFrom(queue, held, maxRetry, d, codec, session, rounds, i).end.RoundsExhausted?
          || LaunchFrom(queue, held, maxRetry, d, codec, session, rounds, i).end.ReceiveFailed?
    ensures LaunchFrom(queue, held, maxRetry, d, codec, session, rounds, i).held.Some?
    decreases |rounds| - i
  {
    var step := RoundStep(maxRetry, d, codec, session, rounds[i]);
    var connection := RoundConnection(maxRetry, d, session, rounds[i]);
    var held' := if connection.Some? then connection else held;
    if step.stop.None? && i + 1 < |rounds| {
      LaunchHoldsLastConnection(queue + step.pushed, held', maxRetry, d, codec, None, rounds, i + 1);
    }
  }

  /** Everything the rounds' connections push, one connection after another. */
  function ReceivedAll(codec: Codec, rounds: seq<Round>): seq<Event> {
    if rounds == [] then [] else Receive(codec, rounds[0].frames).pushed + ReceivedAll(codec, rounds[1..])
  }

  /**
   * When every reconnect connects and no frame fails to decode, a dropped
   * connection is always followed by a reconnect, and the loop pushes what
   * each connection received, in connection order.
   */
  lemma {:induction false} ReconnectsAfterEveryDrop(maxRetry: int, d: nat, codec: Codec, session: Option<nat>, rounds: seq<Round>)
    requires forall i :: 0 <= i < |rounds| ==> !Receive(codec, rounds[i].frames).end.DecodeFailed?
    requires forall i :: 0 <= i < |rounds| && (i > 0 || session.None?) ==>
               ConnectRetry.Expected(maxRetry, d, rounds[i].attempts).outcome.Connected?
    ensures Launch(maxRetry, d, codec, session, rounds) == LaunchRun(ReceivedAll(codec, rounds), RoundsExhausted)
    decreases |rounds|
  {
    if rounds != [] {
      ReconnectsAfterEveryDrop(maxRetry, d, codec, None, rounds[1..]);
    }
  }

  /**
   * With a maximum of zero or less, the first reconnect never yields a
   * connection, so after the first connection drops the loop ends with
   * nothing more pushed.
   */
  lemma NoReconnectWithoutPositiveMaximum(maxRetry: int, d: nat, codec: Codec, rounds: seq<Round>)
    requires maxRetry <= 0 && rounds != []
    ensures Launch(maxRetry, d, codec, None, rounds).pushed == []
    ensures Launch(maxRetry, d, codec, None, rounds).end.NoConnection?
  {
    if maxRetry == 0 {
      ConnectRetry.ZeroMaximumNeverConnects(d, rounds[0].attempts);
    }
  }
}
