/**
 * The bot and its event session: login identity, session supersession on
 * `start`, and the connect, receive and reconnect loops of the session. The
 * transport is not modelled: each connect attempt's outcome and each
 * connection's frame results are inputs of the methods.
 */
module Bot {
  import opened Wrappers
  import opened FrameDecoder
  import opened EventMapper
  import opened ConnectRetry
  import opened EventFeed

  /** A simbot identifier; the bot's own id is a string id, account ids are numeric. */
  datatype ID = StringID(text: string) | LongID(number: int)

  /** The result of the `get_login_info` action. */
  datatype LoginInfo = LoginInfo(userId: ID, nickname: string)

  /** What a failed remote action throws. */
  datatype ApiError = ApiError(message: string)

  /** The configuration values the bot reads; an engine is recorded only as present or absent. */
  datatype BotConfiguration = BotConfiguration(
    hasApiClientEngine: bool,
    hasApiClientEngineFactory: bool,
    hasWsClientEngine: bool,
    hasWsClientEngineFactory: bool,
    wsConnectMaxRetryTimes: int,
    wsConnectRetryDelayMillis: int)

  datatype ConfigError = ApiEngineConflict | WsEngineConflict

  /** The `require` of `resolveHttpClient`, then that of `resolveWsClient`: an engine and an engine factory cannot both be set. */
  function ConfigConflict(config: BotConfiguration): (r: Option<ConfigError>)
    ensures r.None? <==> (!(config.hasApiClientEngine && config.hasApiClientEngineFactory)
                          && !(config.hasWsClientEngine && config.hasWsClientEngineFactory))
    ensures r == Some(ApiEngineConflict) <==> config.hasApiClientEngine && config.hasApiClientEngineFactory
    ensures r == Some(WsEngineConflict) <==> (!(config.hasApiClientEngine && config.hasApiClientEngineFactory)
                                              && config.hasWsClientEngine && config.hasWsClientEngineFactory)
  {
    if config.hasApiClientEngine && config.hasApiClientEngineFactory then Some(ApiEngineConflict)
    else if config.hasWsClientEngine && config.hasWsClientEngineFactory then Some(WsEngineConflict)
    else None
  }

  datatype BotError = LoginInfoNotInitialised

  /** Why `start` throws. */
  datatype StartError =
    | JobNotActive
    | LoginFailed(error: ApiError)
    | ConnectFailed(retryTimes: nat)

  /** The two ways the retry loop completes the session job exceptionally. */
  datatype SessionFailure =
    | RetriesExhausted(retryTimes: nat)   // the loop threw
    | SessionNotCreated(retryTimes: nat)  // the loop returned null

  /** The state of a session job. */
  datatype JobState = JobActive | JobCancelled | JobFailed(cause: SessionFailure)

  class OneBotBot {
    const uniqueId: string
    const connectMaxRetryTimes: int
    const connectRetryDelay: nat
    const codec: Codec

    var loginInfo: Option<LoginInfo>
    var wsSession: WsEventSession?
    var isStarted: bool
    /** Whether the bot's job has been cancelled. */
    var jobCancelled: bool
    /** Every event pushed to the event processor, in push order. */
    var pushed: seq<Event>

    constructor (uniqueId: string, config: BotConfiguration, codec: Codec)
      requires ConfigConflict(config).None?
      ensures this.uniqueId == uniqueId && this.codec == codec
      ensures connectMaxRetryTimes == config.wsConnectMaxRetryTimes
      ensures connectRetryDelay == ClampDelay(config.wsConnectRetryDelayMillis)
      ensures loginInfo == None && wsSession == null && !isStarted && !jobCancelled && pushed == []
    {
      this.uniqueId := uniqueId;
      this.codec := codec;
      connectMaxRetryTimes := config.wsConnectMaxRetryTimes;
      connectRetryDelay := ClampDelay(config.wsConnectRetryDelayMillis);
      loginInfo := None;
      wsSession := null;
      isStarted := false;
      jobCancelled := false;
      pushed := [];
    }

    /** Construction, which throws when a client is given both an engine and an engine factory. */
    static method Create(uniqueId: string, config: BotConfiguration, codec: Codec) returns (r: Result<OneBotBot, ConfigError>)
      ensures r.Failure? <==> ConfigConflict(config).Some?
      ensures r.Failure? ==> r.error == ConfigConflict(config).value
      ensures r.Success? ==> fresh(r.value) && r.value.uniqueId == uniqueId && r.value.codec == codec
                             && r.value.connectMaxRetryTimes == config.wsConnectMaxRetryTimes
                             && r.value.connectRetryDelay == ClampDelay(config.wsConnectRetryDelayMillis)
                             && r.value.loginInfo == None && r.value.wsSession == null
                             && !r.value.isStarted && !r.value.jobCancelled && r.value.pushed == []
    {
      var conflict := ConfigConflict(config);
      if conflict.Some? {
        return Failure(conflict.value);
      }
      var bot := new OneBotBot(uniqueId, config, codec);
      return Success(bot);
    }

    /** `id`: the bot's own unique id. */
    function Id(): ID {
      StringID(uniqueId)
    }

    /** `job.isActive`. */
    predicate IsActive()
      reads this
    {
      !jobCancelled
    }

    /** `queryLoginInfo`: the response of the remote call is stored only when the call succeeds. */
    method QueryLoginInfo(response: Result<LoginInfo, ApiError>) returns (r: Result<LoginInfo, ApiError>)
      modifies this`loginInfo
      ensures r == response
      ensures loginInfo == if response.Success? then Some(response.value) else old(loginInfo)
    {
      if response.Failure? {
        return response;
      }
      loginInfo := Some(response.value);
      return response;
    }

    /** The `loginInfoResult` getter: fails until a login query has succeeded. */
    function LoginInfoResult(): (r: Result<LoginInfo, BotError>)
      reads this
      ensures r.Success? <==> loginInfo.Some?
      ensures r.Success? ==> r.value == loginInfo.value
      ensures r.Failure? ==> r.error == LoginInfoNotInitialised
    {
      match loginInfo
      case None => Failure(LoginInfoNotInitialised)
      case Some(info) => Success(info)
    }

    /** `userId`: the login info's account id. */
    function UserId(): (r: Result<ID, BotError>)
      reads this
      ensures r.Success? <==> loginInfo.Some?
      ensures r.Success? ==> r.value == loginInfo.value.userId
      ensures r.Failure? ==> r.error == LoginInfoNotInitialised
    {
      var info :- LoginInfoResult();
      Success(info.userId)
    }

    /** `name`: the login info's nickname. */
    function Name(): (r: Result<string, BotError>)
      reads this
      ensures r.Success? <==> loginInfo.Some?
      ensures r.Success? ==> r.value == loginInfo.value.nickname
      ensures r.Failure? ==> r.error == LoginInfoNotInitialised
    {
      var info :- LoginInfoResult();
      Success(info.nickname)
    }

    /** `isMe`. */
    function IsMe(id: ID): (r: bool)
      reads this
      ensures id == Id() ==> r
      ensures id != Id() && loginInfo.Some? ==> (r <==> id == loginInfo.value.userId)
      ensures loginInfo.None? ==> r
    {
      if id == Id() then true
      else match loginInfo
        case Some(info) => id == info.userId
        case None => true
    }

    /** `createEventSession`: the current session is cleared and cancelled before a new one is made. */
    method CreateEventSession() returns (s: WsEventSession)
      modifies this`wsSession, wsSession
      ensures wsSession == null
      ensures fresh(s) && s.bot == this && s.job == JobActive && s.session == None
      ensures old(wsSession) != null ==>
                && old(wsSession).job == (if old(wsSession.job).JobActive? then JobCancelled else old(wsSession.job))
                && old(wsSession).session == old(wsSession.session)
    {
      var currentSession := wsSession;
      wsSession := null;
      if currentSession != null {
        currentSession.Cancel();
      }
      s := new WsEventSession(this);
    }

    /**
     * `start`: fails when the bot's job is no longer active or the login query
     * fails; otherwise stores the login info, supersedes the current session,
     * connects with retry and installs the new session unless the retry loop
     * threw, and pushes the started event on the first successful start only.
     * The returned connection, if any, is the one `launch` continues with.
     */
    method Start(login: Result<LoginInfo, ApiError>, attempts: seq<bool>) returns (r: Result<Option<nat>, StartError>)
      modifies this, wsSession
      ensures jobCancelled == old(jobCancelled)
      ensures !old(IsActive()) ==>
                && r == Failure(JobNotActive)
                && loginInfo == old(loginInfo) && wsSession == old(wsSession)
                && isStarted == old(isStarted) && pushed == old(pushed)
                && (old(wsSession) != null ==>
                      old(wsSession).job == old(wsSession.job) && old(wsSession).session == old(wsSession.session))
      ensures old(IsActive()) && login.Failure? ==>
                && r == Failure(LoginFailed(login.error))
                && loginInfo == old(loginInfo) && wsSession == old(wsSession)
                && isStarted == old(isStarted) && pushed == old(pushed)
                && (old(wsSession) != null ==>
                      old(wsSession).job == old(wsSession.job) && old(wsSession).session == old(wsSession.session))
      ensures old(IsActive()) && login.Success? ==>
                && loginInfo == Some(login.value)
                && (old(wsSession) != null ==>
                      && old(wsSession).job == (if old(wsSession.job).JobActive? then JobCancelled else old(wsSession.job))
                      && old(wsSession).session == old(wsSession.session))
      ensures old(IsActive()) && login.Success? ==>
                var run := Expected(connectMaxRetryTimes, connectRetryDelay, attempts);
                if run.outcome.Exhausted? then
                  && r == Failure(ConnectFailed(run.retryTimes))
                  && wsSession == null
                  && isStarted == old(isStarted) && pushed == old(pushed)
                else
                  && wsSession != null && fresh(wsSession) && wsSession.bot == this && wsSession.session == None
                  && wsSession.job == (if run.outcome.Connected? then JobActive else JobFailed(SessionNotCreated(run.retryTimes)))
                  && r == Success(if run.outcome.Connected? then Some(run.outcome.attempt) else None)
                  && isStarted
                  && pushed == old(pushed) + (if old(isStarted) then [] else [BotStarted(uniqueId)])
    {
      if !IsActive() {
        return Failure(JobNotActive);
      }
      var info := QueryLoginInfo(login);
      if info.Failure? {
        return Failure(LoginFailed(info.error));
      }
      var s := CreateEventSession();
      var run := s.CreateSessionWithRetry(attempts);
      if run.outcome.Exhausted? {
        return Failure(ConnectFailed(run.retryTimes));
      }
      wsSession := s;
      if !isStarted {
        isStarted := true;
        pushed := pushed + [BotStarted(uniqueId)];
      }
      r := Success(if run.outcome.Connected? then Some(run.outcome.attempt) else None);
    }
  }

  /**
   * The session job once `launch` stops: the retry loop failed it when it
   * threw or returned null; otherwise it is still active (a decode failure
   * cancels the bot's job instead).
   */
  function SessionJobAfter(end: LaunchEnd): JobState {
    match end
    case ConnectExhausted(retryTimes) => JobFailed(RetriesExhausted(retryTimes))
    case NoConnection(retryTimes) => JobFailed(SessionNotCreated(retryTimes))
    case _ => JobActive
  }

  class WsEventSession {
    const bot: OneBotBot
    /** `sessionJob`, a child of the bot's job. */
    var job: JobState
    /** The connection the session currently holds, by the index of the attempt that made it. */
    var session: Option<nat>

    constructor (bot: OneBotBot)
      ensures this.bot == bot && job == JobActive && session == None
    {
      this.bot := bot;
      job := JobActive;
      session := None;
    }

    /** `sessionJob.isActive`: a child job stops being active when its parent is cancelled. */
    predicate IsActive()
      reads this, bot
    {
      job.JobActive? && bot.IsActive()
    }

    /** `cancel`; a job that has already completed stays as it is. */
    method Cancel()
      modifies this`job
      ensures job == if old(job).JobActive? then JobCancelled else old(job)
    {
      if job.JobActive? {
        job := JobCancelled;
      }
    }

    /** `sessionJob.completeExceptionally`; it has no effect on a completed job. */
    method CompleteExceptionally(cause: SessionFailure)
      modifies this`job
      ensures job == if old(job).JobActive? then JobFailed(cause) else old(job)
    {
      if job.JobActive? {
        job := JobFailed(cause);
      }
    }

    /** `createSessionWithRetry`, with attempt `i` succeeding when `Succeeds(attempts, i)`. */
    method CreateSessionWithRetry(attempts: seq<bool>) returns (run: RetryRun)
      modifies this`job
      ensures run == Expected(bot.connectMaxRetryTimes, bot.connectRetryDelay, attempts)
      ensures job == match run.outcome
                     case Connected(_) => old(job)
                     case NoSession => if old(job).JobActive? then JobFailed(SessionNotCreated(run.retryTimes)) else old(job)
                     case Exhausted => if old(job).JobActive? then JobFailed(RetriesExhausted(run.retryTimes)) else old(job)
    {
      var maxRetryTimes := bot.connectMaxRetryTimes;
      var delay := bot.connectRetryDelay;
      var session: Option<nat> := None;
      var retryTimes: nat := 0;
      var calls: nat := 0;
      var delays: seq<nat> := [];

      while session.None? && retryTimes <= maxRetryTimes
        invariant forall i :: 0 <= i < retryTimes ==> !Succeeds(attempts, i)
        invariant session.Some? ==> session.value == retryTimes && Succeeds(attempts, retryTimes) && retryTimes <= maxRetryTimes
        invariant calls == retryTimes + (if session.Some? then 1 else 0)
        invariant delays == Repeat(delay, retryTimes)
        invariant maxRetryTimes > 0 ==> retryTimes <= maxRetryTimes
        invariant maxRetryTimes == 0 ==> retryTimes <= 1
        invariant maxRetryTimes < 0 ==> retryTimes == 0 && session.None?
        invariant job == old(job)
        decreases maxRetryTimes + 1 - retryTimes, if session.None? then 1 else 0
      {
        calls := calls + 1;
        if Succeeds(attempts, retryTimes) {
          session := Some(retryTimes);
        } else {
          retryTimes := retryTimes + 1;
          if maxRetryTimes > 0 && retryTimes > maxRetryTimes {
            CompleteExceptionally(RetriesExhausted(retryTimes));
            return RetryRun(Exhausted, retryTimes, calls, delays);
          }
          delays := delays + [delay];
        }
      }

      if session.Some? {
        FirstSuccessIsUnique(attempts, session.value);
      }
      if session.None? || retryTimes >= maxRetryTimes {
        CompleteExceptionally(SessionNotCreated(retryTimes));
        return RetryRun(NoSession, retryTimes, calls, delays);
      }
      return RetryRun(Connected(session.value), retryTimes, calls, delays);
    }

    /**
     * `receiveEvent` over the frame results one connection delivers. A decode
     * failure closes the connection exceptionally, which the result reports,
     * and cancels the bot's job.
     */
    method ReceiveEvent(frames: seq<FrameResult>) returns (end: ReceiveEnd)
      modifies bot`pushed, bot`jobCancelled
      ensures old(IsActive()) ==>
                var run := Receive(bot.codec, frames);
                && end == run.end
                && bot.pushed == old(bot.pushed) + run.pushed
                && bot.jobCancelled == end.DecodeFailed?
      ensures !old(IsActive()) ==>
                end == NotActive && bot.pushed == old(bot.pushed) && bot.jobCancelled == old(bot.jobCancelled)
    {
      if !IsActive() {
        return NotActive;
      }
      var codec := bot.codec;
      ghost var whole := ReceiveFrom(bot.pushed, codec, frames, 0);
      ReceiveFromIsReceive(bot.pushed, codec, frames, 0);
      assert frames[0..] == frames;
      var i := 0;
      while IsActive() && i < |frames|
        invariant 0 <= i <= |frames|
        invariant IsActive()
        invariant !bot.jobCancelled
        invariant whole == ReceiveFrom(bot.pushed, codec, frames, i)
      {
        var frameResult := frames[i];
        i := i + 1;

        if frameResult.Closed? {
          return RemoteClosed;
        }
        if frameResult.ReceiveFailure? {
          if frameResult.cancellation {
            return Cancelled;
          }
          continue;
        }

        var eventRaw: string;
        match frameResult {
          case TextFrame(text) => eventRaw := text;
          case BinaryFrame(bytes) => eventRaw := codec.decodeUtf8(bytes);
          case _ => continue;
        }

        var event := ResolveRawEvent(codec, eventRaw);
        if event.Failure? {
          bot.jobCancelled := true;
          return DecodeFailed(eventRaw, event.error);
        }
        var mapped := ResolveRawEventToEvent(eventRaw, event.value);
        bot.pushed := bot.pushed + [mapped];
      }
      end := FramesExhausted;
    }

    /**
     * One pass of the loop in `launch`: reconnect with retry when no
     * connection is held, then receive on the connection. A pass that does
     * not stop the loop leaves the session job active.
     */
    method LaunchPass(current: Option<nat>, round: Round) returns (stop: Option<LaunchEnd>)
      requires IsActive()
      modifies this`job, this`session, bot`pushed, bot`jobCancelled
      ensures var step := RoundStep(bot.connectMaxRetryTimes, bot.connectRetryDelay, bot.codec, current, round);
              var connection := RoundConnection(bot.connectMaxRetryTimes, bot.connectRetryDelay, current, round);
              && stop == step.stop
              && bot.pushed == old(bot.pushed) + step.pushed
              && session == (if connection.Some? then connection else old(session))
              && job == (if stop.Some? then SessionJobAfter(stop.value) else JobActive)
              && bot.jobCancelled == (stop.Some? && stop.value.ReceiveFailed?)
              && (IsActive() <==> stop.None?)
    {
      var connection: nat;
      if current.None? {
        var run := CreateSessionWithRetry(round.attempts);
        if run.outcome.Exhausted? {
          return Some(ConnectExhausted(run.retryTimes));
        }
        if !run.outcome.Connected? {
          return Some(NoConnection(run.retryTimes));
        }
        connection := run.outcome.attempt;
      } else {
        connection := current.value;
      }
      session := Some(connection);

      var received := ReceiveEvent(round.frames);
      if received.DecodeFailed? {
        return Some(ReceiveFailed(received.text, received.error));
      }
      return None;
    }

    /**
     * `launch(initialSession)`: while the session job is active, reconnect
     * with retry whenever the held connection is no longer active, then
     * receive on it. The loop also stops when the modelled rounds run out.
     */
    method Launch(initialSession: Option<nat>, rounds: seq<Round>) returns (end: LaunchEnd)
      modifies this`job, this`session, bot`pushed, bot`jobCancelled
      ensures old(IsActive()) ==>
                var run := EventFeed.Launch(bot.connectMaxRetryTimes, bot.connectRetryDelay, bot.codec, initialSession, rounds);
                var state := LaunchFrom(old(bot.pushed), old(session), bot.connectMaxRetryTimes, bot.connectRetryDelay, bot.codec,
                                        initialSession, rounds, 0);
                && end == run.end
                && bot.pushed == old(bot.pushed) + run.pushed
                && session == state.held
                && job == SessionJobAfter(end)
                && bot.jobCancelled == end.ReceiveFailed?
                && (IsActive() <==> end.RoundsExhausted?)
      ensures !old(IsActive()) ==>
                && end == JobInactive && bot.pushed == old(bot.pushed) && bot.jobCancelled == old(bot.jobCancelled)
                && job == old(job) && session == old(session)
    {
      if !IsActive() {
        return JobInactive;
      }
      ghost var maxRetryTimes, delay, codec := bot.connectMaxRetryTimes, bot.connectRetryDelay, bot.codec;
      ghost var whole := LaunchFrom(bot.pushed, session, maxRetryTimes, delay, codec, initialSession, rounds, 0);
      LaunchFromIsLaunch(bot.pushed, session, maxRetryTimes, delay, codec, initialSession, rounds, 0);
      assert rounds[0..] == rounds;
      var current := initialSession;
      var i := 0;
      while IsActive() && i < |rounds|
        invariant 0 <= i <= |rounds|
        invariant IsActive() && job == JobActive && !bot.jobCancelled
        invariant i > 0 ==> current.None?
        invariant i == 0 ==> current == initialSession
        invariant whole == LaunchFrom(bot.pushed, session, maxRetryTimes, delay, codec, current, rounds, i)
      {
        var stop := LaunchPass(current, rounds[i]);
        if stop.Some? {
          return stop.value;
        }
        // once its frames are read the connection is no longer active, so the next pass reconnects
        current := None;
        i := i + 1;
      }
      end := RoundsExhausted;
    }
  }
}
