/** The inductive invariant of the lifecycle machine, one predicate per concern. */
module LifecycleInvariant {
  import opened Wrappers
  import opened Backoff
  import opened Registration
  import opened Lifecycle

  // ---- The log: which event may follow which ----

  /** Whether `e` may be logged after `pre`. */
  predicate Follows(cfg: Config, pre: seq<LogEvent>, e: LogEvent) {
    match e
    case ProbeSent => OnReadyFired !in pre && GaveUp !in pre && Count(pre, ProbeSent) == Count(pre, ProbeTicked)
    case ProbeTicked => OnReadyFired !in pre && GaveUp !in pre && Count(pre, ProbeSent) == Count(pre, ProbeTicked) + 1
    case Answered(_) => OnReadyFired !in pre && GaveUp !in pre
    case GaveUp => OnReadyFired !in pre && GaveUp !in pre
    case OnReadyFired => Answered(200) in pre && OnReadyFired !in pre && GaveUp !in pre && cfg.hasOnReady
    case Spawned => Spawned !in pre && (!cfg.external ==> OnReadyFired in pre)
    case Reg(e) =>
      && Spawned in pre && DoneClosed !in pre
      && (e.Attempted? && Late(pre) ==> e.reply.TransportError?)
    case DoneClosed => Spawned in pre && DoneClosed !in pre
    case ServeFailed => ServeFailed !in pre && ServeEnded !in pre
    case ServeEnded => ServeFailed !in pre && ServeEnded !in pre && ShutdownCalled in pre
    case CtxCancelled => CtxCancelled !in pre
    case ShutdownCalled => ShutdownCalled !in pre && CtxCancelled in pre
    case ShutdownSucceeded => ShutdownCalled in pre && ShutdownSucceeded !in pre
  }

  function Count(log: seq<LogEvent>, e: LogEvent): nat {
    if log == [] then 0 else Count(log[..|log| - 1], e) + if log[|log| - 1] == e then 1 else 0
  }

  lemma CountAppend(log: seq<LogEvent>, last: LogEvent, e: LogEvent)
    ensures Count(log + [last], e) == Count(log, e) + if last == e then 1 else 0
  {
    assert (log + [last])[..|log|] == log;
  }

  /** The log events a registration attempt begins with: the spawn, or the end of a wait. */
  predicate BeginsAttempt(e: LogEvent) {
    e.Spawned? || (e.Reg? && e.e.Slept?)
  }

  /** The latest attempt was begun after the cancellation. */
  predicate Late(log: seq<LogEvent>) {
    log != [] &&
    var init, last := log[..|log| - 1], log[|log| - 1];
    if BeginsAttempt(last) then CtxCancelled in init else Late(init)
  }

  lemma LateAppend(log: seq<LogEvent>, e: LogEvent)
    ensures Late(log + [e]) <==> if BeginsAttempt(e) then CtxCancelled in log else Late(log)
  {
    assert (log + [e])[..|log|] == log;
  }

  ghost predicate LegalLog(cfg: Config, log: seq<LogEvent>) {
    forall i :: 0 <= i < |log| ==> Follows(cfg, log[..i], log[i])
  }

  lemma LegalLogAppend(cfg: Config, log: seq<LogEvent>, e: LogEvent)
    requires LegalLog(cfg, log) && Follows(cfg, log, e)
    ensures LegalLog(cfg, log + [e])
  {
    var longer := log + [e];
    forall i | 0 <= i < |longer| ensures Follows(cfg, longer[..i], longer[i]) {
      if i < |log| {
        assert longer[..i] == log[..i];
      } else {
        assert longer[..i] == log;
      }
    }
  }

  // ---- Each goroutine's position against the log ----

  predicate RunInv(cfg: Config, s: State) {
    && (s.run.Launching? <==> s.serve.NotLaunched?)
    && (s.run.ProbeSend? || s.run.InFlight? || s.run.ProbeSelect? || s.run.Ready? || s.run.InOnReady? ==>
          cfg.hasOnReady)
    && (s.run.Launching? || s.run.ProbeSend? || s.run.InFlight? || s.run.ProbeSelect? || s.run.Ready? ==>
          OnReadyFired !in s.log && GaveUp !in s.log)
    && (GaveUp in s.log ==> OnReadyFired !in s.log)
    && (s.run.InFlight? && s.run.reply.Some? ==> Answered(s.run.reply.value) in s.log)
    && (s.run.Ready? ==> Answered(200) in s.log)
    && (s.run.InOnReady? ==> OnReadyFired in s.log && GaveUp !in s.log)
    && (ShutdownCalled in s.log <==> s.run.ShuttingDown? || s.run == Returned(Nil) || s.run == Returned(ShutdownError))
    && (ShutdownSucceeded in s.log <==> s.run == Returned(Nil))
    && (s.cancelled <==> CtxCancelled in s.log)
    // the probe is never left undecided, and the callback's Start is waited for
    && (cfg.hasOnReady && (s.run.Selecting? || s.run.ShuttingDown? || s.run.Returned?) ==>
          GaveUp in s.log || OnReadyFired in s.log)
    && (FromOnReady in s.callers && !s.callers[FromOnReady].Back? ==> s.run.InOnReady?)
  }

  predicate ServeInv(s: State) {
    && (ServeFailed in s.log ==> s.serve.Sending? || s.serve.Closing? || s.serve.Exited?)
    && (ServeEnded in s.log ==> (s.serve.Closing? || s.serve.Exited?) && ShutdownBegun(s.run))
    && (s.serve.Sending? ==> ServeFailed in s.log)
    && (s.serve.Closing? || s.serve.Exited? ==> (ServeFailed in s.log <==> ServeEnded !in s.log))
    && (s.closed <==> s.serve.Exited?)
    && (s.buffered ==> s.serve.Closing? || s.serve.Exited?)
    // a failure sits in the channel until Run takes it
    && (s.serve.Closing? || s.serve.Exited? ==>
          (ServeFailed in s.log <==> s.buffered || s.run == Returned(ServingError)))
    && (s.run == Returned(ServingError) ==>
          ServeFailed in s.log && !s.buffered && !s.serve.Sending?)
  }

  ghost predicate OnceInv(cfg: Config, s: State) {
    && (!cfg.external ==> s.callers.Keys <= {FromOnReady})
    && (FromOnReady in s.callers ==> OnReadyFired in s.log)
    && (Spawned in s.log <==> !s.reg.Idle?)
    && match s.once
       case Fresh => s.reg.Idle? && forall c :: c in s.callers ==> s.callers[c].AtOnce?
       case Held(o) =>
         && (At(s, o, InBody) || At(s, o, Leaving))
         && (At(s, o, InBody) <==> s.reg.Idle?)
         && forall c :: c in s.callers && c != o ==> s.callers[c].AtOnce?
       case Complete => !s.reg.Idle? && forall c :: c in s.callers ==> s.callers[c].AtOnce? || s.callers[c].Back?
  }

  predicate TimerInv(cfg: Config, s: State) {
    && (s.reg.Waiting? || s.reg.StoppingTimer? ==> s.timer.Pending? || s.timer.Fired?)
    && (s.reg.Draining? ==> s.timer.Fired? && !cfg.syncTimers)
    && (s.reg.Idle? || s.reg.Attempting? || s.reg.Returning? || s.reg.Ended? ==> s.timer.NoTimer? || s.timer.Spent?)
    && (s.doneClosed <==> s.reg.Ended?)
    && (DoneClosed in s.log <==> s.reg.Ended?)
    && !s.crashed
  }

  // ---- The registration goroutine's own history ----

  function RegEvents(log: seq<LogEvent>): seq<Event> {
    if log == [] then []
    else RegEvents(log[..|log| - 1]) + if log[|log| - 1].Reg? then [log[|log| - 1].e] else []
  }

  lemma RegEventsAppend(log: seq<LogEvent>, e: LogEvent)
    ensures RegEvents(log + [e]) == RegEvents(log) + if e.Reg? then [e.e] else []
  {
    assert (log + [e])[..|log|] == log;
  }

  /** The history `h` matches the position of the registration goroutine. */
  ghost predicate HistoryInv(cfg: Config, reg: RegPc, backoff: Duration, h: seq<Event>) {
    && Legal(h, cfg.initial, cfg.max)
    && match reg
       case Idle => h == []
       case Attempting =>
         |h| % 2 == 0 && (h != [] ==> h[|h| - 1].Slept?) && backoff == Wait(|h| / 2, cfg.initial, cfg.max)
       case Waiting =>
         && |h| % 2 == 1 && h[|h| - 1].Attempted? && Classify(h[|h| - 1].reply).Retry?
         && backoff == Wait(|h| / 2, cfg.initial, cfg.max)
       case _ => h != [] && (h[|h| - 1].Interrupted? || (h[|h| - 1].Attempted? && !Classify(h[|h| - 1].reply).Retry?))
  }

  lemma LegalAppend(h: seq<Event>, e: Event, initial: Duration, max: Duration)
    requires Legal(h, initial, max)
    requires if |h| % 2 == 0 then e.Attempted? && (h != [] ==> h[|h| - 1].Slept?)
             else h[|h| - 1].Attempted? && Classify(h[|h| - 1].reply).Retry?
                  && (e == Slept(Wait(|h| / 2, initial, max)) || e == Interrupted(Wait(|h| / 2, initial, max)))
    ensures Legal(h + [e], initial, max)
  {
    forall j | 0 <= j < |h| + 1 ensures LegalAt(h + [e], j, initial, max) {
      if j < |h| {
        assert LegalAt(h, j, initial, max);
      }
    }
  }

  ghost predicate Inv(cfg: Config, s: State) {
    && LegalLog(cfg, s.log)
    && RunInv(cfg, s)
    && ServeInv(s)
    && OnceInv(cfg, s)
    && TimerInv(cfg, s)
    && HistoryInv(cfg, s.reg, s.backoff, RegEvents(s.log))
    && LateInv(s)
    && PaceInv(s)
  }

  /** Between two requests of the probe there is a tick. */
  predicate PaceInv(s: State) {
    && (PhaseOf(s.run) == Before ==> Count(s.log, ProbeSent) == Count(s.log, ProbeTicked))
    && (PhaseOf(s.run) == During ==> Count(s.log, ProbeSent) == Count(s.log, ProbeTicked) + 1)
    && Count(s.log, ProbeSent) <= Count(s.log, ProbeTicked) + 1
  }

  /** The attempt's lateness is the one the log shows. */
  predicate LateInv(s: State) {
    s.late <==> Late(s.log)
  }

  // ---- Preservation, concern by concern ----

  lemma EmitsOne(s: State, step: Step)
    ensures Emits(s, step) == [] || Emits(s, step) == [Emits(s, step)[0]]
  {
  }

  lemma RunMayEmit(cfg: Config, s: State, r: RunStep)
    requires RunInv(cfg, s) && ServeInv(s) && PaceInv(s) && RunEnabled(cfg, s, r) && RunEmits(s, r) != []
    ensures Follows(cfg, s.log, RunEmits(s, r)[0])
  {
  }

  lemma WorkersMayEmit(cfg: Config, s: State, step: Step)
    requires RunInv(cfg, s) && ServeInv(s) && OnceInv(cfg, s) && TimerInv(cfg, s) && LateInv(s)
    requires Enabled(cfg, s, step) && Emits(s, step) != [] && !step.OfRun?
    ensures Follows(cfg, s.log, Emits(s, step)[0])
  {
  }

  lemma MayEmit(cfg: Config, s: State, step: Step)
    requires RunInv(cfg, s) && ServeInv(s) && OnceInv(cfg, s) && TimerInv(cfg, s) && LateInv(s) && PaceInv(s)
    requires Enabled(cfg, s, step) && Emits(s, step) != []
    ensures Follows(cfg, s.log, Emits(s, step)[0])
  {
    match step
    case OfRun(r) => RunMayEmit(cfg, s, r);
    case _ => WorkersMayEmit(cfg, s, step);
  }

  lemma KeepsLog(cfg: Config, s: State, step: Step)
    requires Inv(cfg, s) && Enabled(cfg, s, step)
    ensures LegalLog(cfg, Apply(cfg, s, step).log)
  {
    EmitsOne(s, step);
    if Emits(s, step) == [] {
      assert s.log + [] == s.log;
    } else {
      MayEmit(cfg, s, step);
      LegalLogAppend(cfg, s.log, Emits(s, step)[0]);
    }
  }

  /** The invariant without the two histories: positions only. */
  ghost predicate PositionInv(cfg: Config, s: State) {
    RunInv(cfg, s) && ServeInv(s) && OnceInv(cfg, s) && TimerInv(cfg, s)
  }

  lemma RunKeepsPositions(cfg: Config, s: State, r: RunStep)
    requires PositionInv(cfg, s) && Enabled(cfg, s, OfRun(r))
    ensures PositionInv(cfg, Apply(cfg, s, OfRun(r)))
  {
    RunKeepsRun(cfg, s, r);
    RunKeepsServe(cfg, s, r);
    RunKeepsOnce(cfg, s, r);
    RunKeepsTimer(cfg, s, r);
  }

  lemma RunKeepsRun(cfg: Config, s: State, r: RunStep)
    requires RunInv(cfg, s) && Enabled(cfg, s, OfRun(r))
    ensures RunInv(cfg, Apply(cfg, s, OfRun(r)))
  {
  }

  lemma RunKeepsServe(cfg: Config, s: State, r: RunStep)
    requires RunInv(cfg, s) && ServeInv(s) && Enabled(cfg, s, OfRun(r))
    ensures ServeInv(Apply(cfg, s, OfRun(r)))
  {
  }

  lemma RunKeepsOnce(cfg: Config, s: State, r: RunStep)
    requires RunInv(cfg, s) && OnceInv(cfg, s) && Enabled(cfg, s, OfRun(r))
    ensures OnceInv(cfg, Apply(cfg, s, OfRun(r)))
  {
  }

  lemma RunKeepsTimer(cfg: Config, s: State, r: RunStep)
    requires OnceInv(cfg, s) && TimerInv(cfg, s) && Enabled(cfg, s, OfRun(r))
    ensures TimerInv(cfg, Apply(cfg, s, OfRun(r)))
  {
  }

  lemma CallerKeepsPositions(cfg: Config, s: State, c: Caller, k: CallerStep)
    requires PositionInv(cfg, s) && Enabled(cfg, s, OfCaller(c, k))
    ensures PositionInv(cfg, Apply(cfg, s, OfCaller(c, k)))
  {
    CallerKeepsOnce(cfg, s, c, k);
    CallerKeepsOthers(cfg, s, c, k);
  }

  lemma CallerKeepsOnce(cfg: Config, s: State, c: Caller, k: CallerStep)
    requires RunInv(cfg, s) && OnceInv(cfg, s) && Enabled(cfg, s, OfCaller(c, k))
    ensures OnceInv(cfg, Apply(cfg, s, OfCaller(c, k)))
  {
  }

  lemma CallerKeepsOthers(cfg: Config, s: State, c: Caller, k: CallerStep)
    requires PositionInv(cfg, s) && Enabled(cfg, s, OfCaller(c, k))
    ensures var t := Apply(cfg, s, OfCaller(c, k)); RunInv(cfg, t) && ServeInv(t) && TimerInv(cfg, t)
  {
  }

  lemma ServeKeepsPositions(cfg: Config, s: State, v: ServeStep)
    requires PositionInv(cfg, s) && Enabled(cfg, s, OfServe(v))
    ensures PositionInv(cfg, Apply(cfg, s, OfServe(v)))
  {
    ServeKeepsServe(cfg, s, v);
    ServeKeepsOthers(cfg, s, v);
  }

  lemma ServeKeepsServe(cfg: Config, s: State, v: ServeStep)
    requires RunInv(cfg, s) && ServeInv(s) && Enabled(cfg, s, OfServe(v))
    ensures ServeInv(Apply(cfg, s, OfServe(v)))
  {
  }

  lemma ServeKeepsOthers(cfg: Config, s: State, v: ServeStep)
    requires PositionInv(cfg, s) && Enabled(cfg, s, OfServe(v))
    ensures var t := Apply(cfg, s, OfServe(v)); RunInv(cfg, t) && OnceInv(cfg, t) && TimerInv(cfg, t)
  {
  }

  /** The registration goroutine touches only its own fields and logs only its own events. */
  lemma RegFrame(cfg: Config, s: State, g: RegStep)
    requires RegEnabled(cfg, s, g)
    ensures var t := Move(cfg, s, OfReg(g));
            t == s.(reg := t.reg, late := t.late, backoff := t.backoff, timer := t.timer, doneClosed := t.doneClosed,
                    crashed := t.crashed)
    ensures RegEmits(s, g) == [] || (exists e :: RegEmits(s, g) == [e] && (e.Reg? || e.DoneClosed?))
  {
    match g
    case AttemptReturns(reply) => assert RegEmits(s, g) == [Reg(Attempted(reply))];
    case TakeTimer => assert RegEmits(s, g) == [Reg(Slept(s.backoff))];
    case TakeCancel => assert RegEmits(s, g) == [Reg(Interrupted(s.backoff))];
    case StopTimer =>
    case DrainTimer =>
    case CloseDone => assert RegEmits(s, g) == if s.doneClosed then [] else [DoneClosed];
  }

  lemma LogFrame(s: State, t: State)
    requires t.log == s.log || (exists e :: t.log == s.log + [e] && (e.Reg? || e.DoneClosed?))
    requires t == s.(reg := t.reg, late := t.late, backoff := t.backoff, timer := t.timer,
                     doneClosed := t.doneClosed, crashed := t.crashed, log := t.log)
    ensures forall cfg :: RunInv(cfg, s) ==> RunInv(cfg, t)
    ensures ServeInv(s) ==> ServeInv(t)
    ensures forall cfg :: OnceInv(cfg, s) && (s.reg.Idle? <==> t.reg.Idle?) ==> OnceInv(cfg, t)
  {
  }

  lemma RegKeepsPositions(cfg: Config, s: State, g: RegStep)
    requires PositionInv(cfg, s) && Enabled(cfg, s, OfReg(g))
    ensures PositionInv(cfg, Apply(cfg, s, OfReg(g)))
  {
    RegFrame(cfg, s, g);
    assert s.log + [] == s.log;
    LogFrame(s, Apply(cfg, s, OfReg(g)));
    RegKeepsTimer(cfg, s, g);
  }

  lemma RegKeepsTimer(cfg: Config, s: State, g: RegStep)
    requires OnceInv(cfg, s) && TimerInv(cfg, s) && Enabled(cfg, s, OfReg(g))
    ensures TimerInv(cfg, Apply(cfg, s, OfReg(g)))
  {
  }

  lemma EnvKeepsPositions(cfg: Config, s: State, e: EnvStep)
    requires PositionInv(cfg, s) && Enabled(cfg, s, OfEnv(e))
    ensures PositionInv(cfg, Apply(cfg, s, OfEnv(e)))
  {
    EnvKeepsRun(cfg, s, e);
    EnvKeepsOthers(cfg, s, e);
  }

  lemma EnvKeepsRun(cfg: Config, s: State, e: EnvStep)
    requires RunInv(cfg, s) && Enabled(cfg, s, OfEnv(e))
    ensures RunInv(cfg, Apply(cfg, s, OfEnv(e)))
  {
  }

  lemma EnvKeepsOthers(cfg: Config, s: State, e: EnvStep)
    requires PositionInv(cfg, s) && Enabled(cfg, s, OfEnv(e))
    ensures var t := Apply(cfg, s, OfEnv(e)); ServeInv(t) && OnceInv(cfg, t) && TimerInv(cfg, t)
  {
  }

  lemma KeepsPositions(cfg: Config, s: State, step: Step)
    requires PositionInv(cfg, s) && Enabled(cfg, s, step)
    ensures PositionInv(cfg, Apply(cfg, s, step))
  {
    match step
    case OfRun(r) => RunKeepsPositions(cfg, s, r);
    case OfCaller(c, k) => CallerKeepsPositions(cfg, s, c, k);
    case OfServe(v) => ServeKeepsPositions(cfg, s, v);
    case OfReg(g) => RegKeepsPositions(cfg, s, g);
    case OfEnv(e) => EnvKeepsPositions(cfg, s, e);
  }

  /** The registration goroutine's steps extend its history legally. */
  lemma RegKeepsHistory(cfg: Config, s: State, g: RegStep, h: seq<Event>)
    requires HistoryInv(cfg, s.reg, s.backoff, h) && TimerInv(cfg, s) && RegEnabled(cfg, s, g)
    ensures var t := RegMove(cfg, s, g);
            HistoryInv(cfg, t.reg, t.backoff,
                       match g
                       case AttemptReturns(reply) => h + [Attempted(reply)]
                       case TakeTimer => h + [Slept(s.backoff)]
                       case TakeCancel => h + [Interrupted(s.backoff)]
                       case _ => h)
  {
    match g
    case AttemptReturns(reply) => LegalAppend(h, Attempted(reply), cfg.initial, cfg.max);
    case TakeTimer => LegalAppend(h, Slept(s.backoff), cfg.initial, cfg.max);
    case TakeCancel => LegalAppend(h, Interrupted(s.backoff), cfg.initial, cfg.max);
    case StopTimer =>
    case DrainTimer =>
    case CloseDone =>
  }

  /** Nobody else touches the loop's variables, except that spawning the goroutine initialises them. */
  lemma OthersLeaveLoop(cfg: Config, s: State, step: Step)
    requires Enabled(cfg, s, step) && !step.OfReg?
    ensures var t := Move(cfg, s, step);
            if step.OfCaller? && step.k.SpawnBody? then t.reg == Attempting && t.backoff == cfg.initial
            else t.reg == s.reg && t.backoff == s.backoff
  {
    match step
    case OfRun(_) =>
    case OfCaller(_, _) =>
    case OfServe(_) =>
    case OfEnv(_) =>
  }

  lemma OthersKeepHistory(cfg: Config, s: State, step: Step, h: seq<Event>)
    requires HistoryInv(cfg, s.reg, s.backoff, h) && OnceInv(cfg, s) && Enabled(cfg, s, step) && !step.OfReg?
    ensures var t := Move(cfg, s, step); HistoryInv(cfg, t.reg, t.backoff, h)
  {
    OthersLeaveLoop(cfg, s, step);
    if step.OfCaller? && step.k.SpawnBody? {
      assert s.reg.Idle?;
    }
  }

  lemma EmittedHistory(s: State, step: Step)
    ensures RegEvents(s.log + Emits(s, step)) ==
            RegEvents(s.log) +
            match step
            case OfReg(AttemptReturns(reply)) => [Attempted(reply)]
            case OfReg(TakeTimer) => [Slept(s.backoff)]
            case OfReg(TakeCancel) => [Interrupted(s.backoff)]
            case _ => []
  {
    EmitsOne(s, step);
    if Emits(s, step) == [] {
      assert s.log + [] == s.log;
    } else {
      RegEventsAppend(s.log, Emits(s, step)[0]);
    }
  }

  lemma KeepsHistory(cfg: Config, s: State, step: Step)
    requires Inv(cfg, s) && Enabled(cfg, s, step)
    ensures var t := Apply(cfg, s, step); HistoryInv(cfg, t.reg, t.backoff, RegEvents(t.log))
  {
    var h := RegEvents(s.log);
    EmittedHistory(s, step);
    assert h + [] == h;
    match step
    case OfReg(g) => RegKeepsHistory(cfg, s, g, h);
    case OfRun(_) => OthersKeepHistory(cfg, s, step, h);
    case OfCaller(_, _) => OthersKeepHistory(cfg, s, step, h);
    case OfServe(_) => OthersKeepHistory(cfg, s, step, h);
    case OfEnv(_) => OthersKeepHistory(cfg, s, step, h);
  }

  /** Only the steps that begin an attempt change its lateness. */
  lemma LateMoves(cfg: Config, s: State, step: Step)
    requires Enabled(cfg, s, step)
    ensures var begins := (step.OfCaller? && step.k.SpawnBody?) || (step.OfReg? && step.g.TakeTimer?);
            && Move(cfg, s, step).late == (if begins then s.cancelled else s.late)
            && (begins <==> Emits(s, step) != [] && BeginsAttempt(Emits(s, step)[0]))
  {
  }

  lemma KeepsLate(cfg: Config, s: State, step: Step)
    requires RunInv(cfg, s) && LateInv(s) && Enabled(cfg, s, step)
    ensures LateInv(Apply(cfg, s, step))
  {
    LateMoves(cfg, s, step);
    EmitsOne(s, step);
    if Emits(s, step) == [] {
      assert s.log + [] == s.log;
    } else {
      LateAppend(s.log, Emits(s, step)[0]);
    }
  }

  lemma EmittedCounts(s: State, step: Step)
    ensures var log := s.log + Emits(s, step);
            && Count(log, ProbeSent) == Count(s.log, ProbeSent) + (if step == OfRun(SendProbe) then 1 else 0)
            && Count(log, ProbeTicked) == Count(s.log, ProbeTicked) + (if step == OfRun(ProbeTick) then 1 else 0)
  {
    EmitsOne(s, step);
    if Emits(s, step) == [] {
      assert s.log + [] == s.log;
    } else {
      CountAppend(s.log, Emits(s, step)[0], ProbeSent);
      CountAppend(s.log, Emits(s, step)[0], ProbeTicked);
    }
  }

  /** How far the probe has got: before its next request, after it, or past the probe. */
  datatype Phase = Before | During | Past

  function PhaseOf(run: RunPc): Phase {
    if run.Launching? || run.ProbeSend? then Before
    else if run.InFlight? || run.ProbeSelect? || run.Ready? then During
    else Past
  }

  lemma RunPhase(cfg: Config, s: State, r: RunStep)
    requires RunEnabled(cfg, s, r)
    ensures var p := PhaseOf(RunMove(cfg, s, r).run);
            if r.SendProbe? then PhaseOf(s.run) == Before && p == During
            else if r.ProbeTick? then PhaseOf(s.run) == During && p == Before
            else p == Past || p == PhaseOf(s.run)
  {
  }

  lemma PhaseMoves(cfg: Config, s: State, step: Step)
    requires Enabled(cfg, s, step)
    ensures var p := PhaseOf(Move(cfg, s, step).run);
            if step == OfRun(SendProbe) then PhaseOf(s.run) == Before && p == During
            else if step == OfRun(ProbeTick) then PhaseOf(s.run) == During && p == Before
            else p == Past || p == PhaseOf(s.run)
  {
    match step
    case OfRun(r) => RunPhase(cfg, s, r);
    case _ => assert PhaseOf(Move(cfg, s, step).run) == PhaseOf(s.run);
  }

  lemma KeepsPace(cfg: Config, s: State, step: Step)
    requires PaceInv(s) && Enabled(cfg, s, step)
    ensures PaceInv(Apply(cfg, s, step))
  {
    EmittedCounts(s, step);
    PhaseMoves(cfg, s, step);
    var t := Apply(cfg, s, step);
    assert t.log == s.log + Emits(s, step) && t.run == Move(cfg, s, step).run;
  }

  lemma KeepsInv(cfg: Config, s: State, step: Step)
    requires Inv(cfg, s) && Enabled(cfg, s, step)
    ensures Inv(cfg, Apply(cfg, s, step))
  {
    KeepsLog(cfg, s, step);
    KeepsPositions(cfg, s, step);
    KeepsHistory(cfg, s, step);
    KeepsLate(cfg, s, step);
    KeepsPace(cfg, s, step);
  }

  lemma {:induction false} RunsKeepInv(cfg: Config, s: State, steps: seq<Step>, s': State)
    requires Inv(cfg, s) && Runs(cfg, s, steps, s')
    ensures Inv(cfg, s')
    decreases steps
  {
    if steps != [] {
      KeepsInv(cfg, s, steps[0]);
      RunsKeepInv(cfg, Apply(cfg, s, steps[0]), steps[1..], s');
    }
  }

  /** Every reachable state of every configuration satisfies the invariant. */
  lemma ReachableInv(cfg: Config, s: State)
    requires Reachable(cfg, s)
    ensures Inv(cfg, s)
  {
    var steps :| Runs(cfg, Init(cfg), steps, s);
    RunsKeepInv(cfg, Init(cfg), steps, s);
  }

  // Parts of the invariant by themselves.

  lemma ReachablePositions(cfg: Config, s: State)
    requires Reachable(cfg, s)
    ensures PositionInv(cfg, s)
  {
    ReachableInv(cfg, s);
  }

  lemma ReachableLog(cfg: Config, s: State)
    requires Reachable(cfg, s)
    ensures LegalLog(cfg, s.log)
  {
    ReachableInv(cfg, s);
  }
}
