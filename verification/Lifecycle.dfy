/**
 The server's lifecycle as an interleaving machine: the goroutine in `Run`, the goroutine in
 `Serve`, any number of callers of `Registrar.Start`, the registration goroutine, and the
 environment (signals, the network, timers). A step is one goroutine moving past one
 synchronisation point; a `select` with several ready cases gives several enabled steps.
 Closing a closed channel or sending on one makes a Go program panic: here it sets `crashed`.
 */
module Lifecycle {
  import opened Wrappers
  import opened Backoff
  import opened Registration

  /**
   hasOnReady: WithOnReady was called. external: somebody besides the callback may call Start.
   syncTimers: Stop on an expired timer with an unread value discards the value and returns true
   (Go 1.23 and later); otherwise it returns false and leaves the value in the channel.
   */
  datatype Config = Config(hasOnReady: bool, external: bool, syncTimers: bool, initial: Duration, max: Duration)

  datatype Caller = FromOnReady | Other(id: nat)

  /** Where a caller of Start is in `startOnce.Do`. */
  datatype CallerPc = AtOnce | InBody | Leaving | Back

  datatype Once = Fresh | Held(owner: Caller) | Complete

  datatype RunResult = Nil | ServingError | ShutdownError

  datatype RunPc =
    | Launching
    | ProbeSend
    | InFlight(reply: Option<int>)
    | ProbeSelect
    | Ready
    | InOnReady
    | Selecting
    | ShuttingDown
    | Returned(result: RunResult)

  datatype ServePc = NotLaunched | Serving | Sending | Closing | Exited

  datatype RegPc = Idle | Attempting | Waiting | StoppingTimer | Draining | Returning | Ended

  datatype Timer = NoTimer | Pending | Fired | Spent

  datatype LogEvent =
    | ProbeSent               // a request of the probe was begun
    | ProbeTicked             // the ticker fired between two requests
    | Answered(status: int)   // this server answered its own probe
    | GaveUp                  // the probe failed for good: the callback is skipped
    | OnReadyFired
    | Spawned                 // the registration goroutine was created
    | Reg(e: Event)
    | DoneClosed
    | ServeFailed             // Serve returned an error other than ErrServerClosed
    | ServeEnded              // Serve returned nil or ErrServerClosed
    | CtxCancelled
    | ShutdownCalled
    | ShutdownSucceeded

  datatype State = State(
    run: RunPc,
    serve: ServePc,
    buffered: bool,      // serveCh holds its one error
    closed: bool,        // serveCh is closed
    cancelled: bool,
    callers: map<Caller, CallerPc>,
    once: Once,
    reg: RegPc,
    late: bool,          // the current registration attempt was begun with the context cancelled
    backoff: Duration,
    timer: Timer,
    doneClosed: bool,
    crashed: bool,
    log: seq<LogEvent>)

  // The part of the state each group of steps writes.
  datatype RunPart = RunPart(run: RunPc, serve: ServePc, buffered: bool)
  datatype CallerPart = CallerPart(
    callers: map<Caller, CallerPc>, once: Once, reg: RegPc, late: bool, backoff: Duration)
  datatype ServePart = ServePart(serve: ServePc, buffered: bool, closed: bool, crashed: bool)
  datatype RegPart = RegPart(
    reg: RegPc, late: bool, backoff: Duration, timer: Timer, doneClosed: bool, crashed: bool)
  datatype EnvPart = EnvPart(cancelled: bool, timer: Timer, run: RunPc)

  function Init(cfg: Config): State {
    State(Launching, NotLaunched, false, false, false, map[], Fresh, Idle, false, cfg.initial, NoTimer,
          false, false, [])
  }

  datatype RunStep =
    | Launch
    | SendProbe | ProbeBuildFails | ProbeReturns | ProbeErrors
    | ProbeTick | ProbeDeadline | ProbeCancelled
    | CallOnReady | OnReadyPanics | OnReadyReturns
    | SelectCancelled | SelectServe
    | ShutdownOk | ShutdownFails

  datatype CallerStep = BeginCall | EnterOnce | SpawnBody | LeaveOnce | SkipOnce

  datatype ServeStep = ServeFails | ServeEnds | SendErr | CloseServe

  datatype RegStep = AttemptReturns(reply: Reply) | TakeTimer | TakeCancel | StopTimer | DrainTimer | CloseDone

  datatype EnvStep = CancelCtx | TimerFires | ServerAnswers(status: int)

  datatype Step =
    | OfRun(r: RunStep)
    | OfCaller(c: Caller, k: CallerStep)
    | OfServe(v: ServeStep)
    | OfReg(g: RegStep)
    | OfEnv(e: EnvStep)

  predicate At(s: State, c: Caller, pc: CallerPc) {
    c in s.callers && s.callers[c] == pc
  }

  // ---- The goroutine in `Run`, with `waitForReady` and the recovered callback inlined. ----
  // Probes and registration requests carry the context: one begun after the cancellation fails at
  // once, one in flight at the cancellation may still be answered.

  predicate RunEnabled(cfg: Config, s: State, r: RunStep) {
    match r
    case Launch => s.run.Launching?
    case SendProbe => s.run.ProbeSend?
    case ProbeBuildFails => s.run.ProbeSend?
    case ProbeReturns => s.run.InFlight? && s.run.reply.Some?
    case ProbeErrors => s.run.InFlight?
    case ProbeTick => s.run.ProbeSelect?
    case ProbeDeadline => s.run.ProbeSelect?
    case ProbeCancelled => s.run.ProbeSelect? && s.cancelled
    case CallOnReady => s.run.Ready?
    case OnReadyPanics => s.run.InOnReady? && (FromOnReady !in s.callers || s.callers[FromOnReady].Back?)
    case OnReadyReturns => s.run.InOnReady? && At(s, FromOnReady, Back)
    case SelectCancelled => s.run.Selecting? && s.cancelled
    case SelectServe => s.run.Selecting? && (s.buffered || s.closed)
    case ShutdownOk => s.run.ShuttingDown?
    case ShutdownFails => s.run.ShuttingDown?
  }

  function RunMove(cfg: Config, s: State, r: RunStep): RunPart
    requires RunEnabled(cfg, s, r)
  {
    var p := RunPart(s.run, s.serve, s.buffered);
    match r
    case Launch => p.(serve := Serving, run := if cfg.hasOnReady then ProbeSend else Selecting)
    case SendProbe => p.(run := if s.cancelled then ProbeSelect else InFlight(None))
    case ProbeBuildFails => p.(run := Selecting)
    case ProbeReturns => p.(run := if s.run.reply.value == 200 then Ready else ProbeSelect)
    case ProbeErrors => p.(run := ProbeSelect)
    case ProbeTick => p.(run := ProbeSend)
    case ProbeDeadline => p.(run := Selecting)
    case ProbeCancelled => p.(run := Selecting)
    case CallOnReady => p.(run := InOnReady)
    case OnReadyPanics => p.(run := Selecting)
    case OnReadyReturns => p.(run := Selecting)
    case SelectCancelled => p.(run := ShuttingDown)
    case SelectServe =>
      if s.buffered then p.(run := Returned(ServingError), buffered := false) else p.(run := ShuttingDown)
    case ShutdownOk => p.(run := Returned(Nil))
    case ShutdownFails => p.(run := Returned(ShutdownError))
  }

  function RunEmits(s: State, r: RunStep): seq<LogEvent> {
    match r
    case SendProbe => [ProbeSent]
    case ProbeTick => [ProbeTicked]
    case ProbeBuildFails => [GaveUp]
    case ProbeDeadline => [GaveUp]
    case ProbeCancelled => [GaveUp]
    case CallOnReady => [OnReadyFired]
    case SelectCancelled => [ShutdownCalled]
    case SelectServe => if s.buffered then [] else [ShutdownCalled]
    case ShutdownOk => [ShutdownSucceeded]
    case _ => []
  }

  // ---- A caller of `Start`. ----

  predicate CallerEnabled(cfg: Config, s: State, c: Caller, k: CallerStep) {
    match k
    case BeginCall => c !in s.callers && (if c.FromOnReady? then s.run.InOnReady? else cfg.external)
    case EnterOnce => At(s, c, AtOnce) && s.once.Fresh?
    case SpawnBody => At(s, c, InBody)
    case LeaveOnce => At(s, c, Leaving)
    case SkipOnce => At(s, c, AtOnce) && s.once.Complete?
  }

  function CallerMove(cfg: Config, s: State, c: Caller, k: CallerStep): CallerPart
    requires CallerEnabled(cfg, s, c, k)
  {
    var p := CallerPart(s.callers, s.once, s.reg, s.late, s.backoff);
    match k
    case BeginCall => p.(callers := s.callers[c := AtOnce])
    case EnterOnce => p.(callers := s.callers[c := InBody], once := Held(c))
    case SpawnBody =>
      p.(callers := s.callers[c := Leaving], reg := Attempting, late := s.cancelled, backoff := cfg.initial)
    case LeaveOnce => p.(callers := s.callers[c := Back], once := Complete)
    case SkipOnce => p.(callers := s.callers[c := Back])
  }

  function CallerEmits(s: State, k: CallerStep): seq<LogEvent> {
    match k
    case SpawnBody => [Spawned]
    case _ => []
  }

  // ---- The goroutine around `Serve`: the send and the close on serveCh. ----

  /** Serve gives ErrServerClosed only once Shutdown was called, which nobody but Run does. */
  predicate ShutdownBegun(run: RunPc) {
    run.ShuttingDown? || run == Returned(Nil) || run == Returned(ShutdownError)
  }

  predicate ServeEnabled(cfg: Config, s: State, v: ServeStep) {
    match v
    case ServeFails => s.serve.Serving?
    case ServeEnds => s.serve.Serving? && ShutdownBegun(s.run)
    case SendErr => s.serve.Sending? && (s.closed || !s.buffered)
    case CloseServe => s.serve.Closing?
  }

  function ServeMove(cfg: Config, s: State, v: ServeStep): ServePart
    requires ServeEnabled(cfg, s, v)
  {
    var p := ServePart(s.serve, s.buffered, s.closed, s.crashed);
    match v
    case ServeFails => p.(serve := Sending)
    case ServeEnds => p.(serve := Closing)
    case SendErr => if s.closed then p.(crashed := true) else p.(serve := Closing, buffered := true)
    case CloseServe => if s.closed then p.(crashed := true) else p.(serve := Exited, closed := true)
  }

  function ServeEmits(s: State, v: ServeStep): seq<LogEvent> {
    match v
    case ServeFails => [ServeFailed]
    case ServeEnds => [ServeEnded]
    case _ => []
  }

  // ---- The registration goroutine: `run` and the deferred close of `done`. ----

  predicate RegEnabled(cfg: Config, s: State, g: RegStep) {
    match g
    case AttemptReturns(reply) => s.reg.Attempting? && (s.late ==> reply.TransportError?)
    case TakeTimer => s.reg.Waiting? && s.timer.Fired?
    case TakeCancel => s.reg.Waiting? && s.cancelled
    case StopTimer => s.reg.StoppingTimer?
    case DrainTimer => s.reg.Draining? && s.timer.Fired?
    case CloseDone => s.reg.Returning?
  }

  function RegMove(cfg: Config, s: State, g: RegStep): RegPart
    requires RegEnabled(cfg, s, g)
  {
    var p := RegPart(s.reg, s.late, s.backoff, s.timer, s.doneClosed, s.crashed);
    match g
    case AttemptReturns(reply) =>
      if Classify(reply).Retry? then p.(reg := Waiting, timer := Pending) else p.(reg := Returning)
    case TakeTimer =>
      p.(reg := Attempting, late := s.cancelled, timer := Spent, backoff := Next(s.backoff, cfg.max))
    case TakeCancel => p.(reg := StoppingTimer)
    case StopTimer =>
      if s.timer.Fired? && !cfg.syncTimers then p.(reg := Draining) else p.(reg := Returning, timer := NoTimer)
    case DrainTimer => p.(reg := Returning, timer := Spent)
    case CloseDone => if s.doneClosed then p.(crashed := true) else p.(reg := Ended, doneClosed := true)
  }

  function RegEmits(s: State, g: RegStep): seq<LogEvent> {
    match g
    case AttemptReturns(reply) => [Reg(Attempted(reply))]
    case TakeTimer => [Reg(Slept(s.backoff))]
    case TakeCancel => [Reg(Interrupted(s.backoff))]
    case CloseDone => if s.doneClosed then [] else [DoneClosed]
    case _ => []
  }

  // ---- Signals, timers and the server's own answer to a probe. ----

  predicate EnvEnabled(cfg: Config, s: State, e: EnvStep) {
    match e
    case CancelCtx => !s.cancelled
    case TimerFires => s.timer.Pending?
    case ServerAnswers(_) => s.run == InFlight(None)
  }

  function EnvMove(cfg: Config, s: State, e: EnvStep): EnvPart
    requires EnvEnabled(cfg, s, e)
  {
    var p := EnvPart(s.cancelled, s.timer, s.run);
    match e
    case CancelCtx => p.(cancelled := true)
    case TimerFires => p.(timer := Fired)
    case ServerAnswers(status) => p.(run := InFlight(Some(status)))
  }

  function EnvEmits(s: State, e: EnvStep): seq<LogEvent> {
    match e
    case CancelCtx => [CtxCancelled]
    case ServerAnswers(status) => [Answered(status)]
    case _ => []
  }

  // ---- The whole machine ----

  /** Whether the goroutine owning the step can take it: a blocking operation is enabled when it would not block. */
  predicate Enabled(cfg: Config, s: State, step: Step) {
    match step
    case OfRun(r) => RunEnabled(cfg, s, r)
    case OfCaller(c, k) => CallerEnabled(cfg, s, c, k)
    case OfServe(v) => ServeEnabled(cfg, s, v)
    case OfReg(g) => RegEnabled(cfg, s, g)
    case OfEnv(e) => EnvEnabled(cfg, s, e)
  }

  /** The effect of a step on everything but the log. */
  function Move(cfg: Config, s: State, step: Step): State
    requires Enabled(cfg, s, step)
  {
    match step
    case OfRun(r) =>
      var p := RunMove(cfg, s, r);
      s.(run := p.run, serve := p.serve, buffered := p.buffered)
    case OfCaller(c, k) =>
      var p := CallerMove(cfg, s, c, k);
      s.(callers := p.callers, once := p.once, reg := p.reg, late := p.late, backoff := p.backoff)
    case OfServe(v) =>
      var p := ServeMove(cfg, s, v);
      s.(serve := p.serve, buffered := p.buffered, closed := p.closed, crashed := p.crashed)
    case OfReg(g) =>
      var p := RegMove(cfg, s, g);
      s.(reg := p.reg, late := p.late, backoff := p.backoff, timer := p.timer, doneClosed := p.doneClosed,
         crashed := p.crashed)
    case OfEnv(e) =>
      var p := EnvMove(cfg, s, e);
      s.(cancelled := p.cancelled, timer := p.timer, run := p.run)
  }

  /** What a step logs: nothing or one event. */
  function Emits(s: State, step: Step): seq<LogEvent> {
    match step
    case OfRun(r) => RunEmits(s, r)
    case OfCaller(_, k) => CallerEmits(s, k)
    case OfServe(v) => ServeEmits(s, v)
    case OfReg(g) => RegEmits(s, g)
    case OfEnv(e) => EnvEmits(s, e)
  }

  function Apply(cfg: Config, s: State, step: Step): State
    requires Enabled(cfg, s, step)
  {
    Move(cfg, s, step).(log := s.log + Emits(s, step))
  }

  /** Where the steps lead one after the other, unless one of them is not enabled. */
  function Replay(cfg: Config, s: State, steps: seq<Step>): Option<State>
    decreases steps
  {
    if steps == [] then Some(s)
    else if Enabled(cfg, s, steps[0]) then Replay(cfg, Apply(cfg, s, steps[0]), steps[1..])
    else None
  }

  predicate Runs(cfg: Config, s: State, steps: seq<Step>, s': State) {
    Replay(cfg, s, steps) == Some(s')
  }

  ghost predicate Reachable(cfg: Config, s: State) {
    exists steps :: Runs(cfg, Init(cfg), steps, s)
  }
}
