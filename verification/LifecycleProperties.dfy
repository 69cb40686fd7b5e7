/** What the lifecycle machine guarantees in every reachable state, over all interleavings. */
module LifecycleProperties {
  import opened Wrappers
  import opened Backoff
  import opened Registration
  import opened Lifecycle
  import opened LifecycleInvariant

  lemma IndexOf(log: seq<LogEvent>, e: LogEvent) returns (i: nat)
    requires e in log
    ensures i < |log| && log[i] == e
  {
    i :| 0 <= i < |log| && log[i] == e;
  }

  // ---- Readiness before registration ----

  /**
   As wired in main (nobody but the callback calls Start): anything the registrar ever does comes
   after the goroutine was spawned, after onReady fired, after this server answered its own probe
   with 200, in that order.
   */
  lemma AttemptNeedsReadiness(cfg: Config, s: State, i: nat) returns (answered: nat, fired: nat, spawned: nat)
    requires Reachable(cfg, s) && !cfg.external
    requires i < |s.log| && s.log[i].Reg?
    ensures answered < fired < spawned < i
    ensures s.log[answered] == Answered(200) && s.log[fired] == OnReadyFired && s.log[spawned] == Spawned
  {
    ReachableLog(cfg, s);
    assert Follows(cfg, s.log[..i], s.log[i]);
    spawned := IndexOf(s.log[..i], Spawned);
    assert Follows(cfg, s.log[..spawned], s.log[spawned]);
    fired := IndexOf(s.log[..spawned], OnReadyFired);
    assert Follows(cfg, s.log[..fired], s.log[fired]);
    answered := IndexOf(s.log[..fired], Answered(200));
  }

  /**
   A request may be in flight before anything of it is logged; the goroutine's existence already
   implies readiness.
   */
  lemma GoroutineNeedsReadiness(cfg: Config, s: State)
    requires Reachable(cfg, s) && !cfg.external && !s.reg.Idle?
    ensures cfg.hasOnReady && OnReadyFired in s.log && Answered(200) in s.log && GaveUp !in s.log
  {
    ReachableInv(cfg, s);
    var spawned := IndexOf(s.log, Spawned);
    assert Follows(cfg, s.log[..spawned], s.log[spawned]);
    var fired := IndexOf(s.log[..spawned], OnReadyFired);
    assert Follows(cfg, s.log[..fired], s.log[fired]);
  }

  /** A probe that timed out, was cancelled or could not be built means no registration attempt, ever. */
  lemma FailedProbeNeverRegisters(cfg: Config, s: State)
    requires Reachable(cfg, s) && !cfg.external && GaveUp in s.log
    ensures s.reg.Idle? && forall i :: 0 <= i < |s.log| ==> !s.log[i].Reg?
  {
    if !s.reg.Idle? {
      GoroutineNeedsReadiness(cfg, s);
    }
    forall i | 0 <= i < |s.log| ensures !s.log[i].Reg? {
      ReachableInv(cfg, s);
      assert Follows(cfg, s.log[..i], s.log[i]);
    }
  }

  // ---- A cancellation before readiness ----

  /** Whether a request of the probe that was begun before the cancellation can still make the server ready. */
  predicate ProbeMaySucceed(run: RunPc) {
    run.Ready? || (run.InFlight? && (run.reply.None? || run.reply.value == 200))
  }

  /** Cancelled before the callback, and no probe left that could succeed. */
  predicate NeverReady(s: State) {
    s.cancelled && OnReadyFired !in s.log && !ProbeMaySucceed(s.run)
  }

  lemma StaysNeverReady(cfg: Config, s: State, step: Step)
    requires RunInv(cfg, s) && NeverReady(s) && Enabled(cfg, s, step)
    ensures NeverReady(Apply(cfg, s, step))
  {
  }

  lemma {:induction false} RunsNeverReady(cfg: Config, s: State, steps: seq<Step>, s': State)
    requires PositionInv(cfg, s) && NeverReady(s) && Runs(cfg, s, steps, s')
    ensures NeverReady(s')
    decreases steps
  {
    if steps != [] {
      StaysNeverReady(cfg, s, steps[0]);
      KeepsPositions(cfg, s, steps[0]);
      RunsNeverReady(cfg, Apply(cfg, s, steps[0]), steps[1..], s');
    }
  }

  lemma ReachableFrom(cfg: Config, s: State, steps: seq<Step>, s': State)
    requires Reachable(cfg, s) && Runs(cfg, s, steps, s')
    ensures Reachable(cfg, s')
  {
    var before :| Runs(cfg, Init(cfg), before, s);
    RunsConcat(cfg, Init(cfg), before, s, steps, s');
  }

  /**
   As wired in main, a context cancelled before readiness means no callback and no registration
   attempt, ever: whatever happens from here on, provided no request of the probe begun earlier can
   still succeed.
   */
  lemma CancelledNeverRegisters(cfg: Config, s: State, steps: seq<Step>, s': State)
    requires Reachable(cfg, s) && !cfg.external && Runs(cfg, s, steps, s')
    requires s.cancelled && OnReadyFired !in s.log && !ProbeMaySucceed(s.run)
    ensures OnReadyFired !in s'.log && s'.reg.Idle? && forall i :: 0 <= i < |s'.log| ==> !s'.log[i].Reg?
  {
    ReachableInv(cfg, s);
    RunsNeverReady(cfg, s, steps, s');
    ReachableFrom(cfg, s, steps, s');
    if !s'.reg.Idle? {
      GoroutineNeedsReadiness(cfg, s');
    }
    forall i | 0 <= i < |s'.log| ensures !s'.log[i].Reg? {
      ReachableInv(cfg, s');
      assert Follows(cfg, s'.log[..i], s'.log[i]);
    }
  }

  /** The positions in which the probe has not been sent, or is between two requests, are such positions. */
  lemma CancelledBeforeProbe(cfg: Config, s: State, steps: seq<Step>, s': State)
    requires Reachable(cfg, s) && !cfg.external && Runs(cfg, s, steps, s')
    requires s.cancelled && (s.run.Launching? || s.run.ProbeSend? || s.run.ProbeSelect?)
    ensures OnReadyFired !in s'.log && s'.reg.Idle? && forall i :: 0 <= i < |s'.log| ==> !s'.log[i].Reg?
  {
    ReachableInv(cfg, s);
    CancelledNeverRegisters(cfg, s, steps, s');
  }

  ghost predicate CallbackPossible(cfg: Config, s: State) {
    exists steps, s' :: Runs(cfg, s, steps, s') && OnReadyFired in s'.log
  }

  lemma ReadyFires(cfg: Config, s: State) returns (s': State)
    requires s.run.Ready?
    ensures Runs(cfg, s, [OfRun(CallOnReady)], s') && OnReadyFired in s'.log
  {
    s' := Apply(cfg, s, OfRun(CallOnReady));
    assert s'.log == s.log + [OnReadyFired];
    assert [OfRun(CallOnReady)][1..] == [];
  }

  lemma AnsweredFires(cfg: Config, s: State) returns (steps: seq<Step>, s': State)
    requires s.run == InFlight(Some(200))
    ensures Runs(cfg, s, steps, s') && OnReadyFired in s'.log
  {
    var t := Apply(cfg, s, OfRun(ProbeReturns));
    s' := ReadyFires(cfg, t);
    RunsCons(cfg, s, OfRun(ProbeReturns), [OfRun(CallOnReady)], s');
    steps := [OfRun(ProbeReturns)] + [OfRun(CallOnReady)];
  }

  /** A run in which the request in flight, or already answered, makes the server ready after all. */
  lemma ProbeSucceeds(cfg: Config, s: State) returns (steps: seq<Step>, s': State)
    requires ProbeMaySucceed(s.run)
    ensures Runs(cfg, s, steps, s') && OnReadyFired in s'.log
  {
    if s.run.Ready? {
      s' := ReadyFires(cfg, s);
      steps := [OfRun(CallOnReady)];
    } else if s.run.reply.Some? {
      steps, s' := AnsweredFires(cfg, s);
    } else {
      var step := OfEnv(ServerAnswers(200));
      var rest;
      rest, s' := AnsweredFires(cfg, Apply(cfg, s, step));
      RunsCons(cfg, s, step, rest, s');
      steps := [step] + rest;
    }
  }

  /** Exactly when a server cancelled before its callback can still call it. */
  lemma CallbackAfterCancellationIff(cfg: Config, s: State)
    requires Reachable(cfg, s) && s.cancelled && OnReadyFired !in s.log
    ensures CallbackPossible(cfg, s) <==> ProbeMaySucceed(s.run)
  {
    if ProbeMaySucceed(s.run) {
      var steps, s' := ProbeSucceeds(cfg, s);
    }
    if CallbackPossible(cfg, s) {
      var steps, s' :| Runs(cfg, s, steps, s') && OnReadyFired in s'.log;
      ReachableInv(cfg, s);
      if !ProbeMaySucceed(s.run) {
        RunsNeverReady(cfg, s, steps, s');
      }
    }
  }

  lemma Precedes(cfg: Config, log: seq<LogEvent>, i: nat, j: nat)
    requires LegalLog(cfg, log) && i < j < |log|
    ensures log[i] in log[..j] && Follows(cfg, log[..j], log[j])
  {
    assert log[..j][i] == log[i];
  }

  /** The events that may happen again. */
  predicate Repeats(e: LogEvent) {
    e.Reg? || e.Answered? || e.ProbeSent? || e.ProbeTicked?
  }

  /** The events that happen at most once: the callback, the spawn, closing `done`, Shutdown, the end of Serve, … */
  lemma AtMostOnce(cfg: Config, s: State, i: nat, j: nat)
    requires Reachable(cfg, s)
    requires i < |s.log| && j < |s.log| && s.log[i] == s.log[j] && !Repeats(s.log[i])
    ensures i == j
  {
    ReachableLog(cfg, s);
    if i < j {
      Precedes(cfg, s.log, i, j);
    } else if j < i {
      Precedes(cfg, s.log, j, i);
    }
  }

  // ---- The registration goroutine refines the loop ----

  lemma HistoryRefines(cfg: Config, reg: RegPc, backoff: Duration, h: seq<Event>) returns (env: seq<Round>)
    requires HistoryInv(cfg, reg, backoff, h)
    ensures h <= History(env, cfg.initial, cfg.max).log
  {
    if reg.Idle? {
      env := [];
    } else if reg.Attempting? {
      env := LegalIsHistory(h, StillRunning, cfg.initial, cfg.max);
    } else if reg.Waiting? {
      LegalAppend(h, Slept(backoff), cfg.initial, cfg.max);
      env := LegalIsHistory(h + [Slept(backoff)], StillRunning, cfg.initial, cfg.max);
    } else {
      var last := h[|h| - 1];
      var ending := if last.Interrupted? then Cancelled
                    else if Classify(last.reply).Registered? then Success else NonRetryable;
      env := LegalIsHistory(h, ending, cfg.initial, cfg.max);
    }
  }

  /**
   What the goroutine has done so far, under any interleaving, is a prefix of what `Registrar.Run`
   does for some replies.
   */
  lemma RegistrarRefinesLoop(cfg: Config, s: State) returns (env: seq<Round>)
    requires Reachable(cfg, s)
    ensures RegEvents(s.log) <= History(env, cfg.initial, cfg.max).log
  {
    ReachableInv(cfg, s);
    env := HistoryRefines(cfg, s.reg, s.backoff, RegEvents(s.log));
  }

  /** The retry rate holds in the interleaved system too. */
  lemma RetryRateUnderInterleaving(cfg: Config, s: State)
    requires Reachable(cfg, s) && Safe(cfg.initial, cfg.max)
    ensures var h := RegEvents(s.log);
            Attempts(h) <= 1 + Saturation(cfg.initial, cfg.max) + SleptTime(h) / cfg.max
  {
    ReachableInv(cfg, s);
    LegalRate(RegEvents(s.log), cfg.initial, cfg.max);
  }

  lemma NothingAfterDone(cfg: Config, log: seq<LogEvent>, i: nat, j: nat)
    requires LegalLog(cfg, log) && i < j < |log| && log[i].DoneClosed?
    ensures !log[j].Reg?
  {
    Precedes(cfg, log, i, j);
    assert log[i] == DoneClosed;
  }

  /**
   `done` is closed only once the run is over: its last event is a success, a 4xx or a cancelled
   wait, and none follows.
   */
  lemma DoneMeansFinished(cfg: Config, s: State)
    requires Reachable(cfg, s) && s.doneClosed
    ensures var h := RegEvents(s.log);
            h != [] && (h[|h| - 1].Interrupted? || (h[|h| - 1].Attempted? && !Classify(h[|h| - 1].reply).Retry?))
    ensures forall i, j :: 0 <= i < j < |s.log| && s.log[i].DoneClosed? ==> !s.log[j].Reg?
  {
    ReachableInv(cfg, s);
    forall i, j | 0 <= i < j < |s.log| && s.log[i].DoneClosed? ensures !s.log[j].Reg? {
      NothingAfterDone(cfg, s.log, i, j);
    }
    assert s.reg.Ended?;
  }

  // ---- Nothing blocks, nothing panics ----

  /**
   No channel is closed twice or sent to after its close, and no goroutine waits on an operation that
   cannot complete.
   */
  lemma NoGoroutineStuck(cfg: Config, s: State)
    requires Reachable(cfg, s)
    ensures !s.crashed
    ensures s.serve.Sending? ==> Enabled(cfg, s, OfServe(SendErr)) && !s.closed
    ensures s.serve.Closing? ==> !s.closed
    ensures s.reg.Waiting? ==> Enabled(cfg, s, OfEnv(TimerFires)) || Enabled(cfg, s, OfReg(TakeTimer))
    ensures s.reg.Draining? ==> Enabled(cfg, s, OfReg(DrainTimer)) && !cfg.syncTimers
    ensures s.reg.Returning? ==> !s.doneClosed
  {
    ReachablePositions(cfg, s);
  }

  /** One more step at the end of a run. */
  lemma Take(cfg: Config, s: State, steps: seq<Step>, t: State, step: Step) returns (steps': seq<Step>, t': State)
    requires Runs(cfg, s, steps, t) && Enabled(cfg, t, step)
    ensures steps' == steps + [step] && t' == Apply(cfg, t, step)
    ensures Runs(cfg, s, steps', t')
  {
    steps', t' := steps + [step], Apply(cfg, t, step);
    assert Runs(cfg, t', [step][1..], t');
    RunsConcat(cfg, s, steps, t, [step], t');
  }

  lemma RunsCons(cfg: Config, s: State, step: Step, rest: seq<Step>, u: State)
    requires Enabled(cfg, s, step) && Runs(cfg, Apply(cfg, s, step), rest, u)
    ensures Runs(cfg, s, [step] + rest, u)
  {
    assert ([step] + rest)[1..] == rest;
  }

  lemma {:induction false} RunsConcat(cfg: Config, s: State, a: seq<Step>, t: State, b: seq<Step>, u: State)
    requires Runs(cfg, s, a, t) && Runs(cfg, t, b, u)
    ensures Runs(cfg, s, a + b, u)
    decreases a
  {
    if a == [] {
      assert a + b == b;
    } else {
      assert (a + b)[0] == a[0] && (a + b)[1..] == a[1..] + b;
      RunsConcat(cfg, Apply(cfg, s, a[0]), a[1..], t, b, u);
    }
  }

  /** Steps until the Once is complete, for the caller that owns it or is the first to enter. */
  function OnceLeft(s: State, c: Caller): nat {
    if s.once.Complete? then 0 else if s.once.Fresh? then 3 else if At(s, c, InBody) then 2 else 1
  }

  /** The caller that may complete the Once. */
  predicate MayRelease(s: State, c: Caller) {
    c in s.callers && !s.once.Complete? && (s.once.Held? ==> s.once.owner == c)
  }

  /** Where it goes next. */
  function NextInOnce(s: State, c: Caller): CallerStep {
    if s.once.Fresh? then EnterOnce else if At(s, c, InBody) then SpawnBody else LeaveOnce
  }

  /** What such a step does to the callers and the Once. */
  lemma OnceMove(cfg: Config, s: State, c: Caller)
    requires OnceInv(cfg, s) && MayRelease(s, c)
    ensures CallerEnabled(cfg, s, c, NextInOnce(s, c))
    ensures var p := CallerMove(cfg, s, c, NextInOnce(s, c));
            if s.once.Fresh? then p.callers == s.callers[c := InBody] && p.once == Held(c)
            else if At(s, c, InBody) then p.callers == s.callers[c := Leaving] && p.once == Held(c)
            else p.callers == s.callers[c := Back] && p.once == Complete
  {
  }

  lemma OnceStep(cfg: Config, s: State, c: Caller)
    requires OnceInv(cfg, s) && MayRelease(s, c)
    ensures var step := OfCaller(c, NextInOnce(s, c));
            && Enabled(cfg, s, step)
            && var t := Apply(cfg, s, step);
               && t.callers.Keys == s.callers.Keys
               && (forall d :: d != c && d in s.callers ==> t.callers[d] == s.callers[d])
               && OnceLeft(t, c) == OnceLeft(s, c) - 1
               && (if t.once.Complete? then At(t, c, Back) else MayRelease(t, c))
  {
    OnceMove(cfg, s, c);
    var t := Apply(cfg, s, OfCaller(c, NextInOnce(s, c)));
    var p := CallerMove(cfg, s, c, NextInOnce(s, c));
    assert t.callers == p.callers && t.once == p.once;
  }

  /** The owner of the Once, or a caller at a fresh one, completes it on its own. */
  lemma {:induction false} ReleaseOnce(cfg: Config, s: State, c: Caller) returns (steps: seq<Step>, s': State)
    requires PositionInv(cfg, s) && MayRelease(s, c)
    ensures Runs(cfg, s, steps, s') && At(s', c, Back) && s'.once.Complete?
    ensures forall d :: d != c && d in s.callers ==> d in s'.callers && s'.callers[d] == s.callers[d]
    ensures |steps| == OnceLeft(s, c)
    ensures forall i :: 0 <= i < |steps| ==> steps[i].OfCaller?
    decreases OnceLeft(s, c)
  {
    var step := OfCaller(c, NextInOnce(s, c));
    OnceStep(cfg, s, c);
    var t := Apply(cfg, s, step);
    CallerKeepsPositions(cfg, s, c, step.k);
    var rest: seq<Step> := [];
    s' := t;
    if !t.once.Complete? {
      rest, s' := ReleaseOnce(cfg, t, c);
    }
    RunsCons(cfg, s, step, rest, s');
    steps := [step] + rest;
  }

  /** What the steps above leave to a caller that had to wait: skipping the completed Once. */
  lemma SkipsOnce(cfg: Config, s: State, c: Caller) returns (s': State)
    requires At(s, c, AtOnce) && s.once.Complete?
    ensures Runs(cfg, s, [OfCaller(c, SkipOnce)], s') && At(s', c, Back)
  {
    s' := Apply(cfg, s, OfCaller(c, SkipOnce));
    assert [OfCaller(c, SkipOnce)][1..] == [];
  }

  lemma StartReturnsFrom(cfg: Config, s: State, c: Caller) returns (steps: seq<Step>, s': State)
    requires PositionInv(cfg, s) && c in s.callers
    ensures Runs(cfg, s, steps, s') && At(s', c, Back)
    ensures |steps| <= 3 && forall i :: 0 <= i < |steps| ==> steps[i].OfCaller?
  {
    if s.once.Complete? {
      if At(s, c, Back) {
        steps, s' := [], s;
      } else {
        steps := [OfCaller(c, SkipOnce)];
        s' := SkipsOnce(cfg, s, c);
      }
    } else {
      var owner := if s.once.Held? then s.once.owner else c;
      steps, s' := ReleaseOnce(cfg, s, owner);
      if owner != c {
        var mid, skip := s', [OfCaller(c, SkipOnce)];
        s' := SkipsOnce(cfg, mid, c);
        RunsConcat(cfg, s, steps, mid, skip, s');
        steps := steps + skip;
      }
    }
  }

  /** Every caller of Start gets out of the Once within three steps of callers alone, whatever else is going on. */
  lemma StartReturns(cfg: Config, s: State, c: Caller) returns (steps: seq<Step>, s': State)
    requires Reachable(cfg, s) && c in s.callers
    ensures Runs(cfg, s, steps, s') && At(s', c, Back)
    ensures |steps| <= 3 && forall i :: 0 <= i < |steps| ==> steps[i].OfCaller?
  {
    ReachablePositions(cfg, s);
    steps, s' := StartReturnsFrom(cfg, s, c);
  }

  // ---- What Run returns ----

  /** Run's result tells what happened. */
  lemma RunResultMeans(cfg: Config, s: State)
    requires Reachable(cfg, s) && s.run.Returned?
    ensures s.run.result == Nil <==> ShutdownSucceeded in s.log
    ensures s.run.result == ServingError <==> ShutdownCalled !in s.log
    ensures s.run.result == ServingError ==> ServeFailed in s.log
    ensures s.run.result != ServingError ==> CtxCancelled in s.log
  {
    ReachableInv(cfg, s);
    if ShutdownCalled in s.log {
      var i := IndexOf(s.log, ShutdownCalled);
      assert Follows(cfg, s.log[..i], s.log[i]);
    }
  }

  /** A failure of Serve, at whatever moment, reaches Run's caller unless the context was cancelled as well. */
  lemma ServeFailureNotLost(cfg: Config, s: State)
    requires Reachable(cfg, s) && s.run.Returned? && ServeFailed in s.log && CtxCancelled !in s.log
    ensures s.run.result == ServingError
  {
    ReachableInv(cfg, s);
    RunResultMeans(cfg, s);
  }

  // ---- The probe loop ----

  /** What a failed request of the probe and the tick after it log; a request may fail without an answer. */
  function FailedProbe(reply: Option<int>): seq<LogEvent> {
    [ProbeSent] + (if reply.Some? then [Answered(reply.value)] else []) + [ProbeTicked]
  }

  function FailedProbes(replies: seq<Option<int>>): seq<LogEvent> {
    if replies == [] then [] else FailedProbes(replies[..|replies| - 1]) + FailedProbe(replies[|replies| - 1])
  }

  lemma SendsProbe(cfg: Config, steps: seq<Step>, s: State) returns (steps': seq<Step>, s': State)
    requires Runs(cfg, Init(cfg), steps, s) && s.run.ProbeSend? && !s.cancelled
    ensures Runs(cfg, Init(cfg), steps', s')
    ensures s' == s.(run := InFlight(None), log := s.log + [ProbeSent])
  {
    steps', s' := Take(cfg, Init(cfg), steps, s, OfRun(SendProbe));
  }

  lemma GetsAnswer(cfg: Config, steps: seq<Step>, s: State, code: int) returns (steps': seq<Step>, s': State)
    requires Runs(cfg, Init(cfg), steps, s) && s.run == InFlight(None)
    ensures Runs(cfg, Init(cfg), steps', s')
    ensures s' == s.(run := if code == 200 then Ready else ProbeSelect, log := s.log + [Answered(code)])
  {
    steps', s' := Take(cfg, Init(cfg), steps, s, OfEnv(ServerAnswers(code)));
    steps', s' := Take(cfg, Init(cfg), steps', s', OfRun(ProbeReturns));
    assert s'.log == s.log + [Answered(code)];
  }

  lemma GetsError(cfg: Config, steps: seq<Step>, s: State) returns (steps': seq<Step>, s': State)
    requires Runs(cfg, Init(cfg), steps, s) && s.run == InFlight(None)
    ensures Runs(cfg, Init(cfg), steps', s')
    ensures s' == s.(run := ProbeSelect, log := s.log + [])
  {
    steps', s' := Take(cfg, Init(cfg), steps, s, OfRun(ProbeErrors));
  }

  /** One request sent and failed: the loop is at its select. */
  lemma ProbeFails(cfg: Config, steps: seq<Step>, s: State, reply: Option<int>) returns (steps': seq<Step>, s': State)
    requires Runs(cfg, Init(cfg), steps, s) && s.run.ProbeSend? && !s.cancelled && reply != Some(200)
    ensures Runs(cfg, Init(cfg), steps', s')
    ensures s' == s.(run := ProbeSelect,
                     log := s.log + ([ProbeSent] + if reply.Some? then [Answered(reply.value)] else []))
  {
    var sent, s1 := SendsProbe(cfg, steps, s);
    var answer := if reply.Some? then [Answered(reply.value)] else [];
    if reply.Some? {
      steps', s' := GetsAnswer(cfg, sent, s1, reply.value);
    } else {
      steps', s' := GetsError(cfg, sent, s1);
    }
    assert s1.log + answer == s.log + ([ProbeSent] + answer);
  }

  /** After any failed requests, with or without an answer, another one is about to be sent. */
  lemma {:induction false} ProbesFail(cfg: Config, replies: seq<Option<int>>) returns (steps: seq<Step>, s: State)
    requires cfg.hasOnReady && forall i :: 0 <= i < |replies| ==> replies[i] != Some(200)
    ensures Runs(cfg, Init(cfg), steps, s)
    ensures s == Init(cfg).(run := ProbeSend, serve := Serving, log := FailedProbes(replies))
  {
    if replies == [] {
      steps, s := Take(cfg, Init(cfg), [], Init(cfg), OfRun(Launch));
    } else {
      var n := |replies| - 1;
      var before, s0 := ProbesFail(cfg, replies[..n]);
      var selecting, s1 := ProbeFails(cfg, before, s0, replies[n]);
      steps, s := Take(cfg, Init(cfg), selecting, s1, OfRun(ProbeTick));
      assert s.log == FailedProbes(replies);
    }
  }

  lemma {:induction false} AnsweredRun(cfg: Config, replies: seq<Option<int>>) returns (steps: seq<Step>, s: State)
    requires cfg.hasOnReady && forall i :: 0 <= i < |replies| ==> replies[i] != Some(200)
    ensures Runs(cfg, Init(cfg), steps, s)
    ensures s == Init(cfg).(run := Ready, serve := Serving, log := FailedProbes(replies) + [ProbeSent, Answered(200)])
  {
    var failed := FailedProbes(replies);
    steps, s := ProbesFail(cfg, replies);
    steps, s := SendsProbe(cfg, steps, s);
    steps, s := GetsAnswer(cfg, steps, s, 200);
    assert failed + [ProbeSent] + [Answered(200)] == failed + [ProbeSent, Answered(200)];
  }

  /** The callback is called after any number of failed requests, once one is answered with 200. */
  lemma {:induction false} ReadyRun(cfg: Config, replies: seq<Option<int>>) returns (steps: seq<Step>, s: State)
    requires cfg.hasOnReady && forall i :: 0 <= i < |replies| ==> replies[i] != Some(200)
    ensures Runs(cfg, Init(cfg), steps, s)
    ensures s == Init(cfg).(run := InOnReady, serve := Serving,
                            log := FailedProbes(replies) + [ProbeSent, Answered(200), OnReadyFired])
  {
    var ready, s0 := AnsweredRun(cfg, replies);
    steps, s := Take(cfg, Init(cfg), ready, s0, OfRun(CallOnReady));
    assert s0.log + [OnReadyFired] == FailedProbes(replies) + [ProbeSent, Answered(200), OnReadyFired];
  }

  /** Or the probe gives up at its deadline after any failed request, without a cancellation. */
  lemma {:induction false} DeadlineRun(cfg: Config, replies: seq<Option<int>>, last: Option<int>)
    returns (steps: seq<Step>, s: State)
    requires cfg.hasOnReady && last != Some(200) && forall i :: 0 <= i < |replies| ==> replies[i] != Some(200)
    ensures Runs(cfg, Init(cfg), steps, s) && !s.cancelled && s.run.Selecting?
    ensures s.log == FailedProbes(replies) +
                     [ProbeSent] + (if last.Some? then [Answered(last.value)] else []) + [GaveUp]
  {
    steps, s := ProbesFail(cfg, replies);
    steps, s := ProbeFails(cfg, steps, s, last);
    steps, s := Take(cfg, Init(cfg), steps, s, OfRun(ProbeDeadline));
  }

  /** Run reaches its final select only after the probe was decided: the callback was called or given up. */
  lemma ProbeIsDecided(cfg: Config, s: State)
    requires Reachable(cfg, s) && cfg.hasOnReady && (s.run.Selecting? || s.run.ShuttingDown? || s.run.Returned?)
    ensures GaveUp in s.log <==> OnReadyFired !in s.log
  {
    ReachablePositions(cfg, s);
  }

  /** A failed request of the probe is not the last: while nothing is cancelled, the next may still succeed. */
  lemma ProbeRetries(cfg: Config, s: State)
    requires s.run.ProbeSelect? && !s.cancelled
    ensures CallbackPossible(cfg, s)
  {
    var ticked := Apply(cfg, s, OfRun(ProbeTick));
    var sent := Apply(cfg, ticked, OfRun(SendProbe));
    var rest, s' := ProbeSucceeds(cfg, sent);
    RunsCons(cfg, ticked, OfRun(SendProbe), rest, s');
    RunsCons(cfg, s, OfRun(ProbeTick), [OfRun(SendProbe)] + rest, s');
  }

  /** The probe sends at most one request more than its ticker has fired. */
  lemma ProbePace(cfg: Config, s: State)
    requires Reachable(cfg, s)
    ensures Count(s.log, ProbeSent) <= 1 + Count(s.log, ProbeTicked)
    ensures s.run.ProbeSelect? ==> Count(s.log, ProbeSent) == 1 + Count(s.log, ProbeTicked)
  {
    ReachableInv(cfg, s);
  }

  /** Run goes on only once a Start called by the callback has returned. */
  lemma CallbackCompletes(cfg: Config, s: State)
    requires Reachable(cfg, s) && FromOnReady in s.callers && !s.run.InOnReady?
    ensures s.callers[FromOnReady].Back?
  {
    ReachablePositions(cfg, s);
  }

  /** Outside its waits the registration goroutine leaves no timer running and no timer value unread. */
  lemma TimerReleased(cfg: Config, s: State)
    requires Reachable(cfg, s)
    ensures s.timer.Pending? || s.timer.Fired? ==> s.reg.Waiting? || s.reg.StoppingTimer? || s.reg.Draining?
  {
    ReachablePositions(cfg, s);
  }

  /** A cancelled wait: the value of an expired timer is read where Stop leaves it behind, and nowhere else. */
  lemma CancelledWait(cfg: Config, s: State) returns (steps: seq<Step>, s': State)
    requires Reachable(cfg, s) && s.reg.Waiting? && s.cancelled
    ensures Runs(cfg, s, steps, s') && s'.reg.Returning?
    ensures steps == [OfReg(TakeCancel), OfReg(StopTimer)] +
                     if s.timer.Fired? && !cfg.syncTimers then [OfReg(DrainTimer)] else []
    ensures s'.timer == if s.timer.Fired? && !cfg.syncTimers then Spent else NoTimer
  {
    ReachablePositions(cfg, s);
    var start: seq<Step> := [];
    steps, s' := Take(cfg, s, start, s, OfReg(TakeCancel));
    steps, s' := Take(cfg, s, steps, s', OfReg(StopTimer));
    if s.timer.Fired? && !cfg.syncTimers {
      steps, s' := Take(cfg, s, steps, s', OfReg(DrainTimer));
    }
  }

  /** A run to the final select, whatever the configuration: a callback is called and panics. */
  lemma SelectingRun(cfg: Config) returns (steps: seq<Step>, s: State)
    ensures Runs(cfg, Init(cfg), steps, s)
    ensures s.run.Selecting? && s.serve.Serving? && !s.buffered && !s.closed && !s.cancelled
  {
    if cfg.hasOnReady {
      steps, s := ReadyRun(cfg, []);
      steps, s := Take(cfg, Init(cfg), steps, s, OfRun(OnReadyPanics));
    } else {
      steps, s := [], Init(cfg);
      steps, s := Take(cfg, Init(cfg), steps, s, OfRun(Launch));
    }
  }

  lemma ServeFailedThenCancelled(cfg: Config) returns (steps: seq<Step>, s: State)
    ensures Runs(cfg, Init(cfg), steps, s)
    ensures s.run.Selecting? && s.buffered && s.cancelled && ServeFailed in s.log && CtxCancelled in s.log
  {
    steps, s := SelectingRun(cfg);
    steps, s := Take(cfg, Init(cfg), steps, s, OfServe(ServeFails));
    steps, s := Take(cfg, Init(cfg), steps, s, OfServe(SendErr));
    steps, s := Take(cfg, Init(cfg), steps, s, OfEnv(CancelCtx));
  }

  /**
   With the context cancelled the select may go either way: in every configuration the same failure
   is reported in one run and lost in another.
   */
  lemma CancellationMayLoseFailure(cfg: Config) returns (lost: State, reported: State)
    ensures Reachable(cfg, lost) && ServeFailed in lost.log && lost.run == Returned(Nil)
    ensures Reachable(cfg, reported) && ServeFailed in reported.log && CtxCancelled in reported.log
    ensures reported.run == Returned(ServingError)
  {
    var steps, both := ServeFailedThenCancelled(cfg);
    var toNil, stopping := Take(cfg, Init(cfg), steps, both, OfRun(SelectCancelled));
    toNil, lost := Take(cfg, Init(cfg), toNil, stopping, OfRun(ShutdownOk));
    var toErr;
    toErr, reported := Take(cfg, Init(cfg), steps, both, OfRun(SelectServe));
  }

  // ---- Registration attempts after a cancellation ----

  lemma {:induction false} RegEventsSplit(a: seq<LogEvent>, b: seq<LogEvent>)
    ensures RegEvents(a + b) == RegEvents(a) + RegEvents(b)
  {
    if b == [] {
      assert a + b == a;
    } else {
      var n := |b| - 1;
      assert a + b == (a + b[..n]) + [b[n]] && b == b[..n] + [b[n]];
      RegEventsAppend(a + b[..n], b[n]);
      RegEventsSplit(a, b[..n]);
    }
  }

  /** Completed waits. */
  function Sleeps(h: seq<Event>): nat {
    if h == [] then 0 else (if h[|h| - 1].Slept? then 1 else 0) + Sleeps(h[..|h| - 1])
  }

  /** Every attempt but the first event follows a completed wait directly. */
  predicate EachAttemptSlept(h: seq<Event>) {
    forall k :: 0 < k < |h| && h[k].Attempted? ==> h[k - 1].Slept?
  }

  lemma {:induction false} AttemptsBySleeps(h: seq<Event>)
    requires EachAttemptSlept(h)
    ensures Attempts(h) <= 1 + Sleeps(h)
    ensures h != [] && h[|h| - 1].Slept? ==> Attempts(h) <= Sleeps(h)
  {
    if h != [] {
      var n := |h| - 1;
      assert EachAttemptSlept(h[..n]);
      AttemptsBySleeps(h[..n]);
    }
  }

  lemma LegalSuffixSlept(h: seq<Event>, h1: seq<Event>, h2: seq<Event>, initial: Duration, max: Duration)
    requires Legal(h, initial, max) && h == h1 + h2
    ensures EachAttemptSlept(h2)
  {
    forall k | 0 < k < |h2| && h2[k].Attempted? ensures h2[k - 1].Slept? {
      var j := |h1| + k;
      assert h[j] == h2[k] && h[j - 1] == h2[k - 1];
      assert LegalAt(h, j, initial, max) && LegalAt(h, j - 1, initial, max);
    }
  }

  lemma {:induction false} LateStays(log: seq<LogEvent>, j: nat, i: nat)
    requires j < i <= |log| && BeginsAttempt(log[j]) && CtxCancelled in log[..j]
    ensures Late(log[..i])
    decreases i
  {
    var pre := log[..i - 1];
    assert log[..i] == pre + [log[i - 1]];
    LateAppend(pre, log[i - 1]);
    if j < i - 1 {
      LateStays(log, j, i - 1);
      var c := IndexOf(log[..j], CtxCancelled);
      assert pre[c] == CtxCancelled;
    }
  }

  lemma LateReply(cfg: Config, log: seq<LogEvent>, c: nat, j: nat, i: nat, e: Event)
    requires LegalLog(cfg, log) && c < j < i < |log|
    requires log[c] == CtxCancelled && BeginsAttempt(log[j]) && log[i] == Reg(e) && e.Attempted?
    ensures e.reply == TransportError
  {
    assert log[..j][c] == CtxCancelled;
    LateStays(log, j, i);
    assert Follows(cfg, log[..i], log[i]);
  }

  /** An attempt begun after the cancellation, by the spawn or by a wait that ended, fails without an answer. */
  lemma LateAttemptFails(cfg: Config, s: State, c: nat, j: nat, i: nat)
    requires Reachable(cfg, s) && c < j < i < |s.log|
    requires s.log[c] == CtxCancelled && BeginsAttempt(s.log[j]) && s.log[i].Reg? && s.log[i].e.Attempted?
    ensures s.log[i].e.reply == TransportError
  {
    ReachableLog(cfg, s);
    LateReply(cfg, s.log, c, j, i, s.log[i].e);
  }

  /** Where the last registration event of a piece of the log is. */
  lemma {:induction false} LastRegAt(t: seq<LogEvent>) returns (j: nat)
    requires RegEvents(t) != []
    ensures j < |t| && t[j] == Reg(RegEvents(t)[|RegEvents(t)| - 1])
  {
    var n := |t| - 1;
    if t[n].Reg? {
      j := n;
    } else {
      j := LastRegAt(t[..n]);
    }
  }

  /** Every attempt but the first event failed without an answer. */
  predicate OnlyFirstAnswered(h: seq<Event>) {
    forall k :: 0 < k < |h| && h[k].Attempted? ==> h[k].reply == TransportError
  }

  lemma SleptPrefix(h: seq<Event>, e: Event)
    requires EachAttemptSlept(h + [e])
    ensures EachAttemptSlept(h)
    ensures h != [] && e.Attempted? ==> h[|h| - 1].Slept?
  {
    var longer := h + [e];
    assert longer[|h|] == e;
    assert h != [] ==> longer[|h| - 1] == h[|h| - 1];
    forall k | 0 < k < |h| && h[k].Attempted? ensures h[k - 1].Slept? {
      assert longer[k] == h[k] && longer[k - 1] == h[k - 1];
    }
  }

  predicate EndsAttempt(e: LogEvent) {
    e.Reg? && e.e.Attempted?
  }

  /** In a piece of the log after the cancellation, an attempt that also begins there ends without an answer. */
  predicate LateOnesFail(t: seq<LogEvent>) {
    forall j, i :: 0 <= j < i < |t| && BeginsAttempt(t[j]) && EndsAttempt(t[i]) ==> t[i].e.reply == TransportError
  }

  lemma AppendAnswered(h: seq<Event>, e: Event)
    requires OnlyFirstAnswered(h) && (h != [] && e.Attempted? ==> e.reply == TransportError)
    ensures OnlyFirstAnswered(h + [e])
  {
  }

  lemma {:induction false} LaterAttemptsFail(t: seq<LogEvent>)
    requires LateOnesFail(t) && EachAttemptSlept(RegEvents(t))
    ensures OnlyFirstAnswered(RegEvents(t))
  {
    if t != [] {
      var init, last := t[..|t| - 1], t[|t| - 1];
      var h := RegEvents(init);
      assert t == init + [last];
      RegEventsAppend(init, last);
      if !last.Reg? {
        assert RegEvents(t) == h;
        LaterAttemptsFail(init);
      } else {
        SleptPrefix(h, last.e);
        LaterAttemptsFail(init);
        if h != [] && last.e.Attempted? {
          var j := LastRegAt(init);
          assert BeginsAttempt(t[j]) && EndsAttempt(t[|t| - 1]);
        }
        AppendAnswered(h, last.e);
      }
    }
  }

  lemma SinceLateOnesFail(cfg: Config, s: State, c: nat)
    requires Reachable(cfg, s) && c < |s.log| && s.log[c] == CtxCancelled
    ensures LateOnesFail(s.log[c..])
  {
    var t := s.log[c..];
    forall j, i | 0 <= j < i < |t| && BeginsAttempt(t[j]) && EndsAttempt(t[i]) ensures t[i].e.reply == TransportError {
      assert t[0] == CtxCancelled && s.log[c + j] == t[j] && s.log[c + i] == t[i];
      LateAttemptFails(cfg, s, c, c + j, c + i);
    }
  }

  lemma SinceSlept(cfg: Config, log: seq<LogEvent>, c: nat)
    requires Legal(RegEvents(log), cfg.initial, cfg.max) && c < |log|
    ensures EachAttemptSlept(RegEvents(log[c..]))
  {
    assert log == log[..c] + log[c..];
    RegEventsSplit(log[..c], log[c..]);
    LegalSuffixSlept(RegEvents(log), RegEvents(log[..c]), RegEvents(log[c..]), cfg.initial, cfg.max);
  }

  /**
   After the cancellation an attempt is reported either first of all registration events or
   directly after a wait completed since, so there is at most one attempt more than there are such
   waits; and all but the first fail without an answer, so only a request in flight at the
   cancellation can still succeed or be given up.
   */
  lemma AttemptsAfterCancellation(cfg: Config, s: State, c: nat)
    requires Reachable(cfg, s) && c < |s.log| && s.log[c] == CtxCancelled
    ensures var since := RegEvents(s.log[c..]);
            && EachAttemptSlept(since) && Attempts(since) <= 1 + Sleeps(since)
            && OnlyFirstAnswered(since)
  {
    ReachableInv(cfg, s);
    SinceSlept(cfg, s.log, c);
    AttemptsBySleeps(RegEvents(s.log[c..]));
    SinceLateOnesFail(cfg, s, c);
    LaterAttemptsFail(s.log[c..]);
  }

  /** The callback has started the registrar, and the context is cancelled with the first request in flight. */
  lemma CancelledRun(cfg: Config) returns (steps: seq<Step>, s: State)
    requires cfg.hasOnReady
    ensures Runs(cfg, Init(cfg), steps, s)
    ensures s.reg.Attempting? && s.cancelled && !s.late && s.log != [] && s.log[|s.log| - 1] == CtxCancelled
  {
    var c := FromOnReady;
    steps, s := ReadyRun(cfg, []);
    steps, s := Take(cfg, Init(cfg), steps, s, OfCaller(c, BeginCall));
    steps, s := Take(cfg, Init(cfg), steps, s, OfCaller(c, EnterOnce));
    steps, s := Take(cfg, Init(cfg), steps, s, OfCaller(c, SpawnBody));
    steps, s := Take(cfg, Init(cfg), steps, s, OfEnv(CancelCtx));
  }

  /** One more failed attempt and one more wait, the expired timer winning the select again. */
  lemma OneMoreRound(cfg: Config, steps: seq<Step>, s: State) returns (steps': seq<Step>, s': State)
    requires Runs(cfg, Init(cfg), steps, s) && s.reg.Attempting? && s.cancelled
    ensures Runs(cfg, Init(cfg), steps', s') && s'.reg.Attempting? && s'.cancelled
    ensures s'.log == s.log + [Reg(Attempted(TransportError)), Reg(Slept(s.backoff))]
  {
    steps', s' := Take(cfg, Init(cfg), steps, s, OfReg(AttemptReturns(TransportError)));
    steps', s' := Take(cfg, Init(cfg), steps', s', OfEnv(TimerFires));
    steps', s' := Take(cfg, Init(cfg), steps', s', OfReg(TakeTimer));
  }

  lemma {:induction false} ManyRounds(cfg: Config, n: nat) returns (steps: seq<Step>, s: State, c: nat)
    requires cfg.hasOnReady
    ensures Runs(cfg, Init(cfg), steps, s) && s.reg.Attempting? && s.cancelled && (n == 0 ==> !s.late)
    ensures c < |s.log| && s.log[c] == CtxCancelled
    ensures Attempts(RegEvents(s.log[c..])) == Sleeps(RegEvents(s.log[c..])) == n
  {
    if n == 0 {
      steps, s := CancelledRun(cfg);
      c := |s.log| - 1;
      assert s.log[c..] == [] + [CtxCancelled];
      RegEventsAppend([], CtxCancelled);
    } else {
      var steps0, s0;
      steps0, s0, c := ManyRounds(cfg, n - 1);
      steps, s := OneMoreRound(cfg, steps0, s0);
      var since, a, w := s0.log[c..], Attempted(TransportError), Slept(s0.backoff);
      assert s.log[c..] == (since + [Reg(a)]) + [Reg(w)];
      RegEventsAppend(since, Reg(a));
      RegEventsAppend(since + [Reg(a)], Reg(w));
      OneRoundCounts(RegEvents(since), a, w);
    }
  }

  lemma OneRoundCounts(h: seq<Event>, a: Event, w: Event)
    requires a.Attempted? && w.Slept?
    ensures Attempts(h + [a] + [w]) == Attempts(h) + 1 && Sleeps(h + [a] + [w]) == Sleeps(h) + 1
  {
    assert (h + [a] + [w])[..|h| + 1] == h + [a] && (h + [a])[..|h|] == h;
  }

  /**
   A reachable state whose log ends with an attempt, with `waits` completed waits and one attempt
   more since the cancellation.
   */
  ghost predicate EndsInAttempt(cfg: Config, s: State, c: nat, reply: Reply, waits: nat) {
    && Reachable(cfg, s) && c < |s.log| && s.log[c] == CtxCancelled
    && s.log[|s.log| - 1] == Reg(Attempted(reply))
    && Sleeps(RegEvents(s.log[c..])) == waits && Attempts(RegEvents(s.log[c..])) == waits + 1
  }

  lemma AppendedAttempt(log: seq<LogEvent>, c: nat, reply: Reply)
    requires c < |log|
    ensures var since := RegEvents((log + [Reg(Attempted(reply))])[c..]);
            && Sleeps(since) == Sleeps(RegEvents(log[c..]))
            && Attempts(since) == Attempts(RegEvents(log[c..])) + 1
  {
    var h := RegEvents(log[c..]);
    assert (log + [Reg(Attempted(reply))])[c..] == log[c..] + [Reg(Attempted(reply))];
    RegEventsAppend(log[c..], Reg(Attempted(reply)));
    assert (h + [Attempted(reply)])[..|h|] == h;
  }

  lemma AttemptReported(cfg: Config, steps: seq<Step>, s0: State, reply: Reply) returns (s: State)
    requires Runs(cfg, Init(cfg), steps, s0) && s0.reg.Attempting? && (s0.late ==> reply.TransportError?)
    ensures Reachable(cfg, s) && s.log == s0.log + [Reg(Attempted(reply))]
  {
    var steps';
    steps', s := Take(cfg, Init(cfg), steps, s0, OfReg(AttemptReturns(reply)));
  }

  /**
   The bound is reached for every number of waits, since the select may prefer the expired timer
   each time.
   */
  lemma AttemptMayFollowCancellation(cfg: Config, reply: Reply, waits: nat) returns (s: State, c: nat)
    requires cfg.hasOnReady && (waits == 0 || reply == TransportError)
    ensures EndsInAttempt(cfg, s, c, reply, waits)
  {
    var steps, s0;
    steps, s0, c := ManyRounds(cfg, waits);
    s := AttemptReported(cfg, steps, s0, reply);
    AppendedAttempt(s0.log, c, reply);
    assert s.log[c] == s0.log[c];
  }

  lemma LastOfLog(log: seq<LogEvent>, c: nat, e: Event)
    requires c < |log| && log[|log| - 1] == Reg(e)
    ensures var since := RegEvents(log[c..]); since != [] && since[|since| - 1] == e
  {
    var t := log[c..|log| - 1];
    assert log[c..] == t + [Reg(e)];
    RegEventsAppend(t, Reg(e));
  }

  /** A history that ends in an attempt and has a completed wait has more than that attempt. */
  lemma SleptBefore(h: seq<Event>)
    requires h != [] && h[|h| - 1].Attempted? && Sleeps(h) > 0
    ensures |h| > 1
  {
  }

  lemma LateReplyFails(cfg: Config, s: State, c: nat, reply: Reply, waits: nat)
    requires EndsInAttempt(cfg, s, c, reply, waits) && waits > 0
    ensures reply == TransportError
  {
    var since := RegEvents(s.log[c..]);
    AttemptsAfterCancellation(cfg, s, c);
    LastOfLog(s.log, c, Attempted(reply));
    SleptBefore(since);
  }

  /** Which last replies are possible after how many waits: any in flight at the cancellation, only failures later. */
  lemma ReplyAfterCancellationIff(cfg: Config, reply: Reply, waits: nat)
    requires cfg.hasOnReady
    ensures (exists s: State, c: nat :: EndsInAttempt(cfg, s, c, reply, waits)) <==>
            waits == 0 || reply == TransportError
  {
    if exists s: State, c: nat :: EndsInAttempt(cfg, s, c, reply, waits) {
      var s: State, c: nat :| EndsInAttempt(cfg, s, c, reply, waits);
      if waits > 0 {
        LateReplyFails(cfg, s, c, reply, waits);
      }
    }
    if waits == 0 || reply == TransportError {
      var s, c := AttemptMayFollowCancellation(cfg, reply, waits);
    }
  }

  // ---- A normal life ----

  lemma SpawnedRun(cfg: Config) returns (steps: seq<Step>, s: State)
    requires cfg.hasOnReady
    ensures Runs(cfg, Init(cfg), steps, s)
    ensures s == Init(cfg).(run := InOnReady, serve := Serving, callers := map[FromOnReady := Leaving],
                            once := Held(FromOnReady), reg := Attempting,
                            log := [ProbeSent, Answered(200), OnReadyFired, Spawned])
  {
    var c := FromOnReady;
    steps, s := ReadyRun(cfg, []);
    steps, s := Take(cfg, Init(cfg), steps, s, OfCaller(c, BeginCall));
    steps, s := Take(cfg, Init(cfg), steps, s, OfCaller(c, EnterOnce));
    steps, s := Take(cfg, Init(cfg), steps, s, OfCaller(c, SpawnBody));
  }

  /** The callback's Start spawns the registrar and returns, and Run goes on to its final select. */
  lemma StartedRun(cfg: Config) returns (steps: seq<Step>, s: State)
    requires cfg.hasOnReady
    ensures Runs(cfg, Init(cfg), steps, s)
    ensures s == Init(cfg).(run := Selecting, serve := Serving, callers := map[FromOnReady := Back], once := Complete,
                            reg := Attempting, log := [ProbeSent, Answered(200), OnReadyFired, Spawned])
  {
    steps, s := SpawnedRun(cfg);
    steps, s := Take(cfg, Init(cfg), steps, s, OfCaller(FromOnReady, LeaveOnce));
    steps, s := Take(cfg, Init(cfg), steps, s, OfRun(OnReadyReturns));
  }

  /** It registers with the first attempt and closes done. */
  lemma RegisteredRun(cfg: Config, reply: Reply) returns (steps: seq<Step>, s: State)
    requires cfg.hasOnReady && !Classify(reply).Retry?
    ensures Runs(cfg, Init(cfg), steps, s)
    ensures s.run.Selecting? && s.serve.Serving? && s.reg.Ended? && s.doneClosed && !s.cancelled
    ensures s.callers == map[FromOnReady := Back]
    ensures s.log == [ProbeSent, Answered(200), OnReadyFired, Spawned, Reg(Attempted(reply)), DoneClosed]
  {
    steps, s := StartedRun(cfg);
    steps, s := Take(cfg, Init(cfg), steps, s, OfReg(AttemptReturns(reply)));
    steps, s := Take(cfg, Init(cfg), steps, s, OfReg(CloseDone));
  }

  lemma ServeCloses(cfg: Config, s: State) returns (steps: seq<Step>, s': State)
    requires s.run.Selecting? && s.serve.Serving? && !s.cancelled && !s.closed
    ensures Runs(cfg, s, steps, s')
    ensures s' == s.(run := ShuttingDown, serve := Exited, closed := true, cancelled := true, log := s'.log)
    ensures s'.log == s.log + [CtxCancelled, ShutdownCalled, ServeEnded]
  {
    var start: seq<Step> := [];
    steps, s' := Take(cfg, s, start, s, OfEnv(CancelCtx));
    steps, s' := Take(cfg, s, steps, s', OfRun(SelectCancelled));
    steps, s' := Take(cfg, s, steps, s', OfServe(ServeEnds));
    steps, s' := Take(cfg, s, steps, s', OfServe(CloseServe));
  }

  /** What Run returns once it is shutting down, and that Serve then ends. */
  lemma ShutsDown(cfg: Config, s: State, ok: bool) returns (steps: seq<Step>, s': State)
    requires s.run.Selecting? && s.serve.Serving? && !s.cancelled && !s.closed
    ensures Runs(cfg, s, steps, s')
    ensures s'.run == Returned(if ok then Nil else ShutdownError) && s'.serve.Exited?
    ensures s'.callers == s.callers && s'.reg == s.reg
    ensures s'.log == s.log + [CtxCancelled, ShutdownCalled, ServeEnded] + if ok then [ShutdownSucceeded] else []
  {
    var closing, s0 := ServeCloses(cfg, s);
    steps, s' := Take(cfg, s, closing, s0, OfRun(if ok then ShutdownOk else ShutdownFails));
  }

  /**
   One whole life, whatever ends the registration: probe, callback, registration, cancellation,
   shutdown, nothing left.
   */
  lemma NormalLife(cfg: Config, reply: Reply, ok: bool) returns (s: State)
    requires cfg.hasOnReady && !Classify(reply).Retry?
    ensures Reachable(cfg, s) && Terminated(s) && s.run == Returned(if ok then Nil else ShutdownError)
    ensures s.log == [ProbeSent, Answered(200), OnReadyFired, Spawned, Reg(Attempted(reply)), DoneClosed] +
                     [CtxCancelled, ShutdownCalled, ServeEnded] + if ok then [ShutdownSucceeded] else []
  {
    var up, s0 := RegisteredRun(cfg, reply);
    ReachablePositions(cfg, s0);
    var down;
    down, s := ShutsDown(cfg, s0, ok);
    RunsConcat(cfg, Init(cfg), up, s0, down, s);
  }

  // ---- Orderly shutdown is always possible ----

  /** Every goroutine is gone and every caller of Start has returned. */
  ghost predicate Terminated(s: State) {
    && s.run.Returned?
    && s.serve.Exited?
    && (s.reg.Idle? || s.reg.Ended?)
    && forall c :: c in s.callers ==> s.callers[c].Back?
  }

  function Unreturned(s: State): set<Caller> {
    set c | c in s.callers && !s.callers[c].Back?
  }

  function RunRank(run: RunPc): nat {
    match run
    case Launching => 6 case ProbeSend => 5 case InFlight(_) => 5 case ProbeSelect => 4 case Ready => 5
    case InOnReady => 4 case Selecting => 3 case ShuttingDown => 2 case Returned(_) => 0
  }

  function ServeRank(serve: ServePc): nat {
    match serve
    case NotLaunched => 4 case Serving => 3 case Sending => 2 case Closing => 1 case Exited => 0
  }

  function RegRank(reg: RegPc): nat {
    match reg
    case Idle => 6 case Attempting => 5 case Waiting => 4 case StoppingTimer => 3 case Draining => 2
    case Returning => 1 case Ended => 0
  }

  function OnceRank(once: Once): nat {
    match once case Fresh => 2 case Held(_) => 1 case Complete => 0
  }

  /** How many more steps an orderly shutdown may need. */
  function Rank(s: State): nat {
    RunRank(s.run) + ServeRank(s.serve) + RegRank(s.reg) + OnceRank(s.once) + |Unreturned(s)|
    + (if s.cancelled then 0 else 1)
  }

  lemma OneFewer(s: State, t: State, c: Caller)
    requires c in s.callers && !s.callers[c].Back? && t.callers == s.callers[c := Back]
    ensures |Unreturned(t)| == |Unreturned(s)| - 1
  {
    assert Unreturned(s) == Unreturned(t) + {c};
  }

  lemma SameUnreturned(s: State, t: State, c: Caller, pc: CallerPc)
    requires c in s.callers && !s.callers[c].Back? && !pc.Back? && t.callers == s.callers[c := pc]
    ensures Unreturned(t) == Unreturned(s)
  {
  }

  lemma EntersOrSkips(cfg: Config, s: State, c: Caller)
    requires OnceInv(cfg, s) && At(s, c, AtOnce) && !s.once.Held?
    ensures var step := OfCaller(c, if s.once.Fresh? then EnterOnce else SkipOnce);
            Enabled(cfg, s, step) && Rank(Apply(cfg, s, step)) < Rank(s)
  {
    if s.once.Fresh? {
      SameUnreturned(s, Apply(cfg, s, OfCaller(c, EnterOnce)), c, InBody);
    } else {
      OneFewer(s, Apply(cfg, s, OfCaller(c, SkipOnce)), c);
    }
  }

  lemma Spawns(cfg: Config, s: State, c: Caller)
    requires OnceInv(cfg, s) && At(s, c, InBody) && s.once == Held(c)
    ensures var step := OfCaller(c, SpawnBody); Enabled(cfg, s, step) && Rank(Apply(cfg, s, step)) < Rank(s)
  {
    SameUnreturned(s, Apply(cfg, s, OfCaller(c, SpawnBody)), c, Leaving);
  }

  lemma Leaves(cfg: Config, s: State, c: Caller)
    requires OnceInv(cfg, s) && At(s, c, Leaving) && s.once == Held(c)
    ensures var step := OfCaller(c, LeaveOnce); Enabled(cfg, s, step) && Rank(Apply(cfg, s, step)) < Rank(s)
  {
    OneFewer(s, Apply(cfg, s, OfCaller(c, LeaveOnce)), c);
  }

  lemma NextCallerStep(cfg: Config, s: State, c: Caller) returns (step: Step)
    requires OnceInv(cfg, s) && c in s.callers && !s.callers[c].Back? && (s.once.Held? ==> s.once.owner == c)
    ensures Enabled(cfg, s, step) && Rank(Apply(cfg, s, step)) < Rank(s)
  {
    match s.callers[c] {
      case AtOnce =>
        EntersOrSkips(cfg, s, c);
        step := OfCaller(c, if s.once.Fresh? then EnterOnce else SkipOnce);
      case InBody =>
        Spawns(cfg, s, c);
        step := OfCaller(c, SpawnBody);
      case Leaving =>
        Leaves(cfg, s, c);
        step := OfCaller(c, LeaveOnce);
    }
  }

  lemma RunRankFalls(cfg: Config, s: State, r: RunStep)
    requires RunEnabled(cfg, s, r)
    requires var p := RunMove(cfg, s, r);
             RunRank(p.run) + ServeRank(p.serve) < RunRank(s.run) + ServeRank(s.serve)
    ensures Rank(Apply(cfg, s, OfRun(r))) < Rank(s)
  {
    assert Unreturned(Apply(cfg, s, OfRun(r))) == Unreturned(s);
  }

  lemma ServeRankFalls(cfg: Config, s: State, v: ServeStep)
    requires ServeEnabled(cfg, s, v) && ServeRank(ServeMove(cfg, s, v).serve) < ServeRank(s.serve)
    ensures Rank(Apply(cfg, s, OfServe(v))) < Rank(s)
  {
    assert Unreturned(Apply(cfg, s, OfServe(v))) == Unreturned(s);
  }

  lemma RegRankFalls(cfg: Config, s: State, g: RegStep)
    requires RegEnabled(cfg, s, g) && RegRank(RegMove(cfg, s, g).reg) < RegRank(s.reg)
    ensures Rank(Apply(cfg, s, OfReg(g))) < Rank(s)
  {
    assert Unreturned(Apply(cfg, s, OfReg(g))) == Unreturned(s);
  }

  lemma NextRunStep(cfg: Config, s: State) returns (step: Step)
    requires PositionInv(cfg, s) && s.cancelled && !s.run.Returned?
    requires forall c :: c in s.callers ==> s.callers[c].Back?
    ensures Enabled(cfg, s, step) && Rank(Apply(cfg, s, step)) < Rank(s)
  {
    var r := match s.run
             case Launching => Launch
             case ProbeSend => ProbeBuildFails
             case InFlight(_) => ProbeErrors
             case ProbeSelect => ProbeCancelled
             case Ready => CallOnReady
             case InOnReady => OnReadyPanics
             case Selecting => SelectCancelled
             case ShuttingDown => ShutdownOk;
    RunRankFalls(cfg, s, r);
    step := OfRun(r);
  }

  /** Once Run has returned, Serve can end: it failed, or Shutdown was called. */
  lemma NextServeStep(cfg: Config, s: State) returns (step: Step)
    requires PositionInv(cfg, s) && s.run.Returned? && !s.serve.Exited?
    ensures Enabled(cfg, s, step) && Rank(Apply(cfg, s, step)) < Rank(s)
  {
    var v := match s.serve case Serving => ServeEnds case Sending => SendErr case _ => CloseServe;
    assert s.run == Returned(s.run.result);
    assert s.serve.Serving? ==> ShutdownBegun(s.run) by {
      match s.run.result case Nil => case ServingError => case ShutdownError =>
    }
    ServeRankFalls(cfg, s, v);
    step := OfServe(v);
  }

  lemma NextRegStep(cfg: Config, s: State) returns (step: Step)
    requires PositionInv(cfg, s) && s.cancelled && !s.reg.Idle? && !s.reg.Ended?
    ensures Enabled(cfg, s, step) && Rank(Apply(cfg, s, step)) < Rank(s)
  {
    var g := match s.reg
             case Attempting => AttemptReturns(TransportError)
             case Waiting => TakeCancel
             case StoppingTimer => StopTimer
             case Draining => DrainTimer
             case _ => CloseDone;
    RegRankFalls(cfg, s, g);
    step := OfReg(g);
  }

  lemma NextStoppingStep(cfg: Config, s: State) returns (step: Step)
    requires PositionInv(cfg, s) && !Terminated(s)
    ensures Enabled(cfg, s, step) && Rank(Apply(cfg, s, step)) < Rank(s)
  {
    if !s.cancelled {
      step := OfEnv(CancelCtx);
      assert Unreturned(Apply(cfg, s, step)) == Unreturned(s);
    } else if s.once.Held? {
      step := NextCallerStep(cfg, s, s.once.owner);
    } else if c :| c in s.callers && !s.callers[c].Back? {
      step := NextCallerStep(cfg, s, c);
    } else if !s.run.Returned? {
      step := NextRunStep(cfg, s);
    } else if !s.serve.Exited? {
      step := NextServeStep(cfg, s);
    } else {
      step := NextRegStep(cfg, s);
    }
  }

  lemma {:induction false} StopsFrom(cfg: Config, s: State) returns (steps: seq<Step>, s': State)
    requires PositionInv(cfg, s)
    ensures Runs(cfg, s, steps, s') && Terminated(s') && |steps| <= Rank(s)
    decreases Rank(s)
  {
    if Terminated(s) {
      steps, s' := [], s;
    } else {
      var step := NextStoppingStep(cfg, s);
      KeepsPositions(cfg, s, step);
      var rest, end := StopsFrom(cfg, Apply(cfg, s, step));
      RunsCons(cfg, s, step, rest, end);
      steps, s' := [step] + rest, end;
    }
  }

  /**
   From every reachable state some schedule of at most 20 steps, plus one per Start call under way,
   ends every goroutine.
   */
  lemma AlwaysStoppable(cfg: Config, s: State) returns (steps: seq<Step>, s': State)
    requires Reachable(cfg, s)
    ensures Runs(cfg, s, steps, s') && Terminated(s') && |steps| <= 20 + |Unreturned(s)|
  {
    ReachablePositions(cfg, s);
    steps, s' := StopsFrom(cfg, s);
  }
}
