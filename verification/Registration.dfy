/**
 The registrar: classification of the control plane's answers, the retry loop, and the language
 of histories the loop can produce.
 */
module Registration {
  import opened Backoff

  /**
   What one call of `register` meets: no HTTP response at all, a response whose body the client
   cannot read or decode (its status is then never looked at), or a usable response.
   */
  datatype Reply = TransportError | Unreadable(code: int) | Status(code: int)

  datatype Verdict = Registered | GiveUp | Retry

  /** The error classes `register` reports: nil, an error wrapping errNonRetryable, any other error. */
  function Classify(reply: Reply): (v: Verdict)
    ensures v.Registered? <==> reply == Status(200) || reply == Status(201)
    ensures v.GiveUp? <==> reply.Status? && 400 <= reply.code <= 499
  {
    match reply
    case TransportError => Retry
    case Unreadable(_) => Retry
    case Status(code) =>
      if 400 <= code < 500 then GiveUp
      else if code != 200 && code != 201 then Retry
      else Registered
  }

  datatype Event =
    | Attempted(reply: Reply)
    | Slept(d: Duration)        // the timer fired and its value was taken
    | Interrupted(d: Duration)  // the select took ctx.Done() while the timer of duration d was armed

  /**
   One turn of the loop as the environment decides it: the reply, and which select case wins after a
   retryable one.
   */
  datatype Round = Round(reply: Reply, cancelled: bool)

  datatype Ending = Success | NonRetryable | Cancelled | StillRunning

  datatype Outcome = Outcome(log: seq<Event>, ending: Ending)

  /** The run that the environment `env` leads to; a run observed past the end of `env` is still going. */
  function History(env: seq<Round>, backoff: Duration, max: Duration): Outcome {
    if env == [] then Outcome([], StillRunning)
    else
      var attempt := Attempted(env[0].reply);
      match Classify(env[0].reply)
      case Registered => Outcome([attempt], Success)
      case GiveUp => Outcome([attempt], NonRetryable)
      case Retry =>
        if env[0].cancelled then Outcome([attempt, Interrupted(backoff)], Cancelled)
        else
          var rest := History(env[1..], Next(backoff, max), max);
          Outcome([attempt, Slept(backoff)] + rest.log, rest.ending)
  }

  /** What a run amounts to that has logged `log` and continues as `rest`. */
  function After(log: seq<Event>, rest: Outcome): Outcome {
    Outcome(log + rest.log, rest.ending)
  }

  lemma AfterAfter(log: seq<Event>, turn: seq<Event>, rest: Outcome)
    ensures After(log, After(turn, rest)) == After(log + turn, rest)
  {
    assert log + (turn + rest.log) == (log + turn) + rest.log;
  }

  /** One turn of the loop. */
  lemma HistoryHead(env: seq<Round>, backoff: Duration, max: Duration)
    requires env != []
    ensures var attempt := Attempted(env[0].reply);
            History(env, backoff, max) ==
            match Classify(env[0].reply)
            case Registered => Outcome([attempt], Success)
            case GiveUp => Outcome([attempt], NonRetryable)
            case Retry =>
              if env[0].cancelled then Outcome([attempt, Interrupted(backoff)], Cancelled)
              else After([attempt, Slept(backoff)], History(env[1..], Next(backoff, max), max))
  {
  }

  datatype Setting = SetInitialBackoff(d: Duration) | SetMaxBackoff(d: Duration)

  /** The last setting of each kind wins; without one the default stays. */
  function InitialOf(opts: seq<Setting>): Duration {
    if opts == [] then DEFAULT_INITIAL
    else if opts[|opts| - 1].SetInitialBackoff? then opts[|opts| - 1].d
    else InitialOf(opts[..|opts| - 1])
  }

  function MaxOf(opts: seq<Setting>): Duration {
    if opts == [] then DEFAULT_MAX
    else if opts[|opts| - 1].SetMaxBackoff? then opts[|opts| - 1].d
    else MaxOf(opts[..|opts| - 1])
  }

  /**
   The last option that sets the initial wait decides it, one second without any; options for the
   maximum never do.
   */
  lemma {:induction false} InitialIsLastSet(opts: seq<Setting>, k: nat)
    requires k <= |opts| && (k > 0 ==> opts[k - 1].SetInitialBackoff?)
    requires forall j :: k <= j < |opts| ==> opts[j].SetMaxBackoff?
    ensures InitialOf(opts) == if k == 0 then 1_000_000_000 else opts[k - 1].d
  {
    if k < |opts| {
      InitialIsLastSet(opts[..|opts| - 1], k);
    }
  }

  /** The same for the maximum, sixty seconds without any. */
  lemma {:induction false} MaxIsLastSet(opts: seq<Setting>, k: nat)
    requires k <= |opts| && (k > 0 ==> opts[k - 1].SetMaxBackoff?)
    requires forall j :: k <= j < |opts| ==> opts[j].SetInitialBackoff?
    ensures MaxOf(opts) == if k == 0 then 60_000_000_000 else opts[k - 1].d
  {
    if k < |opts| {
      MaxIsLastSet(opts[..|opts| - 1], k);
    }
  }

  class Registrar {
    var initialBackoff: Duration
    var maxBackoff: Duration
    var started: bool
    var done: bool

    constructor (opts: seq<Setting>)
      ensures initialBackoff == InitialOf(opts) && maxBackoff == MaxOf(opts)
      ensures !started && !done
    {
      initialBackoff, maxBackoff := DEFAULT_INITIAL, DEFAULT_MAX;
      started, done := false, false;
      new;
      for i := 0 to |opts|
        invariant initialBackoff == InitialOf(opts[..i]) && maxBackoff == MaxOf(opts[..i])
        invariant !started && !done
      {
        assert opts[..i + 1][..i] == opts[..i];
        match opts[i]
        case SetInitialBackoff(d) => initialBackoff := d;
        case SetMaxBackoff(d) => maxBackoff := d;
      }
      assert opts[..|opts|] == opts;
    }

    /** The loop of the registration goroutine. */
    method Run(env: seq<Round>) returns (log: seq<Event>, ending: Ending)
      ensures Outcome(log, ending) == History(env, initialBackoff, maxBackoff)
    {
      log := [];
      var backoff: Duration := initialBackoff;
      var i := 0;
      while i < |env|
        invariant 0 <= i <= |env|
        invariant History(env, initialBackoff, maxBackoff) == After(log, History(env[i..], backoff, maxBackoff))
      {
        var round := env[i];
        HistoryHead(env[i..], backoff, maxBackoff);
        assert env[i..][0] == round && env[i..][1..] == env[i + 1..];
        ghost var before, wait := log, backoff;
        log := log + [Attempted(round.reply)];
        match Classify(round.reply) {
          case Registered => return log, Success;
          case GiveUp => return log, NonRetryable;
          case Retry =>
        }
        if round.cancelled {
          return log + [Interrupted(backoff)], Cancelled;
        }
        log := log + [Slept(backoff)];
        backoff := Double(backoff);
        if backoff > maxBackoff {
          backoff := maxBackoff;
        }
        i := i + 1;
        assert log == before + [Attempted(round.reply), Slept(wait)] && backoff == Next(wait, maxBackoff);
        AfterAfter(before, [Attempted(round.reply), Slept(wait)], History(env[i..], backoff, maxBackoff));
      }
      ending := StillRunning;
    }

    /** Only the first call runs anything, and `done` is closed when the run has returned. */
    method Start(env: seq<Round>) returns (log: seq<Event>)
      modifies this`started, this`done
      ensures started
      ensures old(started) ==> log == [] && done == old(done)
      ensures !old(started) ==>
                var o := History(env, initialBackoff, maxBackoff);
                log == o.log && done == (old(done) || !o.ending.StillRunning?)
    {
      log := [];
      if !started {
        started := true;
        var ending;
        log, ending := Run(env);
        if ending != StillRunning {
          done := true;
        }
      }
    }
  }

  // ---- The language of histories ----

  /**
   What a registration history looks like, said without the loop: attempts and waits alternate,
   the k-th wait has the k-th duration of the schedule, only a retryable attempt is followed by
   anything, and only a full wait is followed by another attempt.
   */
  ghost predicate Legal(h: seq<Event>, initial: Duration, max: Duration) {
    forall j :: 0 <= j < |h| ==> LegalAt(h, j, initial, max)
  }

  ghost predicate LegalAt(h: seq<Event>, j: nat, initial: Duration, max: Duration)
    requires j < |h|
  {
    if j % 2 == 0 then
      h[j].Attempted? && (j + 1 < |h| ==> Classify(h[j].reply).Retry?)
    else
      && (h[j] == Slept(Wait(j / 2, initial, max)) || h[j] == Interrupted(Wait(j / 2, initial, max)))
      && (j + 1 < |h| ==> h[j].Slept?)
  }

  /** The ending a complete history shows in its last event. */
  ghost predicate EndsAs(h: seq<Event>, ending: Ending) {
    match ending
    case StillRunning => |h| % 2 == 0 && (h != [] ==> h[|h| - 1].Slept?)
    case Cancelled => h != [] && h[|h| - 1].Interrupted?
    case Success => h != [] && h[|h| - 1].Attempted? && Classify(h[|h| - 1].reply) == Registered
    case NonRetryable => h != [] && h[|h| - 1].Attempted? && Classify(h[|h| - 1].reply) == GiveUp
  }

  /** The schedule started at Next(initial) is the schedule of `initial` shifted by one. */
  lemma {:induction false} WaitShift(k: nat, initial: Duration, max: Duration)
    ensures Wait(k, Next(initial, max), max) == Wait(k + 1, initial, max)
  {
    if k > 0 {
      WaitShift(k - 1, initial, max);
    }
  }

  lemma LegalCons(reply: Reply, rest: seq<Event>, initial: Duration, max: Duration)
    requires Classify(reply).Retry?
    ensures Legal(rest, Next(initial, max), max) <==>
            Legal([Attempted(reply), Slept(initial)] + rest, initial, max)
  {
    var h := [Attempted(reply), Slept(initial)] + rest;
    forall j | 0 <= j < |rest|
      ensures LegalAt(rest, j, Next(initial, max), max) <==> LegalAt(h, j + 2, initial, max)
    {
      WaitShift(j / 2, initial, max);
      assert h[j + 2] == rest[j] && (j + 2) / 2 == j / 2 + 1;
    }
    assert LegalAt(h, 0, initial, max) && LegalAt(h, 1, initial, max);
    if Legal(h, initial, max) {
      forall j | 0 <= j < |rest| ensures LegalAt(rest, j, Next(initial, max), max) {
        assert LegalAt(h, j + 2, initial, max);
      }
    }
    if Legal(rest, Next(initial, max), max) {
      forall j | 0 <= j < |h| ensures LegalAt(h, j, initial, max) {
        if j >= 2 {
          assert LegalAt(rest, j - 2, Next(initial, max), max);
        }
      }
    }
  }

  /** Every run of the loop is legal and its ending is the one its last event shows. */
  lemma {:induction false} HistoryIsLegal(env: seq<Round>, initial: Duration, max: Duration)
    ensures var o := History(env, initial, max);
            Legal(o.log, initial, max) && EndsAs(o.log, o.ending)
  {
    if env != [] && Classify(env[0].reply).Retry? && !env[0].cancelled {
      HistoryIsLegal(env[1..], Next(initial, max), max);
      var rest := History(env[1..], Next(initial, max), max);
      LegalCons(env[0].reply, rest.log, initial, max);
    }
  }

  /** Conversely every legal complete history is one the loop can produce, so the language is exact. */
  lemma {:induction false} LegalIsHistory(h: seq<Event>, ending: Ending, initial: Duration, max: Duration)
    returns (env: seq<Round>)
    requires Legal(h, initial, max) && EndsAs(h, ending)
    ensures History(env, initial, max) == Outcome(h, ending)
  {
    if h == [] {
      env := [];
    } else {
      assert LegalAt(h, 0, initial, max);
      if |h| == 1 {
        env := [Round(h[0].reply, false)];
      } else {
        assert LegalAt(h, 1, initial, max);
        if h[1].Interrupted? {
          assert |h| == 2;
          env := [Round(h[0].reply, true)];
        } else {
          var rest := h[2..];
          assert h == [Attempted(h[0].reply), Slept(initial)] + rest;
          LegalCons(h[0].reply, rest, initial, max);
          var tail := LegalIsHistory(rest, ending, Next(initial, max), max);
          env := [Round(h[0].reply, false)] + tail;
          assert env[1..] == tail;
        }
      }
    }
  }

  /** Nothing follows a success, a 4xx or a cancellation; everything else is retried. */
  lemma NothingAfterAnEnd(env: seq<Round>, initial: Duration, max: Duration, j: nat)
    requires var h := History(env, initial, max).log;
             j < |h| && (h[j].Interrupted? || (h[j].Attempted? && !Classify(h[j].reply).Retry?))
    ensures j + 1 == |History(env, initial, max).log|
  {
    HistoryIsLegal(env, initial, max);
    assert LegalAt(History(env, initial, max).log, j, initial, max);
  }

  // ---- Retry rate of a run ----

  function Attempts(h: seq<Event>): nat {
    if h == [] then 0 else (if h[|h| - 1].Attempted? then 1 else 0) + Attempts(h[..|h| - 1])
  }

  /** Time spent in completed waits. */
  function SleptTime(h: seq<Event>): nat {
    if h == [] then 0
    else (if h[|h| - 1].Slept? then Elapsed(h[|h| - 1].d) else 0) + SleptTime(h[..|h| - 1])
  }

  /** A prefix of a legal history is legal, and its parity tells what the last event is. */
  lemma LegalPrefix(h: seq<Event>, initial: Duration, max: Duration)
    requires Legal(h, initial, max) && h != []
    ensures var n := |h| - 1;
            && Legal(h[..n], initial, max)
            && (n % 2 == 0 ==> h[n].Attempted? && (n > 0 ==> h[n - 1].Slept?))
            && (n % 2 == 1 ==> h[n - 1].Attempted?
                               && (h[n] == Slept(Wait(n / 2, initial, max)) ||
                                   h[n] == Interrupted(Wait(n / 2, initial, max))))
  {
    var n := |h| - 1;
    forall j | 0 <= j < n ensures LegalAt(h[..n], j, initial, max) {
      assert LegalAt(h, j, initial, max);
    }
    assert LegalAt(h, n, initial, max);
    if n > 0 {
      assert LegalAt(h, n - 1, initial, max);
    }
  }

  lemma {:induction false} LegalAttempts(h: seq<Event>, initial: Duration, max: Duration)
    requires Legal(h, initial, max)
    ensures Attempts(h) == (|h| + 1) / 2
  {
    if h != [] {
      LegalPrefix(h, initial, max);
      LegalAttempts(h[..|h| - 1], initial, max);
    }
  }

  /** In a legal history attempts and waits pair up, and the completed waits add up to the schedule's total. */
  lemma {:induction false} LegalCounts(h: seq<Event>, initial: Duration, max: Duration)
    requires Legal(h, initial, max)
    ensures Attempts(h) == (|h| + 1) / 2
    ensures h == [] || !h[|h| - 1].Interrupted? ==> SleptTime(h) == Total(|h| / 2, initial, max)
    ensures h != [] && h[|h| - 1].Interrupted? ==> |h| >= 2 && SleptTime(h) == Total(|h| / 2 - 1, initial, max)
  {
    LegalAttempts(h, initial, max);
    if h != [] {
      LegalPrefix(h, initial, max);
      LegalCounts(h[..|h| - 1], initial, max);
    }
  }

  /** In any legal history, around T nanoseconds of completed waiting there are at most 1 + k* + T/max attempts. */
  lemma LegalRate(h: seq<Event>, initial: Duration, max: Duration)
    requires Safe(initial, max) && Legal(h, initial, max)
    ensures Attempts(h) <= 1 + Saturation(initial, max) + SleptTime(h) / max
  {
    LegalCounts(h, initial, max);
    var waits := if h != [] && h[|h| - 1].Interrupted? then |h| / 2 - 1 else |h| / 2;
    if h != [] {
      assert LegalAt(h, |h| - 1, initial, max);
    }
    WaitsWithin(waits, SleptTime(h), initial, max);
  }

  /** So whatever the environment does, a run keeps to that rate. */
  lemma RetryRate(env: seq<Round>, initial: Duration, max: Duration)
    requires Safe(initial, max)
    ensures var h := History(env, initial, max).log;
            Attempts(h) <= 1 + Saturation(initial, max) + SleptTime(h) / max
  {
    HistoryIsLegal(env, initial, max);
    LegalRate(History(env, initial, max).log, initial, max);
  }
}
