/** The scheduler process: its loop, one background maintenance task, and stop signals, step by step. */
module Scheduler {
  import opened Json

  /** Where the main loop is waiting. */
  datatype Pc =
    | Starting                       // store.start
    | Evaluating                     // evaluateSchedulerOnce and the liveness record
    | Sleeping(resolved: bool)       // delay
    | Draining                       // await maintenance
    | Stopping                       // store.stop
    | Ended

  /** A maintenance task that is running, or whose result has been handled but not yet cleared. */
  datatype Task = Task(occurrence: nat, concluded: bool)

  datatype Event =
    | Evaluate
    | Launch(occurrence: nat)
    | Conclude(occurrence: nat, notDue: bool)
    | Clear
    | StopRequested
    | StopRecorded

  /** `today` is the latest due occurrence, which never goes back; `log` is history. */
  datatype State = State(
    pc: Pc, runOnce: bool, retention: bool, stopping: bool, maintenance: Option<Task>, attempted: Option<nat>,
    wakeSet: bool, today: nat, log: seq<Event>)

  datatype Action =
    | Proceed(ok: bool, due: bool, later: nat)      // the awaited call of the main loop completes
    | TimerFires
    | Signal
    | TaskConcludes(notDue: bool)
    | TaskClears

  function Log(s: State, e: Event): State {
    s.(log := s.log + [e])
  }

  /** The test that starts maintenance, on what is due now. */
  function MaybeLaunch(s: State, due: bool): State {
    if s.maintenance.None? && due && s.attempted != Some(s.today) && s.retention then
      Log(s, Launch(s.today)).(attempted := Some(s.today), maintenance := Some(Task(s.today, false)))
    else s
  }

  /** `while (!runOnce && !stopping)`. */
  function LoopTest(s: State): State {
    if !s.runOnce && !s.stopping then Log(s, Evaluate).(pc := Evaluating) else s.(pc := Draining)
  }

  /** From the end of an evaluation to the next await, without interruption. */
  function AfterEvaluation(s: State, due: bool): State {
    var t := MaybeLaunch(s, due);
    if !t.runOnce && !t.stopping then t.(pc := Sleeping(false), wakeSet := true) else LoopTest(t)
  }

  function ProceedMain(s: State, ok: bool, due: bool, later: nat): State {
    match s.pc
    case Starting => if ok then Log(s, Evaluate).(pc := Evaluating) else s.(pc := Stopping)
    case Evaluating => if ok then AfterEvaluation(s.(today := s.today + later), due) else s.(pc := Draining)
    case Sleeping(resolved) => if resolved then LoopTest(s) else s
    case Draining => if s.maintenance.None? then s.(pc := Stopping) else s
    case Stopping => Log(s, StopRecorded).(pc := Ended)
    case Ended => s
  }

  /** `finish` of the current delay. */
  function Wake(s: State): State {
    if s.pc.Sleeping? then s.(pc := Sleeping(true), wakeSet := false) else s.(wakeSet := false)
  }

  function Step(s: State, action: Action): State {
    match action
    case Proceed(ok, due, later) => ProceedMain(s, ok, due, later)
    case TimerFires => if s.pc == Sleeping(false) then Wake(s) else s
    case Signal =>
      var t := Log(s, StopRequested).(stopping := true);
      if t.wakeSet then Wake(t) else t
    case TaskConcludes(notDue) =>
      if s.maintenance.Some? && !s.maintenance.value.concluded then
        Log(s, Conclude(s.maintenance.value.occurrence, notDue))
          .(attempted := if notDue then None else s.attempted,
            maintenance := Some(s.maintenance.value.(concluded := true)))
      else s
    case TaskClears =>
      if s.maintenance.Some? && s.maintenance.value.concluded then Log(s, Clear).(maintenance := None) else s
  }

  function Boot(runOnce: bool, retention: bool, today: nat): State {
    State(Starting, runOnce, retention, false, None, None, false, today, [])
  }

  function Run(s: State, actions: seq<Action>): State {
    if actions == [] then s else Step(Run(s, actions[..|actions| - 1]), actions[|actions| - 1])
  }

  // ---------------------------------------------------------------- reading the log

  function InFlight(log: seq<Event>): int {
    if log == [] then 0
    else
      var last := log[|log| - 1];
      InFlight(log[..|log| - 1]) + if last.Launch? then 1 else if last.Clear? then -1 else 0
  }

  lemma InFlightPush(log: seq<Event>, e: Event)
    ensures InFlight(log + [e]) == InFlight(log) + if e.Launch? then 1 else if e.Clear? then -1 else 0
  {
    assert (log + [e])[..|log|] == log;
  }

  /** Since its last launch, if any, occurrence o has been answered NOT_DUE. */
  predicate MayLaunch(log: seq<Event>, o: nat) {
    log == [] ||
    var last := log[|log| - 1];
    last == Conclude(o, true) || (last != Launch(o) && MayLaunch(log[..|log| - 1], o))
  }

  lemma MayLaunchPush(log: seq<Event>, e: Event, o: nat)
    ensures MayLaunch(log + [e], o) <==> e == Conclude(o, true) || (e != Launch(o) && MayLaunch(log, o))
  {
    assert (log + [e])[..|log|] == log;
  }

  lemma {:induction false} MayLaunchMeans(log: seq<Event>, i: nat, o: nat)
    requires i < |log| && log[i] == Launch(o) && MayLaunch(log, o)
    ensures exists k :: i < k < |log| && log[k] == Conclude(o, true)
  {
    var front := log[..|log| - 1];
    if log[|log| - 1] != Conclude(o, true) {
      MayLaunchMeans(front, i, o);
      var k :| i < k < |front| && front[k] == Conclude(o, true);
      assert log[k] == Conclude(o, true);
    }
  }

  // ---------------------------------------------------------------- invariant

  ghost predicate LogOk(log: seq<Event>) {
    && (forall k :: 0 <= k < |log| && log[k].Launch? ==>
        MayLaunch(log[..k], log[k].occurrence) && InFlight(log[..k]) == 0)
    && (forall k :: 0 <= k < |log| && log[k].StopRecorded? ==> InFlight(log[..k]) == 0)
    && (forall h, i, j :: 0 <= h < j && 0 <= i < j < |log| && log[h].Evaluate? && log[i].StopRequested? ==>
        !log[j].Evaluate?)
    && (forall i, j :: 0 <= i < j < |log| && log[i].StopRecorded? ==> !log[j].Launch? && !log[j].Evaluate?)
  }

  ghost predicate Has(log: seq<Event>, e: Event) {
    exists k :: 0 <= k < |log| && log[k] == e
  }

  ghost predicate Inv(s: State) {
    && LogOk(s.log)
    && InFlight(s.log) == (if s.maintenance.Some? then 1 else 0)
    && (s.maintenance.Some? && !s.maintenance.value.concluded ==> s.attempted == Some(s.maintenance.value.occurrence))
    && (forall o: nat :: !MayLaunch(s.log, o) ==> o <= s.today && (s.attempted == Some(o) || o < s.today))
    && (s.wakeSet <==> s.pc == Sleeping(false))
    && (s.stopping ==> s.pc != Sleeping(false))
    && (s.stopping <==> Has(s.log, StopRequested))
    && (s.pc.Starting? || s.pc.Stopping? || s.pc.Ended? ==> s.maintenance.None?)
    && (s.pc.Ended? <==> Has(s.log, StopRecorded))
    && (s.pc.Starting? ==> !Has(s.log, Evaluate))
  }

  lemma PushLog(log: seq<Event>, e: Event)
    requires LogOk(log)
    requires e.Launch? ==> MayLaunch(log, e.occurrence) && InFlight(log) == 0 && !Has(log, StopRecorded)
    requires e.StopRecorded? ==> InFlight(log) == 0
    requires e.Evaluate? ==> (!Has(log, StopRequested) || !Has(log, Evaluate)) && !Has(log, StopRecorded)
    ensures LogOk(log + [e])
    ensures forall x :: Has(log + [e], x) <==> Has(log, x) || x == e
  {
    hide MayLaunch, InFlight;
    var more := log + [e];
    assert forall k :: 0 <= k < |log| ==> more[..k] == log[..k];
    assert more[..|log|] == log;
    forall x ensures Has(more, x) <==> Has(log, x) || x == e {
      if Has(log, x) {
        var k :| 0 <= k < |log| && log[k] == x;
        assert more[k] == x;
      }
      if x == e {
        assert more[|log|] == x;
      }
    }
  }

  lemma LaunchInv(s: State, due: bool)
    requires Inv(s) && s.pc.Evaluating?
    ensures var t := MaybeLaunch(s, due);
            Inv(t) && t == s.(attempted := t.attempted, maintenance := t.maintenance, log := t.log)
  {
    var t := MaybeLaunch(s, due);
    if t != s {
      PushLog(s.log, Launch(s.today));
      InFlightPush(s.log, Launch(s.today));
      forall o: nat | !MayLaunch(t.log, o) ensures o <= t.today && (t.attempted == Some(o) || o < t.today) {
        MayLaunchPush(s.log, Launch(s.today), o);
      }
    }
  }

  /** An event that neither launches, concludes nor clears leaves the count of maintenance alone. */
  lemma NeutralPush(s: State, e: Event)
    requires Inv(s) && (e.Evaluate? || e.StopRequested? || e.StopRecorded?)
    ensures InFlight(s.log + [e]) == InFlight(s.log)
    ensures forall o: nat :: MayLaunch(s.log + [e], o) <==> MayLaunch(s.log, o)
  {
    InFlightPush(s.log, e);
    forall o: nat ensures MayLaunch(s.log + [e], o) <==> MayLaunch(s.log, o) {
      MayLaunchPush(s.log, e, o);
    }
  }

  lemma EvaluateInv(s: State)
    requires Inv(s) && s.pc != Sleeping(false) && !s.pc.Stopping? && !s.pc.Ended? && (s.stopping ==> s.pc.Starting?)
    ensures Inv(Log(s, Evaluate).(pc := Evaluating))
  {
    hide LogOk, InFlight, MayLaunch, Has;
    PushLog(s.log, Evaluate);
    NeutralPush(s, Evaluate);
  }

  lemma AfterEvaluationInv(s: State, due: bool)
    requires Inv(s) && s.pc.Evaluating?
    ensures Inv(AfterEvaluation(s, due))
  {
    hide LogOk, InFlight, MayLaunch, Has;
    LaunchInv(s, due);
    var t := MaybeLaunch(s, due);
    assert t.pc.Evaluating?;
    hide MaybeLaunch;
    if t.runOnce || t.stopping {
      assert LoopTest(t) == t.(pc := Draining);
    }
  }

  lemma ProceedInv(s: State, ok: bool, due: bool, later: nat)
    requires Inv(s)
    ensures Inv(ProceedMain(s, ok, due, later))
  {
    hide LogOk, InFlight, MayLaunch, Has;
    match s.pc
    case Starting =>
      if ok {
        EvaluateInv(s);
      }
    case Evaluating =>
      if ok {
        AfterEvaluationInv(s.(today := s.today + later), due);
      }
    case Sleeping(resolved) =>
      if resolved && !s.runOnce && !s.stopping {
        EvaluateInv(s);
      }
    case Draining =>
    case Stopping =>
      PushLog(s.log, StopRecorded);
      NeutralPush(s, StopRecorded);
    case Ended =>
  }

  lemma StepInv(s: State, action: Action)
    requires Inv(s)
    ensures Inv(Step(s, action))
  {
    hide LogOk, InFlight, MayLaunch, Has;
    match action
    case Proceed(ok, due, later) => ProceedInv(s, ok, due, later);
    case TimerFires =>
    case Signal =>
      PushLog(s.log, StopRequested);
      NeutralPush(s, StopRequested);
    case TaskConcludes(notDue) =>
      if s.maintenance.Some? && !s.maintenance.value.concluded {
        var e := Conclude(s.maintenance.value.occurrence, notDue);
        PushLog(s.log, e);
        InFlightPush(s.log, e);
        forall o: nat | !MayLaunch(s.log + [e], o)
            ensures !MayLaunch(s.log, o) && (notDue ==> o != s.maintenance.value.occurrence) {
          MayLaunchPush(s.log, e, o);
        }
      }
    case TaskClears =>
      if s.maintenance.Some? && s.maintenance.value.concluded {
        PushLog(s.log, Clear);
        InFlightPush(s.log, Clear);
        forall o: nat | !MayLaunch(s.log + [Clear], o) ensures !MayLaunch(s.log, o) {
          MayLaunchPush(s.log, Clear, o);
        }
      }
  }

  lemma {:induction false} RunInv(runOnce: bool, retention: bool, today: nat, actions: seq<Action>)
    ensures Inv(Run(Boot(runOnce, retention, today), actions))
    decreases |actions|
  {
    hide Step;
    if actions != [] {
      RunInv(runOnce, retention, today, actions[..|actions| - 1]);
      StepInv(Run(Boot(runOnce, retention, today), actions[..|actions| - 1]), actions[|actions| - 1]);
    }
  }

  // ---------------------------------------------------------------- every run

  /** At most one maintenance task is in flight, at every point of every run. */
  lemma SingleFlight(runOnce: bool, retention: bool, today: nat, actions: seq<Action>)
    ensures var log := Run(Boot(runOnce, retention, today), actions).log;
            && 0 <= InFlight(log) <= 1
            && (forall k :: 0 <= k < |log| && log[k].Launch? ==> InFlight(log[..k]) == 0)
  {
    RunInv(runOnce, retention, today, actions);
  }

  /** An occurrence is launched a second time only after it was answered NOT_DUE in between. */
  lemma RetriedOnlyAfterNotDue(runOnce: bool, retention: bool, today: nat, actions: seq<Action>, i: nat, j: nat)
    requires var log := Run(Boot(runOnce, retention, today), actions).log;
             i < j < |log| && log[i].Launch? && log[j] == log[i]
    ensures var log := Run(Boot(runOnce, retention, today), actions).log;
            exists k :: i < k < j && log[k] == Conclude(log[i].occurrence, true)
  {
    hide Run;
    RunInv(runOnce, retention, today, actions);
    var log := Run(Boot(runOnce, retention, today), actions).log;
    MayLaunchMeans(log[..j], i, log[i].occurrence);
    var k :| i < k < j && log[..j][k] == Conclude(log[i].occurrence, true);
    assert log[k] == Conclude(log[i].occurrence, true);
  }

  /** After an evaluation, maintenance starts iff it is due, enabled, not running, and not the last one attempted. */
  lemma LaunchedIff(s: State, due: bool, later: nat)
    requires s.pc.Evaluating?
    ensures var t, now := Step(s, Proceed(true, due, later)), s.today + later;
            if s.retention && due && s.maintenance == None && s.attempted != Some(now) then
              && t.maintenance == Some(Task(now, false)) && t.attempted == Some(now)
              && |t.log| > |s.log| && t.log[|s.log|] == Launch(now)
            else
              && t.maintenance == s.maintenance && t.attempted == s.attempted
              && forall k :: |s.log| <= k < |t.log| ==> !t.log[k].Launch?
  {
  }

  lemma StepAttempted(s: State, action: Action)
    requires s.attempted.Some? ==> Has(s.log, Launch(s.attempted.value))
    ensures var t := Step(s, action); t.attempted.Some? ==> Has(t.log, Launch(t.attempted.value))
  {
    var t := Step(s, action);
    AttemptMoves(s, action);
    hide Step;
    if t.attempted.Some? && t.attempted == s.attempted {
      var k :| 0 <= k < |s.log| && s.log[k] == Launch(s.attempted.value);
      assert t.log[k] == Launch(t.attempted.value);
    } else if t.attempted.Some? {
      HasAt(t.log, |s.log|);
    }
  }

  lemma AttemptMoves(s: State, action: Action)
    ensures var t := Step(s, action);
            && s.log <= t.log && t.retention == s.retention
            && (t.attempted == s.attempted || t.attempted == None
                || (|t.log| > |s.log| && t.attempted.Some? && t.log[|s.log|] == Launch(t.attempted.value)))
  {
    if action.Proceed? {
      ProceedMoves(s, action.ok, action.due, action.later);
    }
    hide ProceedMain;
  }

  lemma ProceedMoves(s: State, ok: bool, due: bool, later: nat)
    ensures var t := ProceedMain(s, ok, due, later);
            && s.log <= t.log && t.retention == s.retention
            && (t.attempted == s.attempted || t.attempted == None
                || (|t.log| > |s.log| && t.attempted.Some? && t.log[|s.log|] == Launch(t.attempted.value)))
  {
    if s.pc.Evaluating? && ok {
      LaunchMoves(s.(today := s.today + later), due);
    }
    hide MaybeLaunch;
  }

  lemma LaunchMoves(s: State, due: bool)
    ensures var t := MaybeLaunch(s, due);
            && s.log <= t.log && t == s.(log := t.log, attempted := t.attempted, maintenance := t.maintenance)
            && (t.attempted == s.attempted || t.attempted == None
                || (|t.log| > |s.log| && t.attempted.Some? && t.log[|s.log|] == Launch(t.attempted.value)))
  {
  }

  lemma {:induction false} RunAttempted(runOnce: bool, retention: bool, today: nat, actions: seq<Action>)
    ensures var s := Run(Boot(runOnce, retention, today), actions);
            s.attempted.Some? ==> Has(s.log, Launch(s.attempted.value))
    decreases |actions|
  {
    hide Step, Has;
    if actions != [] {
      RunAttempted(runOnce, retention, today, actions[..|actions| - 1]);
      StepAttempted(Run(Boot(runOnce, retention, today), actions[..|actions| - 1]), actions[|actions| - 1]);
    }
  }

  /** In every run with maintenance enabled, a due occurrence never launched before is launched, unless a task runs. */
  lemma DueIsLaunched(runOnce: bool, today: nat, actions: seq<Action>, later: nat)
    requires var s := Run(Boot(runOnce, true, today), actions);
             s.pc.Evaluating? && s.maintenance.None? && !Has(s.log, Launch(s.today + later))
    ensures var s := Run(Boot(runOnce, true, today), actions);
            Has(Step(s, Proceed(true, true, later)).log, Launch(s.today + later))
  {
    hide Step, Has;
    RunAttempted(runOnce, true, today, actions);
    RetentionStays(runOnce, true, today, actions);
    var s := Run(Boot(runOnce, true, today), actions);
    LaunchedIff(s, true, later);
    var t := Step(s, Proceed(true, true, later));
    HasAt(t.log, |s.log|);
  }

  lemma HasAt(log: seq<Event>, k: nat)
    requires k < |log|
    ensures Has(log, log[k])
  {
  }

  lemma {:induction false} RetentionStays(runOnce: bool, retention: bool, today: nat, actions: seq<Action>)
    ensures Run(Boot(runOnce, retention, today), actions).retention == retention
    decreases |actions|
  {
    hide Step;
    if actions != [] {
      RetentionStays(runOnce, retention, today, actions[..|actions| - 1]);
      AttemptMoves(Run(Boot(runOnce, retention, today), actions[..|actions| - 1]), actions[|actions| - 1]);
    }
  }

  /** Where the loop goes after an evaluation: to sleep, unless it is to run once or to stop. */
  lemma SleepsIff(s: State, due: bool, later: nat)
    requires s.pc.Evaluating?
    ensures Step(s, Proceed(true, due, later)).pc == if s.runOnce || s.stopping then Draining else Sleeping(false)
    ensures Step(s, Proceed(false, due, later)).pc == Draining
  {
  }

  /** After the timer, the next evaluation begins, unless the loop is to stop. */
  lemma WakesToEvaluate(s: State, due: bool, later: nat)
    requires s.pc == Sleeping(false) && !s.runOnce
    ensures var t := Step(Step(s, TimerFires), Proceed(true, due, later));
            if s.stopping then t.pc == Draining else t.pc == Evaluating && t.log == s.log + [Evaluate]
  {
  }

  /** When the stop is recorded nothing is in flight, and nothing is launched or evaluated afterwards. */
  lemma StopsCleanly(runOnce: bool, retention: bool, today: nat, actions: seq<Action>, k: nat)
    requires var log := Run(Boot(runOnce, retention, today), actions).log; k < |log| && log[k].StopRecorded?
    ensures var log := Run(Boot(runOnce, retention, today), actions).log;
            && InFlight(log[..k]) == 0
            && (forall j :: k < j < |log| ==> !log[j].Launch? && !log[j].Evaluate?)
  {
    hide Run;
    RunInv(runOnce, retention, today, actions);
  }

  /**
   * A stop request is never lost: the loop does not wait for the timer once a stop is requested, and after the
   * first evaluation no further one begins.
   */
  lemma StopIsNeverLost(runOnce: bool, retention: bool, today: nat, actions: seq<Action>)
    ensures var s := Run(Boot(runOnce, retention, today), actions);
            && (Has(s.log, StopRequested) ==> s.stopping && s.pc != Sleeping(false))
            && (forall h, i, j :: 0 <= h < j && 0 <= i < j < |s.log| && s.log[h].Evaluate? && s.log[i].StopRequested?
                  ==> !s.log[j].Evaluate?)
  {
    hide Run;
    RunInv(runOnce, retention, today, actions);
  }

  /** With a stop requested and no task in flight, three completions of awaited calls end the process. */
  lemma StopReachesEnd(runOnce: bool, retention: bool, today: nat, actions: seq<Action>, ok: bool, later: nat)
    requires var s := Run(Boot(runOnce, retention, today), actions);
             s.stopping && s.maintenance.None? && !s.pc.Starting?
    ensures var s, p := Run(Boot(runOnce, retention, today), actions), Proceed(ok, false, later);
            Step(Step(Step(s, p), p), p).pc.Ended?
  {
    hide Run;
    StopIsNeverLost(runOnce, retention, today, actions);
    StoppingMeansRequested(runOnce, retention, today, actions);
    EndsInThree(Run(Boot(runOnce, retention, today), actions), ok, later);
  }

  lemma EndsInThree(s: State, ok: bool, later: nat)
    requires s.stopping && s.maintenance.None? && !s.pc.Starting? && s.pc != Sleeping(false)
    ensures var p := Proceed(ok, false, later); Step(Step(Step(s, p), p), p).pc.Ended?
  {
    var p := Proceed(ok, false, later);
    var t := Step(s, p);
    assert t.pc.Draining? || t.pc.Stopping? || t.pc.Ended?;
    assert t.maintenance.None?;
  }

  lemma StoppingMeansRequested(runOnce: bool, retention: bool, today: nat, actions: seq<Action>)
    ensures var s := Run(Boot(runOnce, retention, today), actions); s.stopping <==> Has(s.log, StopRequested)
  {
    RunInv(runOnce, retention, today, actions);
  }

  // ---------------------------------------------------------------- the process

  lemma InvMeans(s: State)
    requires Inv(s)
    ensures InFlight(s.log) <= 1 && (s.stopping ==> s.pc != Sleeping(false))
  {
  }

  /** The module's variables, changed by the loop, the promise callbacks and the signal handlers. */
  class Process {
    const runOnce: bool
    const retention: bool
    var pc: Pc
    var stopping: bool
    var maintenance: Option<Task>
    var attempted: Option<nat>
    var wakeSet: bool
    var today: nat
    ghost var log: seq<Event>

    ghost function Model(): State
      reads this
    {
      State(pc, runOnce, retention, stopping, maintenance, attempted, wakeSet, today, log)
    }

    /** At most one task in flight, no timer awaited once a stop is requested, and the rest of the invariant. */
    ghost predicate Valid()
      reads this
    {
      Inv(Model())
    }

    constructor (runOnce: bool, retention: bool, today: nat)
      ensures Valid() && Model() == Boot(runOnce, retention, today)
    {
      this.runOnce, this.retention, this.today := runOnce, retention, today;
      pc, stopping, maintenance, attempted, wakeSet, log := Starting, false, None, None, false, [];
      new;
      RunInv(runOnce, retention, today, []);
    }

    method Record(e: Event)
      modifies this`log
      ensures Model() == Log(old(Model()), e)
    {
      log := log + [e];
    }

    method TestLoop()
      modifies this`pc, this`log
      ensures Model() == LoopTest(old(Model()))
    {
      if !runOnce && !stopping {
        Record(Evaluate);
        pc := Evaluating;
      } else {
        pc := Draining;
      }
    }

    method RunOn(due: bool, later: nat)
      requires pc.Evaluating?
      modifies this
      ensures Model() == Step(old(Model()), Proceed(true, due, later))
    {
      today := today + later;
      if maintenance.None? && due && attempted != Some(today) && retention {
        attempted := Some(today);
        Record(Launch(today));
        maintenance := Some(Task(today, false));
      }
      if !runOnce && !stopping {
        pc, wakeSet := Sleeping(false), true;
      } else {
        TestLoop();
      }
    }

    /** An evaluation has returned: everything up to the next await. */
    method OnEvaluated(due: bool, later: nat)
      requires Valid() && pc.Evaluating?
      modifies this
      ensures Model() == Step(old(Model()), Proceed(true, due, later))
      ensures Valid() && InFlight(log) <= 1 && (stopping ==> pc != Sleeping(false))
    {
      hide Inv, Step, InFlight;
      StepInv(Model(), Proceed(true, due, later));
      InvMeans(Step(Model(), Proceed(true, due, later)));
      RunOn(due, later);
    }

    /** The other awaited calls of `main`, and an evaluation that throws. */
    method OnAwaited(ok: bool)
      requires Valid() && !(pc.Evaluating? && ok)
      modifies this
      ensures Model() == Step(old(Model()), Proceed(ok, false, 0))
      ensures Valid() && (pc.Ended? && !old(pc.Ended?) ==> InFlight(log) == 0)
    {
      StepInv(Model(), Proceed(ok, false, 0));
      match pc
      case Starting =>
        if ok {
          Record(Evaluate);
          pc := Evaluating;
        } else {
          pc := Stopping;
        }
      case Evaluating => pc := Draining;
      case Sleeping(resolved) =>
        if resolved {
          TestLoop();
        }
      case Draining =>
        if maintenance.None? {
          pc := Stopping;
        }
      case Stopping =>
        Record(StopRecorded);
        pc := Ended;
      case Ended =>
    }

    /** `finish` inside `delay`, reached by the timer or through `wakeSleep`. */
    method FinishDelay()
      modifies this`pc, this`wakeSet
      ensures Model() == Wake(old(Model()))
    {
      wakeSet := false;
      if pc.Sleeping? {
        pc := Sleeping(true);
      }
    }

    method RequestStop()
      requires Valid()
      modifies this
      ensures Model() == Step(old(Model()), Signal)
      ensures Valid() && stopping && pc != Sleeping(false)
    {
      StepInv(Model(), Signal);
      Record(StopRequested);
      stopping := true;
      if wakeSet {
        FinishDelay();
      }
    }

    /** The `then` callback of the maintenance promise (or its `catch`). */
    method OnConcluded(notDue: bool)
      requires Valid() && maintenance.Some? && !maintenance.value.concluded
      modifies this
      ensures Model() == Step(old(Model()), TaskConcludes(notDue))
      ensures Valid() && attempted == (if notDue then None else old(attempted))
    {
      StepInv(Model(), TaskConcludes(notDue));
      Record(Conclude(maintenance.value.occurrence, notDue));
      if notDue {
        attempted := None;
      }
      maintenance := Some(Task(maintenance.value.occurrence, true));
    }

    /** The `finally` callback of the maintenance promise. */
    method OnCleared()
      requires Valid() && maintenance.Some? && maintenance.value.concluded
      modifies this
      ensures Model() == Step(old(Model()), TaskClears)
      ensures Valid() && InFlight(log) == 0
    {
      StepInv(Model(), TaskClears);
      Record(Clear);
      maintenance := None;
    }
  }
}
