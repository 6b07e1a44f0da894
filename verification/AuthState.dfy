/**
 * Any number of workers making sure that a saved sign-in exists, with a double-checked login under a directory
 * lock.
 */
module AuthState {
  import opened DirectoryLock

  const MAX_AGE_MS: nat := 28_800_000
  const TRUST_WINDOW_MS: nat := 900_000
  const LOCK_TIMEOUT_MS: nat := 30_000
  const LOCK_PAUSE_MS: nat := 250

  /** The saved storage state: when it was written, and whether it holds the account's complete session. */
  datatype SessionFile = Absent | Present(at: int, complete: bool)

  datatype Pc =
    | Idle
    | FirstCheck
    | Trying(start: int)
    | Sleeping(start: int, wake: int)
    | SecondCheck
    | LoggingIn
    | Releasing(ok: bool)
    | Returned
    | Threw

  datatype State = State(
    file: SessionFile, locked: bool, now: int, pcs: map<nat, Pc>, attempts: map<nat, nat>, logins: nat)

  /**
   * `verdict` is the answer of whatever a step asks: the unlocked check as a whole (another worker may be replacing
   * the file meanwhile), the profile page that the locked check opens for an older file, or whether a call fails.
   */
  datatype Action =
    | Call(worker: nat)
    | Advance(worker: nat, verdict: bool)
    | Tick(ms: nat)

  /** `hasUsableInssaAuthStorageState` on a file nobody is changing. */
  predicate Usable(file: SessionFile, now: int, profileOpens: bool) {
    file.Present? && now - file.at <= MAX_AGE_MS && file.complete
    && (now - file.at <= TRUST_WINDOW_MS || profileOpens)
  }

  predicate Inside(pc: Pc) {
    pc.SecondCheck? || pc.LoggingIn? || pc.Releasing?
  }

  predicate PastLock(pc: Pc) {
    Inside(pc) || pc.Returned? || pc.Threw?
  }

  function Set(s: State, i: nat, pc: Pc): State {
    s.(pcs := s.pcs[i := pc])
  }

  function TryLock(s: State, i: nat, start: int, granted: bool): State
    requires i in s.attempts
  {
    var s' := s.(attempts := s.attempts[i := s.attempts[i] + 1]);
    var result := if s.locked then Exists else if granted then Made else Refused;
    match Judge(result, s.now, start + LOCK_TIMEOUT_MS)
    case Stop(Acquired) => Set(s', i, SecondCheck).(locked := true)
    case Stop(_) => Set(s', i, Threw)
    case Retry => Set(s', i, Sleeping(start, s.now + LOCK_PAUSE_MS))
  }

  function AdvanceWorker(s: State, i: nat, verdict: bool): State
    requires i in s.pcs && i in s.attempts
  {
    match s.pcs[i]
    case Idle => s
    case FirstCheck => Set(s, i, if verdict then Returned else Trying(s.now))
    case Trying(start) => TryLock(s, i, start, verdict)
    case Sleeping(start, wake) => if s.now >= wake then Set(s, i, Trying(start)) else s
    case SecondCheck => Set(s, i, if Usable(s.file, s.now, verdict) then Releasing(true) else LoggingIn)
    case LoggingIn =>
      if verdict then Set(s, i, Releasing(true)).(file := Present(s.now, true), logins := s.logins + 1)
      else Set(s, i, Releasing(false))
    case Releasing(ok) => Set(s, i, if ok then Returned else Threw).(locked := false)
    case Returned => s
    case Threw => s
  }

  function Step(s: State, action: Action): State {
    match action
    case Call(i) => if i in s.pcs && s.pcs[i].Idle? then Set(s, i, FirstCheck) else s
    case Advance(i, verdict) => if i in s.pcs && i in s.attempts then AdvanceWorker(s, i, verdict) else s
    case Tick(ms) => s.(now := s.now + ms)
  }

  function Start(file: SessionFile, ids: set<nat>, now: int): State {
    State(file, false, now, map i | i in ids :: Idle, map i | i in ids :: 0, 0)
  }

  function Run(s: State, actions: seq<Action>): State {
    if actions == [] then s else Step(Run(s, actions[..|actions| - 1]), actions[|actions| - 1])
  }

  // ---------------------------------------------------------------- one step

  ghost predicate WorkerPatient(pc: Pc, attempts: nat, now: int) {
    match pc
    case Trying(start) => MayTry(attempts, now, start, LOCK_TIMEOUT_MS, LOCK_PAUSE_MS)
    case Sleeping(start, wake) => MayTry(attempts, wake, start, LOCK_TIMEOUT_MS, LOCK_PAUSE_MS)
    case _ => attempts <= if PastLock(pc) then MaxAttempts(LOCK_TIMEOUT_MS, LOCK_PAUSE_MS) else 0
  }

  ghost predicate Inv(s: State, begun: int) {
    && s.pcs.Keys == s.attempts.Keys && begun <= s.now
    && (s.locked <==> exists i :: i in s.pcs && Inside(s.pcs[i]))
    && (forall i, j :: i in s.pcs && j in s.pcs && Inside(s.pcs[i]) && Inside(s.pcs[j]) ==> i == j)
    && (forall i :: i in s.pcs ==> WorkerPatient(s.pcs[i], s.attempts[i], s.now))
    && (s.logins > 0 ==> s.file.Present? && s.file.complete && begun <= s.file.at)
  }

  /** How one step of worker i changes the shared state. */
  ghost predicate Crossing(s: State, s': State, i: nat)
    requires i in s.pcs && i in s'.pcs
  {
    var p, q := s.pcs[i], s'.pcs[i];
    && s'.pcs == s.pcs[i := q] && s'.attempts.Keys == s.attempts.Keys && s'.now == s.now
    && (forall j :: j in s.attempts && j != i ==> s'.attempts[j] == s.attempts[j])
    && (Inside(p) == Inside(q) ==> s'.locked == s.locked)
    && (!Inside(p) && Inside(q) ==> !s.locked && s'.locked && q.SecondCheck?)
    && (Inside(p) && !Inside(q) ==> !s'.locked)
    && (q.LoggingIn? ==> p.SecondCheck?)
    && (if p.LoggingIn? && q == Releasing(true) then s'.logins == s.logins + 1 && s'.file == Present(s.now, true)
        else s'.logins == s.logins && s'.file == s.file)
  }

  lemma AdvanceCrosses(s: State, i: nat, verdict: bool)
    requires i in s.pcs && i in s.attempts && WorkerPatient(s.pcs[i], s.attempts[i], s.now)
    ensures var s' := AdvanceWorker(s, i, verdict);
            Crossing(s, s', i) && WorkerPatient(s'.pcs[i], s'.attempts[i], s'.now)
  {
    assert s.pcs == s.pcs[i := s.pcs[i]];
    if s.pcs[i].Trying? {
      AttemptBound(s.attempts[i], s.now, s.pcs[i].start, LOCK_TIMEOUT_MS, LOCK_PAUSE_MS);
      if s.now <= s.pcs[i].start + LOCK_TIMEOUT_MS {
        RetryMayTry(s.attempts[i], s.now, s.pcs[i].start, LOCK_TIMEOUT_MS, LOCK_PAUSE_MS);
      }
    }
  }

  lemma CrossingInv(s: State, s': State, i: nat, begun: int)
    requires Inv(s, begun) && i in s.pcs && i in s'.pcs && Crossing(s, s', i)
    requires WorkerPatient(s'.pcs[i], s'.attempts[i], s'.now)
    ensures Inv(s', begun)
  {
    hide WorkerPatient;
    forall j | j in s'.pcs && j != i ensures s'.pcs[j] == s.pcs[j] {}
    if Inside(s'.pcs[i]) {
      assert i in s'.pcs;
    } else if s'.locked {
      var j :| j in s.pcs && Inside(s.pcs[j]);
      assert j in s'.pcs;
    }
  }

  lemma StepInv(s: State, action: Action, begun: int)
    requires Inv(s, begun)
    ensures Inv(Step(s, action), begun) && Step(s, action).pcs.Keys == s.pcs.Keys
  {
    match action
    case Call(i) =>
      if i in s.pcs && s.pcs[i].Idle? {
        CrossingInv(s, Step(s, action), i, begun);
      }
    case Advance(i, verdict) =>
      hide AdvanceWorker, Inside;
      if i in s.pcs {
        AdvanceCrosses(s, i, verdict);
        CrossingInv(s, Step(s, action), i, begun);
      }
    case Tick(_) =>
  }

  lemma {:induction false} RunInv(file: SessionFile, ids: set<nat>, now: int, actions: seq<Action>)
    ensures Inv(Run(Start(file, ids, now), actions), now) && Run(Start(file, ids, now), actions).pcs.Keys == ids
    decreases |actions|
  {
    if actions != [] {
      var before := actions[..|actions| - 1];
      RunInv(file, ids, now, before);
      StepInv(Run(Start(file, ids, now), before), actions[|actions| - 1], now);
    }
  }

  // ---------------------------------------------------------------- every run

  /** Two logins never overlap. */
  lemma LoginsNeverOverlap(file: SessionFile, ids: set<nat>, now: int, actions: seq<Action>, i: nat, j: nat)
    requires var s := Run(Start(file, ids, now), actions);
             i in s.pcs && j in s.pcs && s.pcs[i].LoggingIn? && s.pcs[j].LoggingIn?
    ensures i == j
  {
    RunInv(file, ids, now, actions);
  }

  /** Each waiter makes at most 122 attempts on the lock. */
  lemma AttemptsBounded(file: SessionFile, ids: set<nat>, now: int, actions: seq<Action>, i: nat)
    requires i in ids
    ensures i in Run(Start(file, ids, now), actions).attempts
    ensures Run(Start(file, ids, now), actions).attempts[i] <= 122
  {
    RunInv(file, ids, now, actions);
    var s := Run(Start(file, ids, now), actions);
    assert WorkerPatient(s.pcs[i], s.attempts[i], s.now);
    if s.pcs[i].Trying? {
      AttemptBound(s.attempts[i], s.now, s.pcs[i].start, LOCK_TIMEOUT_MS, LOCK_PAUSE_MS);
    } else if s.pcs[i].Sleeping? {
      AttemptBound(s.attempts[i], s.pcs[i].wake, s.pcs[i].start, LOCK_TIMEOUT_MS, LOCK_PAUSE_MS);
    }
  }

  /** Every locked check made after a login in this run finds the saved state usable. */
  predicate StaysUsable(s0: State, actions: seq<Action>) {
    actions == [] ||
    var before, action := actions[..|actions| - 1], actions[|actions| - 1];
    var s := Run(s0, before);
    StaysUsable(s0, before)
    && (action.Advance? && action.worker in s.pcs && s.pcs[action.worker].SecondCheck? && s.logins > 0
        ==> Usable(s.file, s.now, action.verdict))
  }

  ghost predicate OnceLoggedIn(s: State) {
    s.logins <= 1 && (s.logins == 1 ==> forall i :: i in s.pcs ==> !s.pcs[i].LoggingIn?)
  }

  lemma {:induction false} RunLogsInOnce(file: SessionFile, ids: set<nat>, now: int, actions: seq<Action>)
    requires StaysUsable(Start(file, ids, now), actions)
    ensures OnceLoggedIn(Run(Start(file, ids, now), actions))
    decreases |actions|
  {
    if actions != [] {
      var before, action := actions[..|actions| - 1], actions[|actions| - 1];
      RunLogsInOnce(file, ids, now, before);
      RunInv(file, ids, now, before);
      var s := Run(Start(file, ids, now), before);
      StepLogsInOnce(s, action, now);
    }
  }

  lemma StepLogsInOnce(s: State, action: Action, begun: int)
    requires Inv(s, begun) && OnceLoggedIn(s)
    requires action.Advance? && action.worker in s.pcs && s.pcs[action.worker].SecondCheck? && s.logins > 0
             ==> Usable(s.file, s.now, action.verdict)
    ensures OnceLoggedIn(Step(s, action))
  {
    if action.Advance? && action.worker in s.pcs {
      var i := action.worker;
      var s' := Step(s, action);
      forall j | j in s'.pcs && s'.logins == 1 ensures !s'.pcs[j].LoggingIn? {
        if s.pcs[i].LoggingIn? && j != i {
          assert !Inside(s.pcs[j]);
        }
      }
    }
  }

  /** While the saved state stays usable, at most one login completes. */
  lemma AtMostOneLogin(file: SessionFile, ids: set<nat>, now: int, actions: seq<Action>)
    requires StaysUsable(Start(file, ids, now), actions)
    ensures Run(Start(file, ids, now), actions).logins <= 1
  {
    RunLogsInOnce(file, ids, now, actions);
  }

  /** A run that ends within the trust window needs no help from the profile page. */
  lemma {:induction false} TrustWindowIsUsable(file: SessionFile, ids: set<nat>, now: int, actions: seq<Action>)
    requires Run(Start(file, ids, now), actions).now <= now + TRUST_WINDOW_MS
    ensures StaysUsable(Start(file, ids, now), actions)
    decreases |actions|
  {
    if actions != [] {
      var before := actions[..|actions| - 1];
      RunInv(file, ids, now, before);
      ClockForward(Run(Start(file, ids, now), before), actions[|actions| - 1]);
      TrustWindowIsUsable(file, ids, now, before);
    }
  }

  lemma ClockForward(s: State, action: Action)
    ensures s.now <= Step(s, action).now
  {
  }

  lemma OneLoginPerTrustWindow(file: SessionFile, ids: set<nat>, now: int, actions: seq<Action>)
    requires Run(Start(file, ids, now), actions).now <= now + TRUST_WINDOW_MS
    ensures Run(Start(file, ids, now), actions).logins <= 1
  {
    TrustWindowIsUsable(file, ids, now, actions);
    AtMostOneLogin(file, ids, now, actions);
  }

  // ---------------------------------------------------------------- without that assumption

  lemma RunPush(s: State, actions: seq<Action>, action: Action)
    ensures Run(s, actions + [action]) == Step(Run(s, actions), action)
  {
    assert (actions + [action])[..|actions|] == actions;
  }

  /** One worker alone: it finds nothing usable, takes the lock, logs in and returns. */
  lemma LogInAlone(s0: State, actions: seq<Action>, i: nat) returns (more: seq<Action>)
    requires var s := Run(s0, actions);
             i in s.pcs && i in s.attempts && s.pcs[i].Idle? && !s.locked && !Usable(s.file, s.now, false)
    ensures var s, t := Run(s0, actions), Run(s0, more);
            t.pcs == s.pcs[i := Returned] && t.attempts.Keys == s.attempts.Keys && !t.locked && t.now == s.now
            && t.logins == s.logins + 1 && t.file == Present(s.now, true)
  {
    RunPush(s0, actions, Call(i));
    more := actions + [Call(i)];
    RunPush(s0, more, Advance(i, false));
    more := more + [Advance(i, false)];
    RunPush(s0, more, Advance(i, true));
    more := more + [Advance(i, true)];
    RunPush(s0, more, Advance(i, false));
    more := more + [Advance(i, false)];
    RunPush(s0, more, Advance(i, true));
    more := more + [Advance(i, true)];
    RunPush(s0, more, Advance(i, true));
    more := more + [Advance(i, true)];
  }

  /** One millisecond past the trust window, a profile page that fails to open makes a second worker log in again. */
  lemma ExpiredTrustLogsInTwice(ids: set<nat>, now: int, a: nat, b: nat) returns (actions: seq<Action>)
    requires a in ids && b in ids && a != b
    ensures var s := Run(Start(Absent, ids, now), actions);
            s.logins == 2 && s.now == now + TRUST_WINDOW_MS + 1
  {
    hide Step;
    var s0 := Start(Absent, ids, now);
    assert Run(s0, []) == s0;
    actions := LogInAlone(s0, [], a);
    RunPush(s0, actions, Tick(TRUST_WINDOW_MS + 1));
    TickOnly(Run(s0, actions), TRUST_WINDOW_MS + 1);
    actions := actions + [Tick(TRUST_WINDOW_MS + 1)];
    actions := LogInAlone(s0, actions, b);
  }

  lemma TickOnly(s: State, ms: nat)
    ensures Step(s, Tick(ms)) == s.(now := s.now + ms)
  {
  }

  // ---------------------------------------------------------------- what a worker comes back with

  /** A worker that is done and has tried the lock found a complete saved state, or made one. */
  ghost predicate DoneComplete(s: State) {
    s.pcs.Keys == s.attempts.Keys
    && forall i :: i in s.pcs ==> WorkerComplete(s.pcs[i], s.attempts[i], s.file)
  }

  predicate WorkerComplete(pc: Pc, attempts: nat, file: SessionFile) {
    && (pc == Releasing(true) || (pc.Returned? && attempts > 0) ==> file.Present? && file.complete)
    && (pc.Idle? || pc.FirstCheck? ==> attempts == 0)
  }

  /** The saved state only ever becomes complete. */
  lemma AdvanceComplete(s: State, i: nat, verdict: bool)
    requires i in s.pcs && i in s.attempts && WorkerComplete(s.pcs[i], s.attempts[i], s.file)
    ensures var s' := AdvanceWorker(s, i, verdict);
            && s'.pcs == s.pcs[i := s'.pcs[i]] && s'.attempts == s.attempts[i := s'.attempts[i]]
            && WorkerComplete(s'.pcs[i], s'.attempts[i], s'.file)
            && (s.file.Present? && s.file.complete ==> s'.file.Present? && s'.file.complete)
  {
    assert s.pcs == s.pcs[i := s.pcs[i]] && s.attempts == s.attempts[i := s.attempts[i]];
  }

  lemma StepComplete(s: State, action: Action)
    requires DoneComplete(s)
    ensures DoneComplete(Step(s, action))
  {
    hide AdvanceWorker;
    if action.Advance? && action.worker in s.pcs {
      AdvanceComplete(s, action.worker, action.verdict);
    }
  }

  /** In every run, a worker that comes back through the lock leaves a complete saved state. */
  lemma {:induction false} ReturnsComplete(file: SessionFile, ids: set<nat>, now: int, actions: seq<Action>, i: nat)
    requires i in ids
    ensures var s := Run(Start(file, ids, now), actions);
            && i in s.pcs && i in s.attempts
            && (s.pcs[i] == Releasing(true) || (s.pcs[i].Returned? && s.attempts[i] > 0) ==>
                  s.file.Present? && s.file.complete)
  {
    RunComplete(file, ids, now, actions);
    RunInv(file, ids, now, actions);
  }

  lemma {:induction false} RunComplete(file: SessionFile, ids: set<nat>, now: int, actions: seq<Action>)
    ensures DoneComplete(Run(Start(file, ids, now), actions))
    decreases |actions|
  {
    if actions != [] {
      RunComplete(file, ids, now, actions[..|actions| - 1]);
      StepComplete(Run(Start(file, ids, now), actions[..|actions| - 1]), actions[|actions| - 1]);
    }
  }

  /**
   * The check under the lock spares the login iff the saved state is there, complete, at most eight hours old, and
   * either at most fifteen minutes old or good enough to open the profile page; otherwise it leads to a login.
   */
  lemma LockedCheckIff(s: State, i: nat, opens: bool)
    requires i in s.pcs && i in s.attempts && s.pcs[i].SecondCheck?
    ensures var q := Step(s, Advance(i, opens)).pcs[i];
            && (q == Releasing(true) <==>
                  && s.file.Present? && s.file.complete && s.now - s.file.at <= 28_800_000
                  && (s.now - s.file.at <= 900_000 || opens))
            && (q == Releasing(true) || q == LoggingIn)
  {
  }

  /** A login that succeeds saves a complete state of this moment; one that fails makes the worker throw. */
  lemma LoginSaves(s: State, i: nat, ok: bool)
    requires i in s.pcs && i in s.attempts && s.pcs[i].LoggingIn?
    ensures var go, t := Advance(i, true), Step(s, Advance(i, ok));
            && Step(t, go).pcs[i] == (if ok then Returned else Threw) && !Step(t, go).locked
            && t.file == (if ok then Present(s.now, true) else s.file)
  {
  }

  // ---------------------------------------------------------------- waiting

  /** Finding the lock held: another try after 250 ms, unless 30 seconds have passed since the first. */
  lemma HeldLockWaits(s: State, i: nat, verdict: bool)
    requires i in s.pcs && i in s.attempts && s.pcs[i].Trying? && s.locked
    ensures var q := Step(s, Advance(i, verdict)).pcs[i];
            q == if s.now > s.pcs[i].start + 30_000 then Threw else Sleeping(s.pcs[i].start, s.now + 250)
  {
  }

  lemma SleeperTriesAgain(s: State, i: nat, verdict: bool)
    requires i in s.pcs && i in s.attempts && s.pcs[i].Sleeping?
    ensures Step(s, Advance(i, verdict))
         == if s.now >= s.pcs[i].wake then s.(pcs := s.pcs[i := Trying(s.pcs[i].start)]) else s
  {
  }

  /** A waiter whose pause is over and whose lock is free goes on to a complete saved state, undisturbed. */
  lemma SleeperComesBack(s: State, i: nat)
    requires i in s.pcs && i in s.attempts && s.pcs[i].Sleeping? && s.now >= s.pcs[i].wake && !s.locked
    ensures var go := Advance(i, true);
            var t := Step(Step(Step(Step(Step(s, go), go), go), go), go);
            t.pcs[i] == Returned && t.file.Present? && t.file.complete && t.logins <= s.logins + 1
  {
    var go := Advance(i, true);
    SleeperTriesAgain(s, i, true);
    var s1 := Step(s, go);
    var s2 := Step(s1, go);
    assert s2.pcs[i] == SecondCheck && s2.file == s.file && s2.logins == s.logins && i in s2.attempts;
    var s3 := Step(s2, go);
    assert s3.pcs[i] == Releasing(true) ==> s3.file.Present? && s3.file.complete;
    assert s3.pcs[i] == Releasing(true) || s3.pcs[i] == LoggingIn;
    var s4 := Step(s3, go);
    assert s4.file.Present? && s4.file.complete && i in s4.attempts;
  }

  /** What can make a worker throw in one step. */
  predicate Blames(s: State, action: Action, i: nat) {
    action.Advance? && action.worker == i && i in s.pcs &&
    match s.pcs[i]
    case Trying(start) => if s.locked then s.now > start + 30_000 else !action.verdict
    case LoggingIn => !action.verdict
    case _ => false
  }

  lemma StepThrows(s: State, action: Action, i: nat)
    requires i in s.pcs && i in s.attempts
    requires var q := Step(s, action).pcs[i]; q.Threw? || q == Releasing(false)
    ensures s.pcs[i].Threw? || s.pcs[i] == Releasing(false) || Blames(s, action, i)
  {
  }

  /**
   * In every run, a worker throws only after a failed `mkdir`, a failed login, or a lock still held after 30 seconds.
   */
  lemma {:induction false} ThrowsOnlyWhen(file: SessionFile, ids: set<nat>, now: int, actions: seq<Action>, i: nat)
    requires i in ids && i in Run(Start(file, ids, now), actions).pcs
    requires var q := Run(Start(file, ids, now), actions).pcs[i]; q.Threw? || q == Releasing(false)
    ensures exists k :: 0 <= k < |actions| && Blames(Run(Start(file, ids, now), actions[..k]), actions[k], i)
    decreases |actions|
  {
    var n := |actions| - 1;
    var before := actions[..n];
    var s := Run(Start(file, ids, now), before);
    hide Step, Blames, Start;
    RunInv(file, ids, now, before);
    StepThrows(s, actions[n], i);
    if !Blames(s, actions[n], i) {
      ThrowsOnlyWhen(file, ids, now, before, i);
      var k :| 0 <= k < |before| && Blames(Run(Start(file, ids, now), before[..k]), before[k], i);
      assert before[..k] == actions[..k] && before[k] == actions[k];
    }
  }

  // ---------------------------------------------------------------- exactly when one login is enough

  /** A worker that has logged in is releasing the lock or gone. */
  ghost predicate LoggedInAndDone(s: State) {
    s.logins <= 1 && (s.logins == 1 ==> forall i :: i in s.pcs ==>
        s.pcs[i].Releasing? || s.pcs[i].Returned? || s.pcs[i].Threw?)
  }

  lemma StepAlone(s: State, action: Action)
    requires s.pcs.Keys == s.attempts.Keys && (forall i, j :: i in s.pcs && j in s.pcs ==> i == j) && LoggedInAndDone(s)
    ensures LoggedInAndDone(Step(s, action))
  {
    if action.Advance? && action.worker in s.pcs {
      hide WorkerPatient, Usable, Judge;
      assert forall i :: i in s.pcs ==> i == action.worker;
    }
  }

  lemma AtMostOne(ids: set<nat>)
    requires |ids| <= 1
    ensures forall i, j :: i in ids && j in ids ==> i == j
  {
    forall i, j | i in ids && j in ids ensures i == j {
      assert |ids - {i}| == |ids| - 1 == 0;
      assert j !in ids - {i};
    }
  }

  lemma {:induction false} RunAlone(file: SessionFile, ids: set<nat>, now: int, actions: seq<Action>)
    requires |ids| <= 1
    ensures LoggedInAndDone(Run(Start(file, ids, now), actions))
    decreases |actions|
  {
    if actions != [] {
      var before := actions[..|actions| - 1];
      RunAlone(file, ids, now, before);
      RunInv(file, ids, now, before);
      AtMostOne(ids);
      StepAlone(Run(Start(file, ids, now), before), actions[|actions| - 1]);
    }
  }

  /** No run of this length from the absence of a saved state logs in twice. */
  ghost predicate OneLoginWithin(ids: set<nat>, now: int, ms: nat) {
    forall actions ::
      var s := Run(Start(Absent, ids, now), actions);
      s.now <= now + ms ==> s.logins <= 1
  }

  /**
   * One login is enough for all workers exactly when the run is no longer than the trust window, or one works
   * alone.
   */
  lemma OneLoginIff(ids: set<nat>, now: int, ms: nat)
    ensures OneLoginWithin(ids, now, ms) <==> ms <= TRUST_WINDOW_MS || |ids| <= 1
  {
    hide Run, Start;
    if |ids| <= 1 {
      forall actions ensures Run(Start(Absent, ids, now), actions).logins <= 1 {
        RunAlone(Absent, ids, now, actions);
      }
    } else if ms <= TRUST_WINDOW_MS {
      forall actions | Run(Start(Absent, ids, now), actions).now <= now + ms
        ensures Run(Start(Absent, ids, now), actions).logins <= 1
      {
        OneLoginPerTrustWindow(Absent, ids, now, actions);
      }
    } else {
      var a :| a in ids;
      assert ids == {a} + (ids - {a});
      var b :| b in ids - {a};
      var actions := ExpiredTrustLogsInTwice(ids, now, a, b);
    }
  }
}
