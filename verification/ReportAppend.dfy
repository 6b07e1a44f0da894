/** Any number of test workers appending their result to one report file under a directory lock. */
module ReportAppend {
  import opened DirectoryLock

  const LOCK_TIMEOUT_MS: nat := 10_000
  const LOCK_PAUSE_MS: nat := 50

  /** An entry that was there before the run, or the record one worker appends. */
  datatype Entry = Earlier(text: string) | From(worker: nat)

  /** A blank file reads as an empty array, so it is `Content([])`. */
  datatype File = Missing | Corrupt | Content(entries: seq<Entry>)

  /** Where a worker is inside `finalize`. */
  datatype Pc =
    | Idle
    | Checking                                  // fs.access in ensureReportFile
    | SeedTruncate                              // it saw no file: writeFile("[]") opens it ...
    | SeedFill                                  // ... and fills it
    | Trying(start: int)
    | Sleeping(start: int, wake: int)
    | Reading
    | Truncating(existing: seq<Entry>)
    | Filling(existing: seq<Entry>)
    | Releasing(ok: bool)
    | Returned
    | Threw

  /** `acquired` and `committed` are history: who took the lock, and which of those turns wrote the file. */
  datatype State = State(
    file: File, locked: bool, now: int, pcs: map<nat, Pc>, attempts: map<nat, nat>,
    acquired: seq<nat>, committed: seq<int>)

  datatype Action =
    | Finalize(worker: nat)
    | Advance(worker: nat, fault: bool)         // fault: the file-system call of this step fails
    | Tick(ms: nat)

  function Entries(file: File): seq<Entry> {
    if file.Content? then file.entries else []
  }

  predicate Inside(pc: Pc) {
    pc.Reading? || pc.Truncating? || pc.Filling? || pc.Releasing?
  }

  predicate PastLock(pc: Pc) {
    Inside(pc) || pc.Returned? || pc.Threw?
  }

  predicate Seeding(pc: Pc) {
    pc.SeedTruncate? || pc.SeedFill?
  }

  function Set(s: State, i: nat, pc: Pc): State {
    s.(pcs := s.pcs[i := pc])
  }

  /** One `mkdir` call of the retry loop. */
  function TryLock(s: State, i: nat, start: int, fault: bool): State
    requires i in s.attempts
  {
    var s' := s.(attempts := s.attempts[i := s.attempts[i] + 1]);
    var result := if fault then Refused else if s.locked then Exists else Made;
    match Judge(result, s.now, start + LOCK_TIMEOUT_MS)
    case Stop(Acquired) => Set(s', i, Reading).(locked := true, acquired := s.acquired + [i])
    case Stop(_) => Set(s', i, Threw)
    case Retry => Set(s', i, Sleeping(start, s.now + LOCK_PAUSE_MS))
  }

  function AdvanceWorker(s: State, i: nat, fault: bool): State
    requires i in s.pcs && i in s.attempts
  {
    match s.pcs[i]
    case Idle => s
    case Checking =>
      if fault then Set(s, i, Threw)
      else Set(s, i, if s.file.Missing? then SeedTruncate else Trying(s.now))
    case SeedTruncate => Set(s, i, SeedFill).(file := Content([]))
    case SeedFill => Set(s, i, Trying(s.now)).(file := Content([]))
    case Trying(start) => TryLock(s, i, start, fault)
    case Sleeping(start, wake) => if s.now >= wake then Set(s, i, Trying(start)) else s
    case Reading =>
      if fault || s.file.Corrupt? then Set(s, i, Releasing(false)) else Set(s, i, Truncating(Entries(s.file)))
    case Truncating(existing) => Set(s, i, Filling(existing)).(file := Content([]))
    case Filling(existing) =>
      Set(s, i, Releasing(true)).(file := Content(existing + [From(i)]), committed := s.committed + [|s.acquired| - 1])
    case Releasing(ok) => Set(s, i, if ok then Returned else Threw).(locked := false)
    case Returned => s
    case Threw => s
  }

  function Step(s: State, action: Action): State {
    match action
    // The `finalized` flag: a second call returns without doing anything.
    case Finalize(i) => if i in s.pcs && s.pcs[i].Idle? then Set(s, i, Checking) else s
    case Advance(i, fault) => if i in s.pcs && i in s.attempts then AdvanceWorker(s, i, fault) else s
    case Tick(ms) => s.(now := s.now + ms)
  }

  function Start(file: File, ids: set<nat>, now: int): State {
    State(file, false, now, map i | i in ids :: Idle, map i | i in ids :: 0, [], [])
  }

  function Run(s: State, actions: seq<Action>): State {
    if actions == [] then s else Step(Run(s, actions[..|actions| - 1]), actions[|actions| - 1])
  }

  // ---------------------------------------------------------------- the lock

  ghost predicate Exclusive(s: State) {
    && s.pcs.Keys == s.attempts.Keys
    && (s.locked <==> exists i :: i in s.pcs && Inside(s.pcs[i]))
    && (forall i, j :: i in s.pcs && j in s.pcs && Inside(s.pcs[i]) && Inside(s.pcs[j]) ==> i == j)
  }

  /** How one step of worker i moves it across the lock. */
  ghost predicate Crossing(s: State, s': State, i: nat)
    requires i in s.pcs && i in s'.pcs
  {
    var p, q := s.pcs[i], s'.pcs[i];
    && s'.pcs == s.pcs[i := q] && s'.attempts.Keys == s.attempts.Keys
    && (Inside(p) == Inside(q) ==> s'.locked == s.locked && s'.acquired == s.acquired)
    && (!Inside(p) && Inside(q) ==>
        p.Trying? && q.Reading? && !s.locked && s'.locked && s'.acquired == s.acquired + [i])
    && (Inside(p) && !Inside(q) ==> p.Releasing? && !s'.locked && s'.acquired == s.acquired)
    && (p.Filling? ==> q == Releasing(true) && s'.committed == s.committed + [|s.acquired| - 1])
    && (!p.Filling? ==> s'.committed == s.committed)
    && (PastLock(p) ==> PastLock(q))
    && (q.Returned? || q == Releasing(true) ==> q == p || p.Filling? || p == Releasing(true))
    && (Inside(q) && !q.Releasing? ==> p.Trying? || (Inside(p) && !p.Releasing? && !p.Filling?))
  }

  lemma AdvanceCrosses(s: State, i: nat, fault: bool)
    requires i in s.pcs && i in s.attempts
    ensures i in AdvanceWorker(s, i, fault).pcs
    ensures Crossing(s, AdvanceWorker(s, i, fault), i)
  {
    hide AdvanceWorker, Crossing;
    if Inside(s.pcs[i]) {
      InsideCrosses(s, i, fault);
    } else if s.pcs[i].Trying? {
      TryingCrosses(s, i, fault);
    } else {
      OutsideCrosses(s, i, fault);
    }
  }

  lemma InsideCrosses(s: State, i: nat, fault: bool)
    requires i in s.pcs && i in s.attempts && Inside(s.pcs[i])
    ensures i in AdvanceWorker(s, i, fault).pcs
    ensures Crossing(s, AdvanceWorker(s, i, fault), i)
  {
    hide TryLock;
  }

  lemma TryingCrosses(s: State, i: nat, fault: bool)
    requires i in s.pcs && i in s.attempts && s.pcs[i].Trying?
    ensures i in AdvanceWorker(s, i, fault).pcs
    ensures Crossing(s, AdvanceWorker(s, i, fault), i)
  {
  }

  lemma OutsideCrosses(s: State, i: nat, fault: bool)
    requires i in s.pcs && i in s.attempts && !Inside(s.pcs[i]) && !s.pcs[i].Trying?
    ensures i in AdvanceWorker(s, i, fault).pcs
    ensures Crossing(s, AdvanceWorker(s, i, fault), i)
  {
    hide TryLock;
    assert s.pcs == s.pcs[i := s.pcs[i]];
  }

  lemma CrossingExclusive(s: State, s': State, i: nat)
    requires Exclusive(s) && i in s.pcs && i in s'.pcs && Crossing(s, s', i)
    ensures Exclusive(s')
  {
    forall j | j in s'.pcs && j != i ensures s'.pcs[j] == s.pcs[j] {}
    if Inside(s'.pcs[i]) {
      assert i in s'.pcs;
    } else if s'.locked {
      var j :| j in s.pcs && Inside(s.pcs[j]);
      assert j in s'.pcs;
    }
  }

  lemma FinalizeCrosses(s: State, i: nat)
    requires i in s.pcs && i in s.attempts && s.pcs[i].Idle?
    ensures Crossing(s, Step(s, Finalize(i)), i)
  {
  }

  lemma StepExclusive(s: State, action: Action)
    requires Exclusive(s)
    ensures Exclusive(Step(s, action))
  {
    hide AdvanceWorker, Crossing, Inside;
    match action
    case Finalize(i) =>
      if i in s.pcs && s.pcs[i].Idle? {
        FinalizeCrosses(s, i);
        CrossingExclusive(s, Step(s, action), i);
      }
    case Advance(i, fault) =>
      if i in s.pcs {
        AdvanceCrosses(s, i, fault);
        CrossingExclusive(s, Step(s, action), i);
      }
    case Tick(_) =>
  }

  /** What the waiting of one worker has cost so far. */
  ghost predicate WorkerPatient(pc: Pc, attempts: nat, now: int) {
    match pc
    case Trying(start) => MayTry(attempts, now, start, LOCK_TIMEOUT_MS, LOCK_PAUSE_MS)
    case Sleeping(start, wake) => MayTry(attempts, wake, start, LOCK_TIMEOUT_MS, LOCK_PAUSE_MS)
    case _ => attempts <= if PastLock(pc) then MaxAttempts(LOCK_TIMEOUT_MS, LOCK_PAUSE_MS) else 0
  }

  ghost predicate Patient(s: State) {
    s.pcs.Keys == s.attempts.Keys && forall i :: i in s.pcs ==> WorkerPatient(s.pcs[i], s.attempts[i], s.now)
  }

  lemma AdvancePatient(s: State, i: nat, fault: bool)
    requires i in s.pcs && i in s.attempts && WorkerPatient(s.pcs[i], s.attempts[i], s.now)
    ensures var s' := AdvanceWorker(s, i, fault);
            s'.now == s.now && s'.attempts == s.attempts[i := s'.attempts[i]]
            && WorkerPatient(s'.pcs[i], s'.attempts[i], s'.now)
  {
    assert s.attempts == s.attempts[i := s.attempts[i]];
    if s.pcs[i].Trying? {
      TryingPatient(s, i, fault);
    } else {
      hide TryLock, MaxAttempts, MayTry;
    }
  }

  lemma TryingPatient(s: State, i: nat, fault: bool)
    requires i in s.pcs && i in s.attempts && s.pcs[i].Trying? && WorkerPatient(s.pcs[i], s.attempts[i], s.now)
    ensures var s' := AdvanceWorker(s, i, fault);
            s'.now == s.now && s'.attempts == s.attempts[i := s'.attempts[i]]
            && WorkerPatient(s'.pcs[i], s'.attempts[i], s'.now)
  {
    AttemptBound(s.attempts[i], s.now, s.pcs[i].start, LOCK_TIMEOUT_MS, LOCK_PAUSE_MS);
    if s.now <= s.pcs[i].start + LOCK_TIMEOUT_MS {
      RetryMayTry(s.attempts[i], s.now, s.pcs[i].start, LOCK_TIMEOUT_MS, LOCK_PAUSE_MS);
    }
    hide MaxAttempts, MayTry;
  }

  lemma StepPatient(s: State, action: Action)
    requires Patient(s)
    ensures Patient(Step(s, action)) && Step(s, action).pcs.Keys == s.pcs.Keys
  {
    hide AdvanceWorker;
    if action.Advance? && action.worker in s.pcs {
      AdvancePatient(s, action.worker, action.fault);
      AdvanceCrosses(s, action.worker, action.fault);
    }
  }

  /** No waiter makes more than 202 `mkdir` attempts, in any run of any number of workers. */
  lemma {:induction false} AttemptsBounded(file: File, ids: set<nat>, now: int, actions: seq<Action>, i: nat)
    requires i in ids
    ensures i in Run(Start(file, ids, now), actions).attempts
    ensures Run(Start(file, ids, now), actions).attempts[i] <= 202
  {
    RunPatient(file, ids, now, actions);
    var s := Run(Start(file, ids, now), actions);
    if s.pcs[i].Trying? {
      AttemptBound(s.attempts[i], s.now, s.pcs[i].start, LOCK_TIMEOUT_MS, LOCK_PAUSE_MS);
    } else if s.pcs[i].Sleeping? {
      AttemptBound(s.attempts[i], s.pcs[i].wake, s.pcs[i].start, LOCK_TIMEOUT_MS, LOCK_PAUSE_MS);
    }
  }

  lemma {:induction false} RunPatient(file: File, ids: set<nat>, now: int, actions: seq<Action>)
    ensures Patient(Run(Start(file, ids, now), actions)) && Run(Start(file, ids, now), actions).pcs.Keys == ids
    decreases |actions|
  {
    if actions != [] {
      RunPatient(file, ids, now, actions[..|actions| - 1]);
      StepPatient(Run(Start(file, ids, now), actions[..|actions| - 1]), actions[|actions| - 1]);
    }
  }

  // ---------------------------------------------------------------- the report

  /** The records written so far, in the order in which their writers took the lock. */
  function Written(s: State): seq<Entry>
    requires forall k :: 0 <= k < |s.committed| ==> 0 <= s.committed[k] < |s.acquired|
  {
    seq(|s.committed|, k requires 0 <= k < |s.committed| => From(s.acquired[s.committed[k]]))
  }

  ghost predicate Turns(s: State) {
    && (forall k :: 0 <= k < |s.committed| ==> 0 <= s.committed[k] < |s.acquired|)
    && (forall j, k :: 0 <= j < k < |s.committed| ==> s.committed[j] < s.committed[k])
    && (forall j, k :: 0 <= j < k < |s.acquired| ==> s.acquired[j] != s.acquired[k])
    && (forall k :: 0 <= k < |s.acquired| ==> s.acquired[k] in s.pcs && PastLock(s.pcs[s.acquired[k]]))
    && (forall i :: i in s.pcs && Inside(s.pcs[i]) ==> |s.acquired| > 0 && s.acquired[|s.acquired| - 1] == i)
    && (forall i :: i in s.pcs && Inside(s.pcs[i]) && !s.pcs[i].Releasing? ==>
          forall k :: 0 <= k < |s.committed| ==> s.committed[k] < |s.acquired| - 1)
  }

  /** Turn `t` was worker i's, and it wrote the report. */
  ghost predicate Wrote(s: State, i: nat) {
    exists k :: 0 <= k < |s.committed| && 0 <= s.committed[k] < |s.acquired| && s.acquired[s.committed[k]] == i
  }

  ghost predicate Honest(s: State) {
    forall i :: i in s.pcs && (s.pcs[i].Returned? || s.pcs[i] == Releasing(true)) ==> Wrote(s, i)
  }

  /** Nobody seeds the file while anything may have been appended. */
  ghost predicate NoRace(s: State) {
    forall i :: i in s.pcs && (Seeding(s.pcs[i]) || s.file.Missing?) ==> s.pcs.Keys == {i}
  }

  ghost predicate WorkerFile(pc: Pc, file: File, report: seq<Entry>, earlier: seq<Entry>) {
    && (pc.Truncating? || pc.Filling? ==> pc.existing == report && !file.Corrupt?)
    && (Seeding(pc) ==> earlier == [] && !file.Corrupt?)
  }

  predicate AnyFilling(s: State) {
    exists i :: i in s.pcs && s.pcs[i].Filling?
  }

  /** Unless a writer has just truncated it, the file holds what was there before and what was written since. */
  ghost predicate FileOk(s: State, earlier: seq<Entry>)
    requires Turns(s)
  {
    && (forall i :: i in s.pcs ==> WorkerFile(s.pcs[i], s.file, earlier + Written(s), earlier))
    && (AnyFilling(s) || s.file.Corrupt? || Entries(s.file) == earlier + Written(s))
    && (s.file.Missing? ==> earlier == [])
    && (s.file.Corrupt? ==> s.committed == [])
  }

  ghost predicate Lossless(s: State, earlier: seq<Entry>) {
    Exclusive(s) && Turns(s) && Honest(s) && NoRace(s) && FileOk(s, earlier)
  }

  lemma CrossingTurns(s: State, s': State, i: nat)
    requires Exclusive(s) && Turns(s) && i in s.pcs && i in s'.pcs && Crossing(s, s', i)
    ensures Turns(s')
  {
    if !Inside(s.pcs[i]) && Inside(s'.pcs[i]) {
      assert forall k :: 0 <= k < |s.acquired| ==> s.acquired[k] != i;
    }
  }

  lemma CrossingHonest(s: State, s': State, i: nat)
    requires Exclusive(s) && Turns(s) && Honest(s) && i in s.pcs && i in s'.pcs && Crossing(s, s', i)
    ensures Honest(s')
  {
    hide Exclusive;
    forall j | j in s'.pcs && (s'.pcs[j].Returned? || s'.pcs[j] == Releasing(true)) ensures Wrote(s', j) {
      if j == i && s.pcs[i].Filling? {
        hide Honest, Inside;
        var k := |s.committed|;
        assert s'.committed[k] == |s.acquired| - 1 && s'.acquired[s'.committed[k]] == i;
      } else {
        hide Turns;
        assert Wrote(s, j);
        WroteStays(s, s', j);
      }
    }
  }

  lemma WroteStays(s: State, s': State, j: nat)
    requires Wrote(s, j) && s.acquired <= s'.acquired && s.committed <= s'.committed
    ensures Wrote(s', j)
  {
    var k :| 0 <= k < |s.committed| && 0 <= s.committed[k] < |s.acquired| && s.acquired[s.committed[k]] == j;
    assert s'.committed[k] == s.committed[k] && s'.acquired[s'.committed[k]] == j;
  }

  lemma AdvanceNoRace(s: State, i: nat, fault: bool)
    requires NoRace(s) && i in s.pcs && i in s.attempts
    ensures NoRace(AdvanceWorker(s, i, fault))
  {
    var s' := AdvanceWorker(s, i, fault);
    AdvanceSeeds(s, i, fault);
    hide AdvanceWorker;
    forall j | j in s'.pcs && (Seeding(s'.pcs[j]) || s'.file.Missing?) ensures s'.pcs.Keys == {j} {
      assert j in s.pcs;
    }
  }

  lemma AdvanceSeeds(s: State, i: nat, fault: bool)
    requires i in s.pcs && i in s.attempts
    ensures var s' := AdvanceWorker(s, i, fault);
            && s'.pcs == s.pcs[i := s'.pcs[i]]
            && (s'.file.Missing? ==> s.file.Missing?)
            && (Seeding(s'.pcs[i]) ==> Seeding(s.pcs[i]) || s.file.Missing?)
  {
    hide TryLock;
    assert s.pcs == s.pcs[i := s.pcs[i]];
    if s.pcs[i].Trying? {
      TryLockKeeps(s, i, s.pcs[i].start, fault);
    }
  }

  lemma TryLockKeeps(s: State, i: nat, start: int, fault: bool)
    requires i in s.pcs && i in s.attempts
    ensures var s' := TryLock(s, i, start, fault);
            s'.pcs == s.pcs[i := s'.pcs[i]] && s'.file == s.file && !Seeding(s'.pcs[i])
  {
  }

  /** Turns already taken are written the same whatever is acquired later. */
  lemma WrittenKept(s: State, s': State)
    requires Turns(s) && Turns(s') && s'.committed == s.committed && s.acquired <= s'.acquired
    ensures Written(s') == Written(s)
  {
  }

  /** The only worker that matters for the file: all others neither hold the lock nor seed. */
  ghost predicate Alone(s: State, i: nat) {
    forall j :: j in s.pcs && j != i ==> !Inside(s.pcs[j]) && !Seeding(s.pcs[j])
  }

  lemma AloneFile(s: State, s': State, i: nat, earlier: seq<Entry>)
    requires Turns(s') && i in s.pcs && i in s'.pcs && s'.pcs == s.pcs[i := s'.pcs[i]] && Alone(s, i)
    requires WorkerFile(s'.pcs[i], s'.file, earlier + Written(s'), earlier)
    requires s'.pcs[i].Filling? || s'.file.Corrupt? || Entries(s'.file) == earlier + Written(s')
    requires (s'.file.Missing? ==> earlier == []) && (s'.file.Corrupt? ==> s'.committed == [])
    ensures FileOk(s', earlier)
  {
    hide Written, Turns;
    assert i in s'.pcs;
  }

  lemma AloneFilling(s: State, i: nat)
    requires Alone(s, i)
    ensures AnyFilling(s) <==> i in s.pcs && s.pcs[i].Filling?
  {
  }

  lemma InsideFile(s: State, i: nat, fault: bool, earlier: seq<Entry>)
    requires Turns(s) && FileOk(s, earlier) && i in s.pcs && i in s.attempts && Inside(s.pcs[i]) && Alone(s, i)
    requires Turns(AdvanceWorker(s, i, fault))
    ensures FileOk(AdvanceWorker(s, i, fault), earlier)
  {
    var s' := AdvanceWorker(s, i, fault);
    AloneFilling(s, i);
    assert WorkerFile(s.pcs[i], s.file, earlier + Written(s), earlier);
    if s.pcs[i].Filling? {
      FillWrites(s, s', i, fault);
      assert earlier + Written(s) + [From(i)] == earlier + Written(s');
    } else {
      WrittenKept(s, s');
    }
    AloneFile(s, s', i, earlier);
  }

  lemma FillWrites(s: State, s': State, i: nat, fault: bool)
    requires Turns(s) && Turns(s') && i in s.pcs && i in s.attempts && s.pcs[i].Filling?
    requires s' == AdvanceWorker(s, i, fault)
    ensures Written(s') == Written(s) + [From(i)]
  {
  }

  lemma SomeTurn(s: State) returns (w: nat)
    requires Turns(s) && s.acquired != []
    ensures w in s.pcs && PastLock(s.pcs[w])
  {
    w := s.acquired[0];
  }

  lemma SomeCommit(s: State)
    requires Turns(s) && s.committed != []
    ensures s.acquired != []
  {
    assert 0 <= s.committed[0] < |s.acquired|;
  }

  lemma SeedingFile(s: State, i: nat, fault: bool, earlier: seq<Entry>)
    requires Turns(s) && FileOk(s, earlier) && i in s.pcs && i in s.attempts && Seeding(s.pcs[i]) && s.pcs.Keys == {i}
    requires Turns(AdvanceWorker(s, i, fault))
    ensures FileOk(AdvanceWorker(s, i, fault), earlier)
  {
    var s' := AdvanceWorker(s, i, fault);
    if s.acquired != [] {
      var w := SomeTurn(s);
    }
    if s.committed != [] {
      SomeCommit(s);
    }
    assert Written(s') == [];
    AloneFile(s, s', i, earlier);
  }

  lemma OutsideStep(s: State, i: nat, fault: bool)
    requires i in s.pcs && i in s.attempts && !Inside(s.pcs[i]) && !Seeding(s.pcs[i])
    ensures var s' := AdvanceWorker(s, i, fault);
            && s'.file == s.file && s'.pcs == s.pcs[i := s'.pcs[i]] && s'.committed == s.committed
                && s.acquired <= s'.acquired
            && !s'.pcs[i].Filling? && !s'.pcs[i].Truncating? && (Seeding(s'.pcs[i]) ==> s.file.Missing?)
  {
    assert s.pcs == s.pcs[i := s.pcs[i]];
  }

  lemma OutsideFile(s: State, i: nat, fault: bool, earlier: seq<Entry>)
    requires Turns(s) && FileOk(s, earlier) && i in s.pcs && i in s.attempts && !Inside(s.pcs[i]) && !Seeding(s.pcs[i])
    requires Turns(AdvanceWorker(s, i, fault)) && (s.file.Missing? ==> earlier == [])
    ensures FileOk(AdvanceWorker(s, i, fault), earlier)
  {
    var s' := AdvanceWorker(s, i, fault);
    OutsideStep(s, i, fault);
    hide Turns, Written, AdvanceWorker;
    WrittenKept(s, s');
    if AnyFilling(s) {
      var j :| j in s.pcs && s.pcs[j].Filling?;
      assert j in s'.pcs && s'.pcs[j].Filling?;
    }
  }

  lemma InsideIsAlone(s: State, i: nat)
    requires Exclusive(s) && NoRace(s) && i in s.pcs && Inside(s.pcs[i])
    ensures Alone(s, i)
  {
    forall j | j in s.pcs && j != i ensures !Seeding(s.pcs[j]) {
      assert i in s.pcs.Keys;
    }
  }

  lemma AdvanceFile(s: State, i: nat, fault: bool, earlier: seq<Entry>)
    requires Lossless(s, earlier) && i in s.pcs && i in s.attempts
    requires Turns(AdvanceWorker(s, i, fault))
    ensures FileOk(AdvanceWorker(s, i, fault), earlier)
  {
    hide AdvanceWorker, Turns, FileOk, Exclusive, Honest;
    if Inside(s.pcs[i]) {
      InsideIsAlone(s, i);
      InsideFile(s, i, fault, earlier);
    } else if Seeding(s.pcs[i]) {
      SeedingFile(s, i, fault, earlier);
    } else {
      assert s.file.Missing? ==> earlier == [] by {
        MissingIsEmpty(s, earlier);
      }
      OutsideFile(s, i, fault, earlier);
    }
  }

  lemma MissingIsEmpty(s: State, earlier: seq<Entry>)
    requires Turns(s) && FileOk(s, earlier)
    ensures s.file.Missing? ==> earlier == []
  {
  }

  lemma StepLossless(s: State, action: Action, earlier: seq<Entry>)
    requires Lossless(s, earlier)
    ensures Lossless(Step(s, action), earlier)
  {
    hide AdvanceWorker, Crossing, Turns, Honest, Exclusive, FileOk, NoRace;
    StepExclusive(s, action);
    match action
    case Finalize(i) =>
      FinalizeLossless(s, i, earlier);
    case Advance(i, fault) =>
      if i in s.pcs && i in s.attempts {
        AdvanceCrosses(s, i, fault);
        CrossingTurns(s, Step(s, action), i);
        CrossingHonest(s, Step(s, action), i);
        AdvanceNoRace(s, i, fault);
        AdvanceFile(s, i, fault, earlier);
      }
    case Tick(ms) =>
      TickLossless(s, ms, earlier);
  }

  lemma FinalizeLossless(s: State, i: nat, earlier: seq<Entry>)
    requires Lossless(s, earlier)
    ensures Lossless(Step(s, Finalize(i)), earlier)
  {
    var s' := Step(s, Finalize(i));
    if i in s.pcs && s.pcs[i].Idle? {
      FinalizeCrosses(s, i);
      assert s' == s.(pcs := s.pcs[i := Checking]);
      hide Step, Crossing, Exclusive, Turns, Honest, NoRace, FileOk;
      CrossingExclusive(s, s', i);
      CrossingTurns(s, s', i);
      CrossingHonest(s, s', i);
      CheckingRaces(s, i);
      CheckingFile(s, i, earlier);
    }
  }

  lemma CheckingRaces(s: State, i: nat)
    requires NoRace(s) && i in s.pcs
    ensures NoRace(s.(pcs := s.pcs[i := Checking]))
  {
  }

  lemma CheckingFile(s: State, i: nat, earlier: seq<Entry>)
    requires i in s.pcs && s.pcs[i].Idle? && Turns(s) && FileOk(s, earlier) && Turns(s.(pcs := s.pcs[i := Checking]))
    ensures FileOk(s.(pcs := s.pcs[i := Checking]), earlier)
  {
    var s' := s.(pcs := s.pcs[i := Checking]);
    WrittenKept(s, s');
    hide Turns, Written;
    if AnyFilling(s) {
      var j :| j in s.pcs && s.pcs[j].Filling?;
      assert j in s'.pcs && s'.pcs[j].Filling?;
    }
  }

  lemma TickLossless(s: State, ms: nat, earlier: seq<Entry>)
    requires Lossless(s, earlier)
    ensures Lossless(Step(s, Tick(ms)), earlier)
  {
    hide Exclusive, Turns, Honest, NoRace, FileOk;
    TickHonest(s, ms);
    TickFile(s, ms, earlier);
  }

  lemma TickHonest(s: State, ms: nat)
    requires Exclusive(s) && Turns(s) && Honest(s) && NoRace(s)
    ensures var s' := Step(s, Tick(ms)); Exclusive(s') && Turns(s') && Honest(s') && NoRace(s')
  {
    var s' := Step(s, Tick(ms));
    assert Exclusive(s') by { hide Turns, Honest, NoRace, Wrote; }
    assert Turns(s') by { hide Exclusive, Honest, NoRace, Wrote; }
    assert NoRace(s') by { hide Exclusive, Honest, Turns, Wrote; }
    hide Exclusive, Turns, NoRace;
    forall i | i in s'.pcs && (s'.pcs[i].Returned? || s'.pcs[i] == Releasing(true)) ensures Wrote(s', i) {
      assert Wrote(s, i);
    }
  }

  lemma TickFile(s: State, ms: nat, earlier: seq<Entry>)
    requires Turns(s) && FileOk(s, earlier) && Turns(Step(s, Tick(ms)))
    ensures FileOk(Step(s, Tick(ms)), earlier)
  {
    var s' := Step(s, Tick(ms));
    WrittenKept(s, s');
    hide Turns, Written;
    assert AnyFilling(s) <==> AnyFilling(s');
  }

  // ---------------------------------------------------------------- every run

  predicate SafeStart(file: File, ids: set<nat>) {
    !file.Missing? || |ids| <= 1
  }

  lemma StartLossless(file: File, ids: set<nat>, now: int)
    requires SafeStart(file, ids)
    ensures Lossless(Start(file, ids, now), Entries(file))
  {
    var s := Start(file, ids, now);
    forall i | i in ids && file.Missing? ensures ids == {i} {
      SingletonOf(ids, i);
    }
    assert Entries(file) + Written(s) == Entries(file);
  }

  lemma SingletonOf(ids: set<nat>, i: nat)
    requires i in ids && |ids| <= 1
    ensures ids == {i}
  {
    assert |ids - {i}| == 0;
  }

  lemma {:induction false} RunLossless(file: File, ids: set<nat>, now: int, actions: seq<Action>)
    requires SafeStart(file, ids)
    ensures Lossless(Run(Start(file, ids, now), actions), Entries(file))
    decreases |actions|
  {
    hide Lossless;
    if actions == [] {
      StartLossless(file, ids, now);
    } else {
      var before := actions[..|actions| - 1];
      RunLossless(file, ids, now, before);
      StepLossless(Run(Start(file, ids, now), before), actions[|actions| - 1], Entries(file));
    }
  }

  lemma {:induction false} CountOnce<T>(q: seq<T>, k: nat)
    requires k < |q| && forall i, j :: 0 <= i < j < |q| ==> q[i] != q[j]
    ensures multiset(q)[q[k]] == 1
  {
    var left, right := q[..k], q[k + 1..];
    assert q == left + [q[k]] + right;
    assert q[k] !in left && q[k] !in right;
  }

  /** The report is intact: earlier entries, then each committed record, and worker i's exactly once if it returned. */
  ghost predicate Intact(s: State, earlier: seq<Entry>) {
    && Turns(s)
    && (s.file.Corrupt? || Entries(s.file) == earlier + Written(s))
    && (forall i :: i in s.pcs && s.pcs[i].Returned? ==> !s.file.Corrupt? && multiset(Written(s))[From(i)] == 1)
  }

  /**
   * When the file exists before the workers start (or there is only one of them), then whenever no writer has just
   * truncated it, the report is the earlier entries followed by the committed records in lock order, and every
   * append that has returned is among them exactly once.
   */
  lemma AppendsSurvive(file: File, ids: set<nat>, now: int, actions: seq<Action>)
    requires SafeStart(file, ids)
    ensures var s := Run(Start(file, ids, now), actions); AnyFilling(s) || Intact(s, Entries(file))
  {
    RunLossless(file, ids, now, actions);
    var s := Run(Start(file, ids, now), actions);
    hide Run, SafeStart, NoRace, Exclusive;
    forall i | i in s.pcs && s.pcs[i].Returned? && !AnyFilling(s)
      ensures !s.file.Corrupt? && multiset(Written(s))[From(i)] == 1
    {
      assert Wrote(s, i);
      WrittenOnce(s, i);
    }
  }

  lemma WrittenOnce(s: State, i: nat)
    requires Turns(s) && Wrote(s, i)
    ensures s.committed != [] && multiset(Written(s))[From(i)] == 1
  {
    var k :| 0 <= k < |s.committed| && 0 <= s.committed[k] < |s.acquired| && s.acquired[s.committed[k]] == i;
    assert Written(s)[k] == From(i);
    CountOnce(Written(s), k);
  }

  // ---------------------------------------------------------------- waiting and giving up

  /** Finding the lock held: another try after 50 ms, unless 10 seconds have passed since the first. */
  lemma HeldLockWaits(s: State, i: nat)
    requires i in s.pcs && i in s.attempts && s.pcs[i].Trying? && s.locked
    ensures var t := Step(s, Advance(i, false));
            && t.pcs[i] == (if s.now > s.pcs[i].start + 10_000 then Threw else Sleeping(s.pcs[i].start, s.now + 50))
            && t.file == s.file && t.locked && i in t.attempts && t.attempts[i] == s.attempts[i] + 1
  {
  }

  /** A waiter whose pause is over tries the lock again. */
  lemma SleeperTriesAgain(s: State, i: nat, fault: bool)
    requires i in s.pcs && i in s.attempts && s.pcs[i].Sleeping?
    ensures Step(s, Advance(i, fault))
         == if s.now >= s.pcs[i].wake then s.(pcs := s.pcs[i := Trying(s.pcs[i].start)]) else s
  {
  }

  /** A waiter whose pause is over and whose lock is free appends its record in its next undisturbed steps. */
  lemma SleeperAppends(s: State, i: nat)
    requires i in s.pcs && i in s.attempts && s.pcs[i].Sleeping? && s.now >= s.pcs[i].wake
    requires !s.locked && !s.file.Corrupt?
    ensures var go := Advance(i, false);
            var t := Step(Step(Step(Step(Step(Step(s, go), go), go), go), go), go);
            t.pcs == s.pcs[i := Returned] && !t.locked && t.file == Content(Entries(s.file) + [From(i)])
  {
    var s1 := Step(s, Advance(i, false));
    SleeperTriesAgain(s, i, false);
    UndisturbedTurn(s1, i);
    hide Step;
    assert s1.pcs[i := Returned] == s.pcs[i := Returned];
  }

  /** A worker that finds the report there, and nobody else at it, appends its record. */
  lemma FinalizeAppends(s: State, i: nat)
    requires i in s.pcs && i in s.attempts && s.pcs[i].Idle? && s.file.Content? && !s.locked
    ensures var go := Advance(i, false);
            var t := Step(Step(Step(Step(Step(Step(Step(s, Finalize(i)), go), go), go), go), go), go);
            t.pcs == s.pcs[i := Returned] && !t.locked && t.file == Content(s.file.entries + [From(i)])
  {
    var s1 := Step(s, Finalize(i));
    var s2 := Step(s1, Advance(i, false));
    assert s2 == s.(pcs := s.pcs[i := Trying(s.now)]);
    UndisturbedTurn(s2, i);
    hide Step;
    assert s2.pcs[i := Returned] == s.pcs[i := Returned];
  }

  /** A second call of `finalize` changes nothing. */
  lemma FinalizedOnce(s: State, i: nat)
    requires i in s.pcs && !s.pcs[i].Idle?
    ensures Step(s, Finalize(i)) == s
  {
  }

  /** What can make a worker give up in one step. */
  predicate Blames(s: State, action: Action, i: nat) {
    action.Advance? && action.worker == i && i in s.pcs &&
    match s.pcs[i]
    case Checking => action.fault
    case Trying(start) => action.fault || (s.locked && s.now > start + 10_000)
    case Reading => action.fault || s.file.Corrupt?
    case _ => false
  }

  lemma StepThrows(s: State, action: Action, i: nat)
    requires i in s.pcs && i in s.attempts
    requires var q := Step(s, action).pcs[i]; q.Threw? || q == Releasing(false)
    ensures s.pcs[i].Threw? || s.pcs[i] == Releasing(false) || Blames(s, action, i)
  {
    hide TryLock;
    if action.Advance? && action.worker in s.pcs && action.worker in s.attempts {
      if s.pcs[action.worker].Trying? {
        TryingThrows(s, action.worker, action.fault);
      }
    }
  }

  lemma TryingThrows(s: State, i: nat, fault: bool)
    requires i in s.pcs && i in s.attempts && s.pcs[i].Trying?
    ensures var start, s' := s.pcs[i].start, TryLock(s, i, s.pcs[i].start, fault);
            && s'.pcs == s.pcs[i := s'.pcs[i]] && s'.pcs[i] != Releasing(false)
            && (s'.pcs[i].Threw? <==> fault || (s.locked && s.now > start + 10_000))
  {
  }

  /**
   * In every run, a worker throws only after a faulty call, a corrupt report, or a lock still held more than ten
   * seconds after its first try.
   */
  lemma {:induction false} ThrowsOnlyWhen(file: File, ids: set<nat>, now: int, actions: seq<Action>, i: nat)
    requires i in ids && i in Run(Start(file, ids, now), actions).pcs
    requires var q := Run(Start(file, ids, now), actions).pcs[i]; q.Threw? || q == Releasing(false)
    ensures exists k :: 0 <= k < |actions| && Blames(Run(Start(file, ids, now), actions[..k]), actions[k], i)
    decreases |actions|
  {
    var n := |actions| - 1;
    var before := actions[..n];
    var s := Run(Start(file, ids, now), before);
    hide Step, Blames, Start;
    RunPatient(file, ids, now, before);
    StepThrows(s, actions[n], i);
    if !Blames(s, actions[n], i) {
      ThrowsOnlyWhen(file, ids, now, before, i);
      var k :| 0 <= k < |before| && Blames(Run(Start(file, ids, now), before[..k]), before[k], i);
      assert before[..k] == actions[..k] && before[k] == actions[k];
    }
  }

  // ---------------------------------------------------------------- the lost record

  /** Everyone has returned or thrown, and a worker that returned is not in the file. */
  ghost predicate LosesRecord(s: State) {
    && (forall i :: i in s.pcs ==> s.pcs[i].Returned? || s.pcs[i].Threw? || s.pcs[i].Idle?)
    && (exists i :: i in s.pcs && s.pcs[i].Returned? && From(i) !in Entries(s.file))
  }

  lemma RunPush(s: State, actions: seq<Action>, action: Action)
    ensures Run(s, actions + [action]) == Step(Run(s, actions), action)
  {
    assert (actions + [action])[..|actions|] == actions;
  }

  lemma UndisturbedTurn(s: State, i: nat)
    requires i in s.pcs && i in s.attempts && s.pcs[i].Trying? && !s.locked && !s.file.Corrupt?
    ensures var go := Advance(i, false);
            var t := Step(Step(Step(Step(Step(s, go), go), go), go), go);
            t.pcs == s.pcs[i := Returned] && t.attempts.Keys == s.attempts.Keys && !t.locked
            && t.file == Content(Entries(s.file) + [From(i)])
  {
    var go := Advance(i, false);
    var s1 := Step(s, go);
    assert s1.pcs == s.pcs[i := Reading] && s1.attempts.Keys == s.attempts.Keys && s1.file == s.file;
    ReadAndWrite(s1, i);
    hide Step;
    assert Step(Step(Step(Step(s1, go), go), go), go).pcs == s.pcs[i := Returned];
  }

  lemma ReadAndWrite(s: State, i: nat)
    requires i in s.pcs && i in s.attempts && s.pcs[i].Reading? && !s.file.Corrupt?
    ensures var go := Advance(i, false);
            Step(Step(Step(Step(s, go), go), go), go)
            == s.(pcs := s.pcs[i := Returned], locked := false, file := Content(Entries(s.file) + [From(i)]),
                  committed := s.committed + [|s.acquired| - 1])
  {
    hide TryLock;
    var go := Advance(i, false);
    var s2 := Step(s, go);
    assert s2 == s.(pcs := s.pcs[i := Truncating(Entries(s.file))]);
    var s3 := Step(s2, go);
    assert s3 == s.(pcs := s.pcs[i := Filling(Entries(s.file))], file := Content([]));
    var s4 := Step(s3, go);
    var written := Content(Entries(s.file) + [From(i)]);
    assert s4 == s.(pcs := s.pcs[i := Releasing(true)], file := written, committed := s.committed + [|s.acquired| - 1]);
  }

  /** Worker i goes from the retry loop through the lock to its return, undisturbed. */
  lemma Append(s0: State, actions: seq<Action>, i: nat) returns (more: seq<Action>)
    requires var s := Run(s0, actions);
             i in s.pcs && i in s.attempts && s.pcs[i].Trying? && !s.locked && !s.file.Corrupt?
    ensures var s, t := Run(s0, actions), Run(s0, more);
            t.pcs == s.pcs[i := Returned] && t.attempts.Keys == s.attempts.Keys && !t.locked
            && t.file == Content(Entries(s.file) + [From(i)])
  {
    var go := Advance(i, false);
    var s := Run(s0, actions);
    UndisturbedTurn(s, i);
    hide Step;
    RunPush(s0, actions, go);
    RunPush(s0, actions + [go], go);
    RunPush(s0, actions + [go] + [go], go);
    RunPush(s0, actions + [go] + [go] + [go], go);
    RunPush(s0, actions + [go] + [go] + [go] + [go], go);
    more := actions + [go] + [go] + [go] + [go] + [go];
  }

  /** An idle worker calls `finalize` and finds no file. */
  lemma SeeMissing(s0: State, actions: seq<Action>, i: nat) returns (more: seq<Action>)
    requires var s := Run(s0, actions); i in s.pcs && i in s.attempts && s.pcs[i].Idle? && s.file.Missing?
    ensures var s, t := Run(s0, actions), Run(s0, more); t == s.(pcs := s.pcs[i := SeedTruncate])
  {
    RunPush(s0, actions, Finalize(i));
    RunPush(s0, actions + [Finalize(i)], Advance(i, false));
    more := actions + [Finalize(i)] + [Advance(i, false)];
  }

  /** A worker that saw no file writes an empty report. */
  lemma Seed(s0: State, actions: seq<Action>, i: nat) returns (more: seq<Action>)
    requires var s := Run(s0, actions); i in s.pcs && i in s.attempts && s.pcs[i].SeedTruncate?
    ensures var s, t := Run(s0, actions), Run(s0, more);
            t == s.(pcs := s.pcs[i := Trying(s.now)], file := Content([]))
  {
    RunPush(s0, actions, Advance(i, false));
    RunPush(s0, actions + [Advance(i, false)], Advance(i, false));
    more := actions + [Advance(i, false)] + [Advance(i, false)];
  }

  /** Without a file, two workers can both see it missing; the second one's seed then erases the first one's record. */
  lemma MissingFileLosesRecord(ids: set<nat>, now: int, a: nat, b: nat) returns (actions: seq<Action>)
    requires a in ids && b in ids && a != b
    ensures LosesRecord(Run(Start(Missing, ids, now), actions))
  {
    hide Step;
    var s0 := Start(Missing, ids, now);
    assert Run(s0, []) == s0;
    actions := SeeMissing(s0, [], a);
    actions := SeeMissing(s0, actions, b);
    actions := Seed(s0, actions, a);
    actions := Append(s0, actions, a);
    actions := Seed(s0, actions, b);
    actions := Append(s0, actions, b);
    var end := Run(s0, actions);
    assert end.file == Content([] + [From(b)]);
    assert a in end.pcs && end.pcs[a].Returned? && From(a) !in Entries(end.file);
  }

  /** No run loses a record exactly when the file exists beforehand or there is at most one worker. */
  lemma LosslessIff(file: File, ids: set<nat>, now: int)
    ensures (forall actions :: !LosesRecord(Run(Start(file, ids, now), actions))) <==> SafeStart(file, ids)
  {
    if SafeStart(file, ids) {
      forall actions ensures !LosesRecord(Run(Start(file, ids, now), actions)) {
        AppendsSurvive(file, ids, now, actions);
        var s := Run(Start(file, ids, now), actions);
        forall i | i in s.pcs && s.pcs[i].Returned? && !AnyFilling(s) ensures From(i) in Entries(s.file) {
          assert From(i) in Written(s);
        }
      }
    } else {
      var a :| a in ids;
      assert ids == {a} + (ids - {a});
      var b :| b in ids - {a};
      var actions := MissingFileLosesRecord(ids, now, a, b);
    }
  }
}
