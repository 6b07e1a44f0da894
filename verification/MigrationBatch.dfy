/** The evidence migration command: byte-budgeted pages, a printed cursor, and restarts from it. */
module MigrationBatch {
  import opened Json

  /**
   * What the store says about a bundle. `sound`: its snapshot passes every test of the validation that does not
   * depend on the byte budget. `ledgerBytes` is the size its migration records.
   */
  datatype Bundle = Bundle(blocked: bool, sound: bool, bytes: nat, ledgerBytes: nat)

  /** Candidate ids in the store's stable order, and the bundles behind them. */
  datatype Store = Store(ids: seq<nat>, bundle: nat -> Bundle)

  /** How far a migration has come when its run ends inside it. */
  datatype Depth = Unplanned | Planned | Switched

  /**
   * `Dropped`: the run ended after the metadata switch, so the bundle is no candidate any more, and was never
   * reported.
   */
  datatype Handled = Skipped(id: nat) | Migrated(id: nat) | Dropped(id: nat)

  /**
   * What all runs so far have left behind: the bundles passed, the last printed cursor, the ledgers, and the
   * migrations inside which a run ended.
   */
  datatype Campaign = Campaign(trail: seq<Handled>, cursor: Option<nat>, ledgers: set<nat>, failures: set<(nat, Depth)>)

  datatype Stop = EndOfPage | ByteLimit | Interrupted | Rejected(id: nat) | Failed(id: nat, depth: Depth)

  datatype Page = Page(c: Campaign, used: nat, stop: Stop)

  /**
   * When a run ends early, by its time limit or an error: before the next bundle, during its migration, or later.
   */
  datatype Expiry = Never | Before | During(depth: Depth) | Later(rest: Expiry)

  function Next(e: Expiry): Expiry {
    match e
    case Never => Never
    case Later(rest) => rest
    case _ => Before
  }

  predicate Ascending(ids: seq<nat>) {
    forall i, j :: 0 <= i < j < |ids| ==> ids[i] < ids[j]
  }

  function After(ids: seq<nat>, cursor: Option<nat>): seq<nat> {
    if ids == [] || cursor.None? || ids[0] > cursor.value then ids else After(ids[1..], cursor)
  }

  /** The metadata of the bundle has been switched, so that the store lists it no more. */
  predicate Gone(c: Campaign, id: nat) {
    Migrated(id) in c.trail || Dropped(id) in c.trail
  }

  function Listed(c: Campaign, ids: seq<nat>): seq<nat> {
    if ids == [] then [] else (if Gone(c, ids[0]) then [] else [ids[0]]) + Listed(c, ids[1..])
  }

  /** `store.candidates(limit, after)`. */
  function Candidates(store: Store, pageSize: nat, c: Campaign): seq<nat> {
    var rest := Listed(c, After(store.ids, c.cursor));
    if |rest| <= pageSize then rest else rest[..pageSize]
  }

  predicate Protected(store: Store, ledgers: set<nat>, id: nat) {
    store.bundle(id).blocked || id in ledgers
  }

  /** `validateMigrationSnapshot`, whose byte budget must be positive and hold the bundle. */
  predicate Acceptable(store: Store, id: nat, budget: int) {
    store.bundle(id).sound && budget > 0 && store.bundle(id).bytes <= budget
  }

  function Skip(c: Campaign, id: nat): Campaign {
    c.(trail := c.trail + [Skipped(id)], cursor := Some(id))
  }

  function Migrate(c: Campaign, id: nat): Campaign {
    c.(trail := c.trail + [Migrated(id)], cursor := Some(id), ledgers := c.ledgers + {id})
  }

  /** The run ends inside the migration: the cursor stays, but what is planned or switched stays so. */
  function Fail(c: Campaign, id: nat, depth: Depth): Campaign {
    Campaign(
      if depth.Switched? then c.trail + [Dropped(id)] else c.trail,
      c.cursor,
      if depth.Unplanned? then c.ledgers else c.ledgers + {id},
      c.failures + {(id, depth)})
  }

  /** The execute loop over the rest of a page. */
  function Execute(store: Store, ids: seq<nat>, c: Campaign, used: nat, limit: nat, e: Expiry): Page
    decreases ids
  {
    if ids == [] then Page(c, used, EndOfPage)
    else if e.Before? then Page(c, used, Interrupted)
    else
      var id, rest := ids[0], ids[1..];
      if Protected(store, c.ledgers, id) then Execute(store, rest, Skip(c, id), used, limit, Next(e))
      else if used + store.bundle(id).bytes > limit then Page(c, used, ByteLimit)
      else if !Acceptable(store, id, limit - used) then Page(c, used, Rejected(id))
      else if e.During? then Page(Fail(c, id, e.depth), used, Failed(id, e.depth))
      else Execute(store, rest, Migrate(c, id), used + store.bundle(id).ledgerBytes, limit, Next(e))
  }

  /** The variables of `main` while it executes a page. */
  class ExecuteRun {
    const store: Store
    const limit: nat
    var ledgers: set<nat>
    var usedBytes: nat
    var cursor: Option<nat>
    ghost var trail: seq<Handled>
    ghost var failures: set<(nat, Depth)>

    ghost function Model(): Campaign
      reads this
    {
      Campaign(trail, cursor, ledgers, failures)
    }

    constructor (store: Store, limit: nat, c: Campaign)
      ensures this.store == store && this.limit == limit && Model() == c && usedBytes == 0
    {
      this.store, this.limit := store, limit;
      usedBytes, cursor, ledgers, trail, failures := 0, c.cursor, c.ledgers, c.trail, c.failures;
    }

    /** `migrateEvidence` with what is left of the budget: accepted or not, planned or not, finished or not. */
    method MigrateEvidence(id: nat, e: Expiry) returns (stop: Option<Stop>)
      requires id !in ledgers && usedBytes <= limit
      modifies this`ledgers, this`trail, this`failures
      ensures !Acceptable(store, id, limit - usedBytes) ==> stop == Some(Rejected(id)) && Model() == old(Model())
      ensures Acceptable(store, id, limit - usedBytes) && e.During? ==>
                stop == Some(Failed(id, e.depth)) && Model() == Fail(old(Model()), id, e.depth)
      ensures Acceptable(store, id, limit - usedBytes) && !e.During? ==>
                stop == None && ledgers == old(ledgers) + {id} && trail == old(trail) && failures == old(failures)
    {
      if !Acceptable(store, id, limit - usedBytes) {
        return Some(Rejected(id));
      }
      if e.During? {
        failures := failures + {(id, e.depth)};
        if e.depth.Unplanned? {
          return Some(Failed(id, e.depth));
        }
      }
      ledgers := ledgers + {id};
      if e.During? {
        if e.depth.Switched? {
          trail := trail + [Dropped(id)];
        }
        return Some(Failed(id, e.depth));
      }
      return None;
    }

    method Run(ids: seq<nat>, expiry: Expiry) returns (stop: Stop)
      requires usedBytes == 0
      modifies this
      ensures Page(Model(), usedBytes, stop) == Execute(store, ids, old(Model()), 0, limit, expiry)
    {
      var i, e := 0, expiry;
      assert ids[0..] == ids;
      while i < |ids|
        invariant 0 <= i <= |ids|
        invariant Execute(store, ids[i..], Model(), usedBytes, limit, e)
               == Execute(store, ids, old(Model()), 0, limit, expiry)
      {
        assert ids[i..][0] == ids[i] && ids[i..][1..] == ids[i + 1..];
        if e.Before? {
          return Interrupted;
        }
        var id := ids[i];
        if store.bundle(id).blocked || id in ledgers {
          cursor := Some(id);
          trail := trail + [Skipped(id)];
          i, e := i + 1, Next(e);
          continue;
        }
        if usedBytes + store.bundle(id).bytes > limit {
          return ByteLimit;
        }
        var ended := MigrateEvidence(id, e);
        if ended.Some? {
          return ended.value;
        }
        usedBytes := usedBytes + store.bundle(id).ledgerBytes;
        cursor := Some(id);
        trail := trail + [Migrated(id)];
        i, e := i + 1, Next(e);
      }
      return EndOfPage;
    }
  }

  // ---------------------------------------------------------------- one bundle at a time

  function Ids(trail: seq<Handled>): seq<nat> {
    seq(|trail|, i requires 0 <= i < |trail| => trail[i].id)
  }

  /** The cursor printed last: no run prints one for a dropped bundle. */
  function CursorOf(trail: seq<Handled>): Option<nat> {
    if trail == [] then None
    else if trail[|trail| - 1].Dropped? then CursorOf(trail[..|trail| - 1])
    else Some(trail[|trail| - 1].id)
  }

  /** A bundle that no amount of restarting gets stuck on. */
  predicate Manageable(store: Store, ledgers: set<nat>, limit: nat, id: nat) {
    Protected(store, ledgers, id) || Acceptable(store, id, limit)
  }

  /** What became of a bundle, by the ledgers at the very start and the migrations inside which a run ended. */
  function Verdict(store: Store, ledgers: set<nat>, failures: set<(nat, Depth)>, id: nat): Handled {
    if Protected(store, ledgers, id) || (id, Planned) in failures then Skipped(id)
    else if (id, Switched) in failures then Dropped(id)
    else Migrated(id)
  }

  /** The trail is a prefix of the stable order, and its verdicts are explained. */
  ghost predicate TrailOk(store: Store, ledgers: set<nat>, limit: nat, c: Campaign) {
    && Ids(c.trail) <= store.ids
    && c.cursor == CursorOf(c.trail)
    && (forall h :: h in c.trail ==>
        h == Verdict(store, ledgers, c.failures, h.id) && Manageable(store, ledgers, limit, h.id))
  }

  /** The bundle the next page starts with. */
  predicate IsNext(store: Store, c: Campaign, id: nat) {
    |c.trail| < |store.ids| && id == store.ids[|c.trail|]
  }

  predicate Reached(store: Store, c: Campaign, id: nat) {
    id in Ids(c.trail) || IsNext(store, c, id)
  }

  /** A run ended inside this bundle with its ledger in place. */
  predicate Kept(failures: set<(nat, Depth)>, id: nat) {
    (id, Planned) in failures || (id, Switched) in failures
  }

  ghost predicate LedgersOk(store: Store, ledgers: set<nat>, limit: nat, c: Campaign) {
    && (forall id :: id in c.ledgers <==> (id in ledgers || Migrated(id) in c.trail || Kept(c.failures, id)))
    && (forall id, d :: (id, d) in c.failures ==>
        Reached(store, c, id) && Acceptable(store, id, limit) && !Protected(store, ledgers, id))
    && (forall id :: (id, Switched) in c.failures ==> id in Ids(c.trail))
  }

  ghost predicate Orderly(store: Store, ledgers: set<nat>, limit: nat, c: Campaign) {
    TrailOk(store, ledgers, limit, c) && LedgersOk(store, ledgers, limit, c)
  }

  lemma IdsPush(trail: seq<Handled>, h: Handled)
    ensures Ids(trail + [h]) == Ids(trail) + [h.id] && |Ids(trail)| == |trail|
  {
  }

  lemma NextIsNew(store: Store, c: Campaign, id: nat)
    requires Ascending(store.ids) && Ids(c.trail) <= store.ids && IsNext(store, c, id)
    ensures id !in Ids(c.trail) && forall h :: h in c.trail ==> h.id != id && h.id in Ids(c.trail)
  {
    forall h | h in c.trail ensures h.id != id && h.id in Ids(c.trail) {
      var k :| 0 <= k < |c.trail| && c.trail[k] == h;
      assert Ids(c.trail)[k] == store.ids[k] == h.id;
    }
  }

  /** A bundle enters the trail with its verdict. */
  lemma PushOk(store: Store, ledgers: set<nat>, limit: nat, c: Campaign, d: Campaign, h: Handled)
    requires Ascending(store.ids) && TrailOk(store, ledgers, limit, c) && IsNext(store, c, h.id)
    requires d.trail == c.trail + [h] && d.cursor == CursorOf(d.trail)
    requires h == Verdict(store, ledgers, d.failures, h.id) && Manageable(store, ledgers, limit, h.id)
    requires forall f: (nat, Depth) :: f.0 != h.id ==> (f in d.failures <==> f in c.failures)
    ensures TrailOk(store, ledgers, limit, d)
  {
    hide Manageable, Ascending;
    IdsPush(c.trail, h);
    NextIsNew(store, c, h.id);
    forall g | g in d.trail
        ensures g == Verdict(store, ledgers, d.failures, g.id) && Manageable(store, ledgers, limit, g.id) {
      if g in c.trail {
        assert (g.id, Planned) in d.failures <==> (g.id, Planned) in c.failures;
        assert (g.id, Switched) in d.failures <==> (g.id, Switched) in c.failures;
      }
    }
  }

  lemma ReachedStays(store: Store, c: Campaign, d: Campaign, h: Handled)
    requires IsNext(store, c, h.id) && d.trail == c.trail + [h]
    ensures forall id :: Reached(store, c, id) <==> id in Ids(d.trail)
    ensures forall id :: id in Ids(d.trail) ==> Reached(store, d, id)
  {
    IdsPush(c.trail, h);
  }

  lemma SkipOk(store: Store, ledgers: set<nat>, limit: nat, c: Campaign, id: nat)
    requires Ascending(store.ids) && Orderly(store, ledgers, limit, c) && IsNext(store, c, id)
    requires Protected(store, c.ledgers, id)
    ensures Orderly(store, ledgers, limit, Skip(c, id))
  {
    hide Ascending, Acceptable, Ids;
    var d := Skip(c, id);
    NextIsNew(store, c, id);
    ReachedStays(store, c, d, Skipped(id));
    PushOk(store, ledgers, limit, c, d, Skipped(id));
  }

  lemma MigrateOk(store: Store, ledgers: set<nat>, limit: nat, c: Campaign, used: nat, id: nat)
    requires Ascending(store.ids) && Orderly(store, ledgers, limit, c) && IsNext(store, c, id)
    requires !Protected(store, c.ledgers, id) && Acceptable(store, id, limit - used)
    ensures Orderly(store, ledgers, limit, Migrate(c, id))
  {
    hide Ascending, Ids;
    var d := Migrate(c, id);
    NextIsNew(store, c, id);
    ReachedStays(store, c, d, Migrated(id));
    PushOk(store, ledgers, limit, c, d, Migrated(id));
  }

  lemma FailOk(store: Store, ledgers: set<nat>, limit: nat, c: Campaign, used: nat, id: nat, depth: Depth)
    requires Ascending(store.ids) && Orderly(store, ledgers, limit, c) && IsNext(store, c, id)
    requires !Protected(store, c.ledgers, id) && Acceptable(store, id, limit - used)
    ensures Orderly(store, ledgers, limit, Fail(c, id, depth))
  {
    hide Ascending, Ids;
    var d := Fail(c, id, depth);
    NextIsNew(store, c, id);
    if depth.Switched? {
      ReachedStays(store, c, d, Dropped(id));
      PushOk(store, ledgers, limit, c, d, Dropped(id));
    }
  }

  /** What is left of the page follows the trail in the stable order. */
  ghost predicate Follows(store: Store, c: Campaign, ids: seq<nat>) {
    |c.trail| <= |store.ids| && ids <= store.ids[|c.trail|..]
  }

  lemma FollowsOn(store: Store, c: Campaign, ids: seq<nat>)
    requires Follows(store, c, ids) && ids != []
    ensures IsNext(store, c, ids[0])
    ensures Follows(store, Skip(c, ids[0]), ids[1..]) && Follows(store, Migrate(c, ids[0]), ids[1..])
  {
    var p := |c.trail|;
    assert ids[0] == store.ids[p..][0];
    forall k | 0 <= k < |ids| - 1 ensures ids[1..][k] == store.ids[p + 1..][k] {
      assert ids[k + 1] == store.ids[p..][k + 1];
    }
  }

  /** A page keeps the order, bundle by bundle. */
  lemma {:induction false} PageOrderly(store: Store, ledgers: set<nat>, ids: seq<nat>, c: Campaign, used: nat,
                                       limit: nat, e: Expiry)
    requires Ascending(store.ids) && Orderly(store, ledgers, limit, c)
    requires Follows(store, c, ids)
    ensures Orderly(store, ledgers, limit, Execute(store, ids, c, used, limit, e).c)
    decreases ids
  {
    hide Ascending, Orderly, Acceptable, Follows, IsNext, Skip, Migrate, Fail, Execute;
    if ids == [] || e.Before? {
      ExecuteNothing(store, ids, c, used, limit, e);
    } else {
      var id, rest := ids[0], ids[1..];
      FollowsOn(store, c, ids);
      ExecuteOne(store, ids, c, used, limit, e);
      if Protected(store, c.ledgers, id) {
        SkipOk(store, ledgers, limit, c, id);
        PageOrderly(store, ledgers, rest, Skip(c, id), used, limit, Next(e));
      } else if used + store.bundle(id).bytes <= limit && Acceptable(store, id, limit - used) {
        if e.During? {
          FailOk(store, ledgers, limit, c, used, id, e.depth);
        } else {
          MigrateOk(store, ledgers, limit, c, used, id);
          PageOrderly(store, ledgers, rest, Migrate(c, id), used + store.bundle(id).ledgerBytes, limit, Next(e));
        }
      }
    }
  }

  lemma ExecuteNothing(store: Store, ids: seq<nat>, c: Campaign, used: nat, limit: nat, e: Expiry)
    requires ids == [] || e.Before?
    ensures Execute(store, ids, c, used, limit, e).c == c
  {
  }

  lemma ExecuteOne(store: Store, ids: seq<nat>, c: Campaign, used: nat, limit: nat, e: Expiry)
    requires ids != [] && !e.Before?
    ensures var id, rest, page := ids[0], ids[1..], Execute(store, ids, c, used, limit, e);
            if Protected(store, c.ledgers, id) then page == Execute(store, rest, Skip(c, id), used, limit, Next(e))
            else if used + store.bundle(id).bytes > limit || !Acceptable(store, id, limit - used) then page.c == c
            else if e.During? then page.c == Fail(c, id, e.depth)
            else page == Execute(store, rest, Migrate(c, id), used + store.bundle(id).ledgerBytes, limit, Next(e))
  {
    hide Acceptable, Skip, Migrate, Fail;
  }

  /** Migrations record no more than was inspected. */
  ghost predicate LedgersFit(store: Store) {
    forall id :: store.bundle(id).ledgerBytes <= store.bundle(id).bytes
  }

  lemma {:induction false} PageBytes(store: Store, ids: seq<nat>, c: Campaign, used: nat, limit: nat, e: Expiry)
    requires LedgersFit(store) && used <= limit
    ensures Execute(store, ids, c, used, limit, e).used <= limit
    decreases ids
  {
    if ids != [] && !e.Before? {
      var id, rest := ids[0], ids[1..];
      if Protected(store, c.ledgers, id) {
        PageBytes(store, rest, Skip(c, id), used, limit, Next(e));
      } else if used + store.bundle(id).bytes <= limit && Acceptable(store, id, limit - used) && !e.During? {
        assert store.bundle(id).ledgerBytes <= store.bundle(id).bytes;
        PageBytes(store, rest, Migrate(c, id), used + store.bundle(id).ledgerBytes, limit, Next(e));
      }
    }
  }

  /** The sizes that the migrations of this trail have recorded. */
  function Recorded(store: Store, trail: seq<Handled>): nat {
    if trail == [] then 0
    else
      var last := trail[|trail| - 1];
      Recorded(store, trail[..|trail| - 1]) + if last.Migrated? then store.bundle(last.id).ledgerBytes else 0
  }

  lemma RecordedPush(store: Store, trail: seq<Handled>, h: Handled)
    ensures Recorded(store, trail + [h])
         == Recorded(store, trail) + if h.Migrated? then store.bundle(h.id).ledgerBytes else 0
  {
    assert (trail + [h])[..|trail|] == trail;
  }

  /** The batch's bytes are those its migrations have recorded. */
  lemma {:induction false} UsedIsRecorded(store: Store, ids: seq<nat>, c: Campaign, used: nat, limit: nat, e: Expiry)
    ensures var page := Execute(store, ids, c, used, limit, e);
            page.used + Recorded(store, c.trail) == used + Recorded(store, page.c.trail)
    decreases ids
  {
    hide Recorded, Acceptable;
    if ids != [] && !e.Before? {
      var id, rest := ids[0], ids[1..];
      RecordedPush(store, c.trail, Skipped(id));
      RecordedPush(store, c.trail, Migrated(id));
      RecordedPush(store, c.trail, Dropped(id));
      if Protected(store, c.ledgers, id) {
        UsedIsRecorded(store, rest, Skip(c, id), used, limit, Next(e));
      } else {
        UsedIsRecorded(store, rest, Migrate(c, id), used + store.bundle(id).ledgerBytes, limit, Next(e));
      }
    }
  }

  // ---------------------------------------------------------------- restarts

  function Fresh(ledgers: set<nat>): Campaign {
    Campaign([], None, ledgers, {})
  }

  /** One run over the next page, started with the printed cursor. */
  function NextPage(store: Store, c: Campaign, pageSize: nat, limit: nat, e: Expiry): Page {
    Execute(store, Candidates(store, pageSize, c), c, 0, limit, e)
  }

  /** One run per element of `runs`, each ending when that element says. */
  function Restart(store: Store, ledgers: set<nat>, pageSize: nat, limit: nat, runs: seq<Expiry>): Campaign {
    if runs == [] then Fresh(ledgers)
    else
      var before := Restart(store, ledgers, pageSize, limit, runs[..|runs| - 1]);
      NextPage(store, before, pageSize, limit, runs[|runs| - 1]).c
  }

  lemma {:induction false} AfterCursor(ids: seq<nat>, p: nat)
    requires Ascending(ids) && 0 < p <= |ids|
    ensures After(ids, Some(ids[p - 1])) == ids[p..]
  {
    if p > 1 {
      AfterCursor(ids[1..], p - 1);
    } else if |ids| > 1 {
      assert ids[1..][0] > ids[0];
    }
  }

  /** The trail ends in dropped bundles behind the one the cursor names. */
  lemma {:induction false} CursorPlace(trail: seq<Handled>) returns (q: nat)
    ensures q <= |trail| && (forall k :: q <= k < |trail| ==> trail[k].Dropped?)
    ensures CursorOf(trail) == if q == 0 then None else Some(trail[q - 1].id)
  {
    q := |trail|;
    if trail != [] && trail[q - 1].Dropped? {
      q := CursorPlace(trail[..q - 1]);
    }
  }

  /** The listing passes over what is gone and keeps what is not. */
  lemma {:induction false} ListedFrom(c: Campaign, ids: seq<nat>, q: nat, p: nat)
    requires q <= p <= |ids|
    requires forall k :: q <= k < p ==> Gone(c, ids[k])
    requires forall k :: p <= k < |ids| ==> !Gone(c, ids[k])
    ensures Listed(c, ids[q..]) == ids[p..]
    decreases |ids| - q
  {
    if q < |ids| {
      assert ids[q..][0] == ids[q] && ids[q..][1..] == ids[q + 1..];
      if q < p {
        ListedFrom(c, ids, q + 1, p);
      } else {
        ListedFrom(c, ids, q + 1, q + 1);
        assert ids[q..] == [ids[q]] + ids[q + 1..];
      }
    }
  }

  /** The next page starts right behind the trail. */
  lemma NextCandidates(store: Store, ledgers: set<nat>, limit: nat, c: Campaign, pageSize: nat)
    requires Ascending(store.ids) && TrailOk(store, ledgers, limit, c)
    ensures |c.trail| <= |store.ids|
    ensures var rest := store.ids[|c.trail|..];
            Candidates(store, pageSize, c) == if |rest| <= pageSize then rest else rest[..pageSize]
  {
    var p := |c.trail|;
    assert |Ids(c.trail)| == p;
    var q := CursorPlace(c.trail);
    forall k | 0 <= k < p ensures store.ids[k] == c.trail[k].id {
      assert Ids(c.trail)[k] == store.ids[k];
    }
    if q > 0 {
      AfterCursor(store.ids, q);
    }
    assert After(store.ids, c.cursor) == store.ids[q..];
    forall k | q <= k < p ensures Gone(c, store.ids[k]) {
      assert c.trail[k] in c.trail && c.trail[k] == Dropped(store.ids[k]);
    }
    forall k | p <= k < |store.ids| ensures !Gone(c, store.ids[k]) {
      forall h | h in c.trail ensures h.id != store.ids[k] {
        var j :| 0 <= j < p && c.trail[j] == h;
        assert store.ids[j] < store.ids[k];
      }
    }
    ListedFrom(c, store.ids, q, p);
  }

  lemma {:induction false} RestartOrderly(store: Store, ledgers: set<nat>, pageSize: nat, limit: nat, runs: seq<Expiry>)
    requires Ascending(store.ids)
    ensures Orderly(store, ledgers, limit, Restart(store, ledgers, pageSize, limit, runs))
    decreases |runs|
  {
    if runs != [] {
      var c := Restart(store, ledgers, pageSize, limit, runs[..|runs| - 1]);
      RestartOrderly(store, ledgers, pageSize, limit, runs[..|runs| - 1]);
      NextCandidates(store, ledgers, limit, c, pageSize);
      PageOrderly(store, ledgers, Candidates(store, pageSize, c), c, 0, limit, runs[|runs| - 1]);
    }
  }

  /** Some run ended inside this bundle's migration, this far into it. */
  ghost predicate EndedInside(store: Store, ledgers: set<nat>, pageSize: nat, limit: nat, runs: seq<Expiry>, id: nat,
                              depth: Depth) {
    exists k :: 0 <= k < |runs| && StopOf(store, ledgers, pageSize, limit, runs, k) == Failed(id, depth)
  }

  /** How run number k ended. */
  function StopOf(store: Store, ledgers: set<nat>, pageSize: nat, limit: nat, runs: seq<Expiry>, k: nat): Stop
    requires k < |runs|
  {
    NextPage(store, Restart(store, ledgers, pageSize, limit, runs[..k]), pageSize, limit, runs[k]).stop
  }

  lemma EndedInsidePush(store: Store, ledgers: set<nat>, pageSize: nat, limit: nat, runs: seq<Expiry>, e: Expiry,
                        id: nat, depth: Depth)
    ensures EndedInside(store, ledgers, pageSize, limit, runs + [e], id, depth)
       <==> EndedInside(store, ledgers, pageSize, limit, runs, id, depth)
            || NextPage(store, Restart(store, ledgers, pageSize, limit, runs), pageSize, limit, e).stop
               == Failed(id, depth)
  {
    hide NextPage, Restart;
    var more := runs + [e];
    forall k: nat | k < |runs|
      ensures StopOf(store, ledgers, pageSize, limit, more, k) == StopOf(store, ledgers, pageSize, limit, runs, k)
    {
      assert more[..k] == runs[..k] && more[k] == runs[k];
    }
    assert more[..|runs|] == runs;
    hide StopOf;
    if EndedInside(store, ledgers, pageSize, limit, runs, id, depth) {
      var k :| 0 <= k < |runs| && StopOf(store, ledgers, pageSize, limit, runs, k) == Failed(id, depth);
      assert StopOf(store, ledgers, pageSize, limit, more, k) == Failed(id, depth);
    }
    assert StopOf(store, ledgers, pageSize, limit, more, |runs|) == Failed(id, depth) ==>
      EndedInside(store, ledgers, pageSize, limit, more, id, depth);
  }

  lemma {:induction false} PageFailures(store: Store, ids: seq<nat>, c: Campaign, used: nat, limit: nat, e: Expiry)
    ensures var page := Execute(store, ids, c, used, limit, e);
            page.c.failures == c.failures + if page.stop.Failed? then {(page.stop.id, page.stop.depth)} else {}
    decreases ids
  {
    if ids != [] && !e.Before? {
      var id, rest := ids[0], ids[1..];
      if Protected(store, c.ledgers, id) {
        PageFailures(store, rest, Skip(c, id), used, limit, Next(e));
      } else if !e.During? {
        PageFailures(store, rest, Migrate(c, id), used + store.bundle(id).ledgerBytes, limit, Next(e));
      }
    }
  }

  lemma {:induction false} FailuresMean(store: Store, ledgers: set<nat>, pageSize: nat, limit: nat, runs: seq<Expiry>,
                                        id: nat, depth: Depth)
    ensures (id, depth) in Restart(store, ledgers, pageSize, limit, runs).failures
       <==> EndedInside(store, ledgers, pageSize, limit, runs, id, depth)
    decreases |runs|
  {
    if runs != [] {
      hide Execute, Candidates, EndedInside;
      var before, e := runs[..|runs| - 1], runs[|runs| - 1];
      assert runs == before + [e];
      FailuresMean(store, ledgers, pageSize, limit, before, id, depth);
      EndedInsidePush(store, ledgers, pageSize, limit, before, e, id, depth);
      var c := Restart(store, ledgers, pageSize, limit, before);
      PageFailures(store, Candidates(store, pageSize, c), c, 0, limit, e);
    }
  }

  /**
   * However often the loop ends early, between two bundles or inside one, and is restarted with its printed cursor:
   * the bundles passed so far are the first ones of the stable order, each exactly once. A bundle is skipped iff it
   * was blocked or planned at the very start or a run ended inside it after planning it; and every run stays within
   * its byte limit.
   */
  lemma RestartsHandleEachOnce(store: Store, ledgers: set<nat>, pageSize: nat, limit: nat, runs: seq<Expiry>, e: Expiry)
    requires Ascending(store.ids)
    ensures var c := Restart(store, ledgers, pageSize, limit, runs);
            && Ids(c.trail) <= store.ids
            && (forall k :: 0 <= k < |c.trail| ==>
                  var id := store.ids[k];
                  c.trail[k] ==
                  if Protected(store, ledgers, id) || EndedInside(store, ledgers, pageSize, limit, runs, id, Planned)
                  then Skipped(id)
                  else if EndedInside(store, ledgers, pageSize, limit, runs, id, Switched) then Dropped(id)
                  else Migrated(id))
            && (LedgersFit(store) ==> NextPage(store, c, pageSize, limit, e).used <= limit)
  {
    hide EndedInside, Execute, Restart, Protected, Candidates;
    RestartOrderly(store, ledgers, pageSize, limit, runs);
    var c := Restart(store, ledgers, pageSize, limit, runs);
    assert |Ids(c.trail)| == |c.trail|;
    forall k | 0 <= k < |c.trail|
      ensures c.trail[k] == Verdict(store, ledgers, c.failures, store.ids[k])
    {
      assert c.trail[k] in c.trail && Ids(c.trail)[k] == store.ids[k];
    }
    forall id: nat, depth ensures (id, depth) in c.failures
        <==> EndedInside(store, ledgers, pageSize, limit, runs, id, depth) {
      FailuresMean(store, ledgers, pageSize, limit, runs, id, depth);
    }
    if LedgersFit(store) {
      PageBytes(store, Candidates(store, pageSize, c), c, 0, limit, e);
    }
  }

  /** One acceptable bundle, one run that ends inside it, and one that does not: how far the first came decides. */
  lemma EndingInsideDecides(id: nat, bytes: nat, limit: nat, depth: Depth)
    requires 0 < limit && bytes <= limit
    ensures var store := Store([id], _ => Bundle(false, true, bytes, bytes));
            Restart(store, {}, 1, limit, [During(depth), Never]).trail ==
            match depth
            case Unplanned => [Migrated(id)]
            case Planned => [Skipped(id)]
            case Switched => [Dropped(id)]
  {
    var store := Store([id], _ => Bundle(false, true, bytes, bytes));
    var runs := [During(depth), Never];
    assert runs[..1] == [During(depth)] && [During(depth)][..0] == [];
    var first := Restart(store, {}, 1, limit, [During(depth)]);
    NextCandidates(store, {}, limit, Fresh({}), 1);
    assert Candidates(store, 1, Fresh({})) == [id];
    assert Restart(store, {}, 1, limit, [During(depth)][..0]) == Fresh({});
    assert first == Fail(Fresh({}), id, depth);
    RestartOrderly(store, {}, 1, limit, [During(depth)]);
    NextCandidates(store, {}, limit, first, 1);
    var second := NextPage(store, first, 1, limit, Never).c;
    assert Restart(store, {}, 1, limit, runs) == second;
    if !depth.Switched? {
      assert Candidates(store, 1, first) == [id] && [id][1..] == [];
      var last := if depth.Planned? then Skip(first, id) else Migrate(first, id);
      assert Execute(store, [id], first, 0, limit, Never).c == last;
    } else {
      assert Candidates(store, 1, first) == [];
    }
  }

  // ---------------------------------------------------------------- progress

  lemma {:induction false} TrailGrows(store: Store, ids: seq<nat>, c: Campaign, used: nat, limit: nat, e: Expiry)
    ensures c.trail <= Execute(store, ids, c, used, limit, e).c.trail
    decreases ids
  {
    if ids != [] && !e.Before? {
      var id, rest := ids[0], ids[1..];
      if Protected(store, c.ledgers, id) {
        TrailGrows(store, rest, Skip(c, id), used, limit, Next(e));
      } else if !e.During? {
        TrailGrows(store, rest, Migrate(c, id), used + store.bundle(id).ledgerBytes, limit, Next(e));
      }
    }
  }

  /** A run that has time for a bundle makes progress iff the next one is protected, or fits and validates alone. */
  lemma RunProgresses(store: Store, ledgers: set<nat>, pageSize: nat, limit: nat, c: Campaign, e: Expiry)
    requires Ascending(store.ids) && Orderly(store, ledgers, limit, c) && pageSize > 0 && (e.Never? || e.Later?)
    requires |c.trail| < |store.ids|
    ensures |NextPage(store, c, pageSize, limit, e).c.trail| > |c.trail|
       <==> Manageable(store, c.ledgers, limit, store.ids[|c.trail|])
  {
    NextCandidates(store, ledgers, limit, c, pageSize);
    hide Orderly, Ascending, Candidates;
    var ids := Candidates(store, pageSize, c);
    var id := store.ids[|c.trail|];
    assert ids[0] == store.ids[|c.trail|..][0] == id;
    if Protected(store, c.ledgers, id) {
      TrailGrows(store, ids[1..], Skip(c, id), 0, limit, Next(e));
    } else if Acceptable(store, id, limit) {
      TrailGrows(store, ids[1..], Migrate(c, id), store.bundle(id).ledgerBytes, limit, Next(e));
    }
  }

  /** No run ever gets past a bundle that is neither protected nor acceptable. */
  lemma StuckBefore(store: Store, ledgers: set<nat>, pageSize: nat, limit: nat, runs: seq<Expiry>, k: nat)
    requires Ascending(store.ids) && k < |store.ids| && !Manageable(store, ledgers, limit, store.ids[k])
    ensures |Restart(store, ledgers, pageSize, limit, runs).trail| <= k
  {
    hide Restart, Manageable;
    RestartOrderly(store, ledgers, pageSize, limit, runs);
    var c := Restart(store, ledgers, pageSize, limit, runs);
    assert |Ids(c.trail)| == |c.trail|;
    forall j | 0 <= j < |c.trail| ensures Manageable(store, ledgers, limit, store.ids[j]) {
      assert c.trail[j] in c.trail && Ids(c.trail)[j] == store.ids[j];
    }
  }

  /** One unblocked bundle whose snapshot does not validate: every run stops at it, and the cursor never moves. */
  lemma UnsoundBundleStops(id: nat, limit: nat, runs: seq<Expiry>)
    ensures var store := Store([id], _ => Bundle(false, false, 0, 0));
            && Restart(store, {}, 1, limit, runs).trail == []
            && NextPage(store, Restart(store, {}, 1, limit, runs), 1, limit, Never).stop == Rejected(id)
  {
    var store := Store([id], _ => Bundle(false, false, 0, 0));
    var c := Restart(store, {}, 1, limit, runs);
    StuckBefore(store, {}, 1, limit, runs, 0);
    RestartOrderly(store, {}, 1, limit, runs);
    NextCandidates(store, {}, limit, c, 1);
    assert Candidates(store, 1, c) == [id];
    assert !Acceptable(store, id, limit);
    assert id !in c.ledgers;
  }

  lemma OneMoreRun(store: Store, ledgers: set<nat>, pageSize: nat, limit: nat, before: seq<Expiry>)
    requires Ascending(store.ids) && pageSize > 0
    requires forall id :: id in store.ids ==> Manageable(store, ledgers, limit, id)
    ensures var c, d := Restart(store, ledgers, pageSize, limit, before),
        Restart(store, ledgers, pageSize, limit, before + [Never]);
            |c.trail| <= |d.trail| <= |store.ids| && (|c.trail| < |store.ids| ==> |c.trail| < |d.trail|)
  {
    hide Execute, Ascending, Candidates;
    var runs := before + [Never];
    assert runs[..|runs| - 1] == before;
    var c, d := Restart(store, ledgers, pageSize, limit, before), Restart(store, ledgers, pageSize, limit, runs);
    RestartOrderly(store, ledgers, pageSize, limit, before);
    RestartOrderly(store, ledgers, pageSize, limit, runs);
    assert |Ids(d.trail)| == |d.trail| && |Ids(c.trail)| == |c.trail|;
    TrailGrows(store, Candidates(store, pageSize, c), c, 0, limit, Never);
    if |c.trail| < |store.ids| {
      assert store.ids[|c.trail|] in store.ids;
      RunProgresses(store, ledgers, pageSize, limit, c, Never);
    }
  }

  lemma {:induction false} ManyRunsFinish(store: Store, ledgers: set<nat>, pageSize: nat, limit: nat, n: nat)
    requires Ascending(store.ids) && pageSize > 0
    requires forall id :: id in store.ids ==> Manageable(store, ledgers, limit, id)
    ensures var c := Restart(store, ledgers, pageSize, limit, seq(n, _ => Never));
            |c.trail| >= n || |c.trail| == |store.ids|
  {
    hide Restart, Manageable, Ascending;
    if n > 0 {
      var before := seq(n - 1, _ => Never);
      assert seq(n, _ => Never) == before + [Never];
      ManyRunsFinish(store, ledgers, pageSize, limit, n - 1);
      OneMoreRun(store, ledgers, pageSize, limit, before);
    }
  }

  ghost predicate Finished(store: Store, ledgers: set<nat>, pageSize: nat, limit: nat, runs: seq<Expiry>) {
    Ids(Restart(store, ledgers, pageSize, limit, runs).trail) == store.ids
  }

  /**
   * Restarting gets through the whole order exactly when every bundle is protected, or fits the limit alone and
   * validates; then one run per bundle that does not end early is enough.
   */
  lemma FinishesIff(store: Store, ledgers: set<nat>, pageSize: nat, limit: nat)
    requires Ascending(store.ids) && pageSize > 0
    ensures (exists runs :: Finished(store, ledgers, pageSize, limit, runs))
       <==> (forall id :: id in store.ids ==> Manageable(store, ledgers, limit, id))
    ensures (forall id :: id in store.ids ==> Manageable(store, ledgers, limit, id))
       <==> Finished(store, ledgers, pageSize, limit, seq(|store.ids|, _ => Never))
  {
    hide Restart, Manageable, Ascending;
    forall runs | Finished(store, ledgers, pageSize, limit, runs)
      ensures forall id :: id in store.ids ==> Manageable(store, ledgers, limit, id)
    {
      forall id | id in store.ids ensures Manageable(store, ledgers, limit, id) {
        var k :| 0 <= k < |store.ids| && store.ids[k] == id;
        if !Manageable(store, ledgers, limit, id) {
          StuckBefore(store, ledgers, pageSize, limit, runs, k);
        }
      }
    }
    if forall id :: id in store.ids ==> Manageable(store, ledgers, limit, id) {
      var runs := seq(|store.ids|, _ => Never);
      ManyRunsFinish(store, ledgers, pageSize, limit, |store.ids|);
      RestartOrderly(store, ledgers, pageSize, limit, runs);
      assert |Ids(Restart(store, ledgers, pageSize, limit, runs).trail)| >= |store.ids|;
      assert Finished(store, ledgers, pageSize, limit, runs);
    }
  }

  // ---------------------------------------------------------------- the dry run

  datatype Reason = NoReason | BlockedBundle | MigrationExists | InvalidSnapshot | BatchByteLimit

  /** `guarded` tells whether the bundle is also blocked or planned, which a later reason may hide. */
  datatype Report = Report(id: nat, bytes: nat, guarded: bool, reason: Reason)

  /** Why the dry run refuses a bundle on its own; a later test overwrites an earlier reason. */
  function OwnReason(store: Store, ledgers: set<nat>, limit: nat, id: nat): Reason {
    if !Acceptable(store, id, limit) then InvalidSnapshot
    else if id in ledgers then MigrationExists
    else if store.bundle(id).blocked then BlockedBundle
    else NoReason
  }

  function ReportOf(store: Store, ledgers: set<nat>, budget: nat, limit: nat, id: nat): Report {
    var bytes, own := store.bundle(id).bytes, OwnReason(store, ledgers, limit, id);
    var reason := if own == NoReason && budget + bytes > limit then BatchByteLimit else own;
    Report(id, bytes, Protected(store, ledgers, id), reason)
  }

  function Selected(budget: nat, report: Report): nat {
    if report.reason == NoReason then budget + report.bytes else budget
  }

  /** The dry-run loop: unlike the execute loop, it goes on after a bundle that does not fit or validate. */
  function DryRun(store: Store, ids: seq<nat>, ledgers: set<nat>, budget: nat, limit: nat): seq<Report> {
    if ids == [] then []
    else
      var report := ReportOf(store, ledgers, budget, limit, ids[0]);
      [report] + DryRun(store, ids[1..], ledgers, Selected(budget, report), limit)
  }

  lemma AppendOne<T>(front: seq<T>, x: T, rest: seq<T>)
    ensures front + ([x] + rest) == front + [x] + rest
  {
  }

  method DryRunPage(store: Store, ids: seq<nat>, ledgers: set<nat>, limit: nat) returns (reports: seq<Report>)
    ensures reports == DryRun(store, ids, ledgers, 0, limit)
  {
    reports := [];
    var budget: nat := 0;
    var i := 0;
    ghost var whole := DryRun(store, ids, ledgers, 0, limit);
    assert ids[0..] == ids;
    while i < |ids|
      invariant 0 <= i <= |ids|
      invariant whole == reports + DryRun(store, ids[i..], ledgers, budget, limit)
    {
      var bundle := store.bundle(ids[i]);
      ghost var expected := ReportOf(store, ledgers, budget, limit, ids[i]);
      ghost var selected := Selected(budget, expected);
      assert DryRun(store, ids[i..], ledgers, budget, limit)
          == [expected] + DryRun(store, ids[i + 1..], ledgers, selected, limit) by {
        assert ids[i..][0] == ids[i] && ids[i..][1..] == ids[i + 1..];
      }
      hide DryRun;
      var reason := if bundle.blocked then BlockedBundle else NoReason;
      if ids[i] in ledgers {
        reason := MigrationExists;
      }
      if !Acceptable(store, ids[i], limit) {
        reason := InvalidSnapshot;
      }
      if reason == NoReason && budget + bundle.bytes > limit {
        reason := BatchByteLimit;
      }
      if reason == NoReason {
        budget := budget + bundle.bytes;
      }
      var report := Report(ids[i], bundle.bytes, bundle.blocked || ids[i] in ledgers, reason);
      assert report == expected && budget == selected;
      hide ReportOf, Selected;
      AppendOne(reports, report, DryRun(store, ids[i + 1..], ledgers, budget, limit));
      reports := reports + [report];
      i := i + 1;
    }
  }

  /** The bytes selected before the k-th report. */
  function SelectedBefore(reports: seq<Report>, k: nat): nat
    requires k <= |reports|
  {
    if k == 0 then 0
    else SelectedBefore(reports, k - 1) + if reports[k - 1].reason == NoReason then reports[k - 1].bytes else 0
  }

  lemma {:induction false} SelectedTail(reports: seq<Report>, k: nat)
    requires k < |reports|
    ensures SelectedBefore(reports, k + 1)
         == (if reports[0].reason == NoReason then reports[0].bytes else 0) + SelectedBefore(reports[1..], k)
  {
    if k > 0 {
      SelectedTail(reports, k - 1);
    }
  }

  /**
   * What each report of a dry run says: which bundle it is about, and which test refuses it, a failed validation
   * before an existing migration before a block before the byte limit.
   */
  lemma {:induction false} ReportsMean(store: Store, ids: seq<nat>, ledgers: set<nat>, budget: nat, limit: nat, k: nat)
    requires k < |ids|
    ensures var reports := DryRun(store, ids, ledgers, budget, limit);
            && |reports| == |ids| && reports[k].id == ids[k]
            && var bundle, reason := store.bundle(ids[k]), reports[k].reason;
               var valid := bundle.sound && limit > 0 && bundle.bytes <= limit;
               && reports[k].bytes == bundle.bytes
               && (reason == InvalidSnapshot <==> !valid)
               && (reason == MigrationExists <==> valid && ids[k] in ledgers)
               && (reason == BlockedBundle <==> valid && ids[k] !in ledgers && bundle.blocked)
               && (reason == BatchByteLimit <==>
                     && valid && ids[k] !in ledgers && !bundle.blocked
                     && budget + SelectedBefore(reports, k) + bundle.bytes > limit)
  {
    var report := ReportOf(store, ledgers, budget, limit, ids[0]);
    var rest := DryRun(store, ids[1..], ledgers, Selected(budget, report), limit);
    var reports := DryRun(store, ids, ledgers, budget, limit);
    assert reports == [report] + rest && reports[1..] == rest;
    if k > 0 {
      ReportsMean(store, ids[1..], ledgers, Selected(budget, report), limit, k - 1);
      SelectedTail(reports, k - 1);
    } else {
      DryRunLength(store, ids, ledgers, budget, limit);
    }
  }

  lemma {:induction false} DryRunLength(store: Store, ids: seq<nat>, ledgers: set<nat>, budget: nat, limit: nat)
    ensures |DryRun(store, ids, ledgers, budget, limit)| == |ids|
  {
    if ids != [] {
      DryRunLength(store, ids[1..], ledgers, Selected(budget, ReportOf(store, ledgers, budget, limit, ids[0])), limit);
    }
  }

  /** The eligible ids reported before the first byte-limit mark. */
  function EligibleFirst(reports: seq<Report>): seq<nat> {
    if reports == [] || reports[0].reason == BatchByteLimit then []
    else (if reports[0].reason == NoReason then [reports[0].id] else []) + EligibleFirst(reports[1..])
  }

  function MigratedIds(trail: seq<Handled>): seq<nat> {
    if trail == [] then []
    else
      var last := trail[|trail| - 1];
      MigratedIds(trail[..|trail| - 1]) + if last.Migrated? then [last.id] else []
  }

  /**
   * What an operator can read off a dry run: before its first byte-limit mark, no eligible bundle follows one that is
   * refused although neither blocked nor planned, and none comes when the bytes selected already equal the limit.
   */
  predicate Foreseen(reports: seq<Report>, room: int) {
    if reports == [] || reports[0].reason == BatchByteLimit then true
    else if reports[0].reason == NoReason then room > 0 && Foreseen(reports[1..], room - reports[0].bytes)
    else if reports[0].guarded then Foreseen(reports[1..], room)
    else EligibleFirst(reports[1..]) == []
  }

  /** A migration of an unprotected bundle of the page records the size that was inspected. */
  ghost predicate SizesMatch(store: Store, ids: seq<nat>, ledgers: set<nat>) {
    forall id :: id in ids && !Protected(store, ledgers, id) ==> store.bundle(id).ledgerBytes == store.bundle(id).bytes
  }

  /** Adding an id that does not occur in the page to the ledgers does not change its dry run. */
  lemma {:induction false} DryRunFrame(store: Store, ids: seq<nat>, ledgers: set<nat>, id: nat, budget: nat, limit: nat)
    requires id !in ids
    ensures DryRun(store, ids, ledgers + {id}, budget, limit) == DryRun(store, ids, ledgers, budget, limit)
  {
    if ids != [] {
      assert ids[0] != id && id !in ids[1..];
      var report := ReportOf(store, ledgers, budget, limit, ids[0]);
      assert ReportOf(store, ledgers + {id}, budget, limit, ids[0]) == report;
      DryRunFrame(store, ids[1..], ledgers, id, Selected(budget, report), limit);
    }
  }

  lemma EligibleCons(r: Report, rest: seq<Report>, room: int)
    ensures EligibleFirst([r] + rest) ==
            if r.reason == BatchByteLimit then []
            else (if r.reason == NoReason then [r.id] else []) + EligibleFirst(rest)
    ensures Foreseen([r] + rest, room) <==>
            if r.reason == BatchByteLimit then true
            else if r.reason == NoReason then room > 0 && Foreseen(rest, room - r.bytes)
            else if r.guarded then Foreseen(rest, room)
            else EligibleFirst(rest) == []
  {
    assert ([r] + rest)[0] == r && ([r] + rest)[1..] == rest;
  }

  lemma MigratedPush(trail: seq<Handled>, h: Handled)
    ensures MigratedIds(trail + [h]) == MigratedIds(trail) + if h.Migrated? then [h.id] else []
  {
    assert (trail + [h])[..|trail|] == trail;
  }

  lemma TailOf(store: Store, ids: seq<nat>, ledgers: set<nat>)
    requires ids != [] && Ascending(ids) && SizesMatch(store, ids, ledgers)
    ensures Ascending(ids[1..]) && ids[0] !in ids[1..]
    ensures SizesMatch(store, ids[1..], ledgers) && SizesMatch(store, ids[1..], ledgers + {ids[0]})
    ensures !Protected(store, ledgers, ids[0]) ==> store.bundle(ids[0]).ledgerBytes == store.bundle(ids[0]).bytes
  {
    assert ids[0] in ids;
    assert forall j :: 0 <= j < |ids[1..]| ==> ids[1..][j] == ids[j + 1];
  }

  /**
   * On one page, an execution that does not end early migrates what the dry run calls eligible before its first mark
   * exactly when the dry run foresees no refusal.
   */
  lemma {:induction false} DryRunPredictsIff(store: Store, ids: seq<nat>, c: Campaign, used: nat, limit: nat)
    requires Ascending(ids) && SizesMatch(store, ids, c.ledgers) && used <= limit
    ensures var reports := DryRun(store, ids, c.ledgers, used, limit);
            MigratedIds(Execute(store, ids, c, used, limit, Never).c.trail)
            == MigratedIds(c.trail) + EligibleFirst(reports)
            <==> Foreseen(reports, limit - used)
    decreases ids
  {
    hide Ascending, SizesMatch, EligibleFirst, Foreseen, MigratedIds, DryRun, Execute, ReportOf;
    if ids == [] {
      NothingForeseen(store, c, used, limit);
    } else {
      TailOf(store, ids, c.ledgers);
      var id, rest := ids[0], ids[1..];
      if Protected(store, c.ledgers, id) {
        DryRunPredictsIff(store, rest, Skip(c, id), used, limit);
        GuardedStep(store, ids, c, used, limit);
      } else if Acceptable(store, id, limit - used) {
        var used' := used + store.bundle(id).bytes;
        DryRunPredictsIff(store, rest, Migrate(c, id), used', limit);
        DryRunFrame(store, rest, c.ledgers, id, used', limit);
        MigratedStep(store, ids, c, used, limit);
        AppendOne(MigratedIds(c.trail), id, EligibleFirst(DryRun(store, rest, c.ledgers, used', limit)));
      } else {
        RefusedStep(store, ids, c, used, limit);
      }
    }
  }

  lemma NothingForeseen(store: Store, c: Campaign, used: nat, limit: nat)
    ensures Execute(store, [], c, used, limit, Never).c == c
    ensures EligibleFirst(DryRun(store, [], c.ledgers, used, limit)) == []
    ensures Foreseen(DryRun(store, [], c.ledgers, used, limit), limit - used)
  {
  }

  /** Both loops pass over a protected bundle. */
  lemma GuardedStep(store: Store, ids: seq<nat>, c: Campaign, used: nat, limit: nat)
    requires ids != [] && Protected(store, c.ledgers, ids[0])
    ensures Execute(store, ids, c, used, limit, Never).c
         == Execute(store, ids[1..], Skip(c, ids[0]), used, limit, Never).c
    ensures MigratedIds(Skip(c, ids[0]).trail) == MigratedIds(c.trail)
    ensures var reports, later := DryRun(store, ids, c.ledgers, used, limit),
        DryRun(store, ids[1..], c.ledgers, used, limit);
            && EligibleFirst(reports) == EligibleFirst(later)
            && (Foreseen(reports, limit - used) <==> Foreseen(later, limit - used))
  {
    hide EligibleFirst, Foreseen, MigratedIds;
    var later := DryRun(store, ids[1..], c.ledgers, used, limit);
    EligibleCons(ReportOf(store, c.ledgers, used, limit, ids[0]), later, limit - used);
    MigratedPush(c.trail, Skipped(ids[0]));
  }

  /** Both loops take the bundle. */
  lemma MigratedStep(store: Store, ids: seq<nat>, c: Campaign, used: nat, limit: nat)
    requires ids != [] && !Protected(store, c.ledgers, ids[0]) && Acceptable(store, ids[0], limit - used)
    requires used <= limit
    requires store.bundle(ids[0]).ledgerBytes == store.bundle(ids[0]).bytes
    ensures var used' := used + store.bundle(ids[0]).bytes;
            var reports, later := DryRun(store, ids, c.ledgers, used, limit),
                DryRun(store, ids[1..], c.ledgers, used', limit);
            && Execute(store, ids, c, used, limit, Never).c
               == Execute(store, ids[1..], Migrate(c, ids[0]), used', limit, Never).c
            && EligibleFirst(reports) == [ids[0]] + EligibleFirst(later)
            && (Foreseen(reports, limit - used) <==> Foreseen(later, limit - used'))
    ensures MigratedIds(Migrate(c, ids[0]).trail) == MigratedIds(c.trail) + [ids[0]]
  {
    hide EligibleFirst, Foreseen, MigratedIds;
    var later := DryRun(store, ids[1..], c.ledgers, used + store.bundle(ids[0]).bytes, limit);
    EligibleCons(ReportOf(store, c.ledgers, used, limit, ids[0]), later, limit - used);
    MigratedPush(c.trail, Migrated(ids[0]));
  }

  /** Execution ends: foreseen iff the dry run has reached its mark, or calls nothing eligible from here to its mark. */
  lemma RefusedStep(store: Store, ids: seq<nat>, c: Campaign, used: nat, limit: nat)
    requires ids != [] && !Protected(store, c.ledgers, ids[0]) && !Acceptable(store, ids[0], limit - used)
    requires used <= limit
    ensures Execute(store, ids, c, used, limit, Never).c == c
    ensures var reports := DryRun(store, ids, c.ledgers, used, limit);
            EligibleFirst(reports) == [] <==> Foreseen(reports, limit - used)
  {
    hide EligibleFirst, Foreseen;
    var report := ReportOf(store, c.ledgers, used, limit, ids[0]);
    EligibleCons(report, DryRun(store, ids[1..], c.ledgers, Selected(used, report), limit), limit - used);
  }

  /**
   * The budget is used up exactly, and a bundle without bytes follows: eligible in the dry run, refused in
   * execution.
   */
  lemma ZeroBytesSurprise(limit: nat)
    requires limit > 0
    ensures var store := Store([1, 2], id => if id == 1 then Bundle(false, true, limit, limit)
        else Bundle(false, true, 0, 0));
            && EligibleFirst(DryRun(store, [1, 2], {}, 0, limit)) == [1, 2]
            && MigratedIds(Execute(store, [1, 2], Fresh({}), 0, limit, Never).c.trail) == [1]
            && Execute(store, [1, 2], Fresh({}), 0, limit, Never).stop == Rejected(2)
  {
    var store := Store([1, 2], id => if id == 1 then Bundle(false, true, limit, limit) else Bundle(false, true, 0, 0));
    assert [1, 2][1..] == [2] && [2][1..] == [];
    var one, two := Report(1, limit, false, NoReason), Report(2, 0, false, NoReason);
    assert DryRun(store, [2], {}, limit, limit) == [two];
    assert DryRun(store, [1, 2], {}, 0, limit) == [one, two];
    EligibleCons(one, [two], 0);
    EligibleCons(two, [], 0);
    assert [one, two] == [one] + [two] && [two] == [two] + [];
    var c := Migrate(Fresh({}), 1);
    assert Execute(store, [2], c, limit, limit, Never) == Page(c, limit, Rejected(2));
    MigratedPush([], Migrated(1));
    assert c.trail == [] + [Migrated(1)];
  }
}
