/** The audit fails closed, request by request, in every interleaving. */
module AuditFailClosed {
  import opened Json
  import opened FirestoreServer
  import opened SafeWriteAudit
  import opened AuditProtocol

  /** The requests that have at least one blocked record. */
  function BlockedIds(records: seq<Record>): set<nat> {
    if records == [] then {}
    else
      var last := records[|records| - 1];
      BlockedIds(records[..|records| - 1]) + if last.blocked then {last.request} else {}
  }

  lemma {:induction false} BlockedIdsMean(records: seq<Record>, id: nat)
    ensures id in BlockedIds(records) <==> exists r :: r in records && r.request == id && r.blocked
  {
    if records != [] {
      var front, last := records[..|records| - 1], records[|records| - 1];
      assert records == front + [last];
      BlockedIdsMean(front, id);
    }
  }

  lemma BlockedIdsPush(records: seq<Record>, r: Record)
    ensures BlockedIds(records + [r]) == BlockedIds(records) + if r.blocked then {r.request} else {}
  {
    assert (records + [r])[..|records|] == records;
  }

  function RoutedIds(routed: seq<(nat, bool)>): seq<nat> {
    seq(|routed|, i requires 0 <= i < |routed| => routed[i].0)
  }

  function Aborts(routed: seq<(nat, bool)>): nat {
    if routed == [] then 0
    else Aborts(routed[..|routed| - 1]) + if routed[|routed| - 1].1 then 0 else 1
  }

  // ---------------------------------------------------------------- one handler segment

  ghost predicate AllowedBy(write: Value, own: string, current: Option<Fields>) {
    ClassifyWrite(write, own, current).Returned? && ClassifyWrite(write, own, current).value != Denied
  }

  /** Allowed on its own, or by a baseline of the account's document that the handler has read. */
  ghost predicate Allowed(write: Value, own: string, used: seq<Baseline>) {
    AllowedBy(write, own, None) || exists b :: b in used && b.name == own && AllowedBy(write, own, b.fields)
  }

  ghost predicate AllowedUpTo(writes: seq<Value>, n: nat, session: Option<Session>, used: seq<Baseline>)
    requires n <= |writes|
  {
    n > 0 ==> session.Some? && forall j :: 0 <= j < n ==> Allowed(writes[j], session.value.ownDocument, used)
  }

  /** How one segment of handler `id` changes the audit, and what it leaves behind. */
  ghost predicate Ran(a: Audit, b: Audit, id: nat, phase: Phase) {
    && b.pending == a.pending
    && BlockedIds(b.records) - {id} == BlockedIds(a.records) - {id}
    && (phase.Aborted? ==>
          id in BlockedIds(b.records) && b.routed == a.routed + [(id, false)] && |b.failures| == |a.failures| + 1)
    && (phase.Continued? ==>
          id !in BlockedIds(b.records) && b.routed == a.routed + [(id, true)] && b.failures == a.failures)
    && (phase.Reading? ==>
          (phase.blocked <==> id in BlockedIds(b.records)) && b.routed == a.routed && b.failures == a.failures)
  }

  ghost predicate ProgressAllowed(p: Progress, writes: seq<Value>, session: Option<Session>, used: seq<Baseline>) {
    && (p.Finished? && !p.blocked ==> AllowedUpTo(writes, |writes|, session, used))
    && (p.NeedsBaseline? ==> session.Some? && p.next < |writes|)
    && (p.NeedsBaseline? && !p.blocked ==> AllowedUpTo(writes, p.next, session, used))
  }

  lemma {:induction false} ScanCloses(id: nat, writes: seq<Value>, session: Option<Session>, next: nat, blocked: bool,
                                      records: seq<Record>, used: seq<Baseline>)
    requires next <= |writes| && (blocked <==> id in BlockedIds(records))
    requires !blocked ==> AllowedUpTo(writes, next, session, used)
    ensures var p := Scan(id, writes, session, next, blocked, records);
            && ProgressAllowed(p, writes, session, used)
            && BlockedIds(p.records) - {id} == BlockedIds(records) - {id}
            && (!p.Broken? ==> (p.blocked <==> id in BlockedIds(p.records)))
    decreases |writes| - next
  {
    hide ClassifyWrite, RecordThrows, WantsBaseline, BlockedIds;
    if next < |writes| && Classify(writes[next], session, None).Returned? {
      var write := writes[next];
      var c := Classify(write, session, None).value;
      if !(session.Some? && c == Denied && (write.Null? || WantsBaseline(write, session.value)))
          && !RecordThrows(write) {
        BlockedIdsPush(records, Record(id, c, c == Denied));
        ScanCloses(id, writes, session, next + 1, blocked || c == Denied, records + [Record(id, c, c == Denied)], used);
      }
    }
  }

  lemma SettleCloses(a: Audit, id: nat, session: Option<Session>, groups: seq<seq<Value>>, used: seq<Baseline>,
                     progress: Progress)
    requires progress.NeedsBaseline? ==> session.Some?
    requires BlockedIds(progress.records) - {id} == BlockedIds(a.records) - {id}
    requires !progress.Broken? ==> (progress.blocked <==> id in BlockedIds(progress.records))
    ensures var (b, phase) := Settle(a, id, session, groups, used, progress);
            Ran(a, b, id, phase)
  {
    BlockedIdsPush(progress.records, Record(id, Unknown, true));
  }

  /** The session belongs to an account that some request so far presented a matched token for, in this database. */
  ghost predicate Vouched(identity: Identity, requests: map<nat, Request>, database: string, session: Session) {
    exists i :: i in requests && Audited(requests[i]) && requests[i].bearer.Bearer?
                && RequestDatabase(requests[i]) == Some(database)
                && BoundUid(identity, requests[i].bearer, database).Some?
                && session.ownDocument == OwnDocument(database, BoundUid(identity, requests[i].bearer, database).value)
  }

  /** What a request's phase says about the request itself. */
  ghost predicate Justified(identity: Identity, requests: map<nat, Request>, request: Request, phase: Phase) {
    match phase
    case Aborted => true
    case Reading(account, groups, next, blocked, used) =>
      && Audited(request) && ParsePayload(request) == Some(groups) && next < |Flatten(groups)|
      && RequestDatabase(request).Some? && Vouched(identity, requests, RequestDatabase(request).value, account)
      && (!blocked ==> AllowedUpTo(Flatten(groups), next, Some(account), used))
    case Continued(session, groups, used) =>
      Audited(request) ==>
        && ParsePayload(request) == Some(groups) && RequestDatabase(request).Some?
        && (session.Some? ==> Vouched(identity, requests, RequestDatabase(request).value, session.value))
        && AllowedUpTo(Flatten(groups), |Flatten(groups)|, session, used)
  }

  lemma VouchedGrows(identity: Identity, requests: map<nat, Request>, id: nat, request: Request, database: string,
                     session: Session)
    requires id !in requests && Vouched(identity, requests, database, session)
    ensures Vouched(identity, requests[id := request], database, session)
  {
    hide RequestDatabase, BoundUid, Audited;
    var i :| i in requests && Audited(requests[i]) && requests[i].bearer.Bearer?
             && RequestDatabase(requests[i]) == Some(database)
             && BoundUid(identity, requests[i].bearer, database).Some?
             && session.ownDocument == OwnDocument(database, BoundUid(identity, requests[i].bearer, database).value);
    var after := requests[id := request];
    assert i in after && after[i] == requests[i];
  }

  lemma JustifiedGrows(identity: Identity, requests: map<nat, Request>, id: nat, request: Request, other: Request,
                       phase: Phase)
    requires id !in requests && Justified(identity, requests, other, phase)
    ensures Justified(identity, requests[id := request], other, phase)
  {
    hide RequestDatabase, ParsePayload, Flatten, Audited, AllowedUpTo, Vouched;
    if phase.Reading? {
      VouchedGrows(identity, requests, id, request, RequestDatabase(other).value, phase.account);
    } else if phase.Continued? && Audited(other) && phase.session.Some? {
      VouchedGrows(identity, requests, id, request, RequestDatabase(other).value, phase.session.value);
    }
  }

  ghost predicate SessionsVouched(identity: Identity, requests: map<nat, Request>, sessions: map<string, Session>) {
    forall db :: db in sessions ==> Vouched(identity, requests, db, sessions[db])
  }

  lemma BindVouches(identity: Identity, requests: map<nat, Request>, id: nat, request: Request,
                    sessions: map<string, Session>)
    requires id in requests && requests[id] == request && Audited(request) && RequestDatabase(request).Some?
    requires SessionsVouched(identity, requests, sessions)
    ensures var bound := BindSession(sessions, identity, request.bearer, RequestDatabase(request).value);
            bound.Some? ==> SessionsVouched(identity, requests, bound.value)
  {
    hide RequestDatabase, BoundUid, Audited;
  }

  lemma BeginWriteCloses(a: Audit, identity: Identity, requests: map<nat, Request>, id: nat, request: Request)
    requires id !in BlockedIds(a.records) && Audited(request) && id in requests && requests[id] == request
    requires SessionsVouched(identity, requests, a.sessions)
    ensures var (b, phase) := BeginWrite(a, identity, id, request);
            Ran(a, b, id, phase) && Justified(identity, requests, request, phase)
                && SessionsVouched(identity, requests, b.sessions)
  {
    hide Scan, ParsePayload, RequestDatabase, BoundUid, Flatten, Vouched, Audited, Allowed, BlockedIds;
    BlockedIdsPush(a.records, Record(id, Unknown, true));
    var database := RequestDatabase(request);
    if database.Some? {
      BindVouches(identity, requests, id, request, a.sessions);
      var sessions := BindSession(a.sessions, identity, request.bearer, database.value);
      var groups := ParsePayload(request);
      if sessions.Some? && groups.Some? {
        var session := if database.value in sessions.value then Some(sessions.value[database.value]) else None;
        ScanCloses(id, Flatten(groups.value), session, 0, false, a.records, []);
        SettleCloses(a.(sessions := sessions.value), id, session, groups.value, [],
                     Scan(id, Flatten(groups.value), session, 0, false, a.records));
      }
    }
  }

  lemma BeginCloses(a: Audit, identity: Identity, requests: map<nat, Request>, id: nat, request: Request)
    requires id !in BlockedIds(a.records) && id in requests && requests[id] == request
    requires SessionsVouched(identity, requests, a.sessions)
    ensures var (b, phase) := Begin(a, identity, id, request);
            && Ran(a.(pending := a.pending + {id}), b, id, phase)
            && Justified(identity, requests, request, phase) && SessionsVouched(identity, requests, b.sessions)
  {
    hide BeginWrite, SessionsVouched, RequestDatabase, ParsePayload, Vouched, AllowedUpTo, Flatten, BlockedIds;
    if Audited(request) {
      BeginWriteCloses(a.(pending := a.pending + {id}), identity, requests, id, request);
    } else if !request.firestore {
      BlockedIdsPush(a.records, Record(id, Dependency(request.dependency), !request.dependency.AllowedDependency?));
    }
  }

  lemma SettleJustified(a: Audit, identity: Identity, requests: map<nat, Request>, request: Request, id: nat,
                        session: Session, groups: seq<seq<Value>>, used: seq<Baseline>, progress: Progress)
    requires Audited(request) && ParsePayload(request) == Some(groups) && RequestDatabase(request).Some?
    requires Vouched(identity, requests, RequestDatabase(request).value, session)
    requires ProgressAllowed(progress, Flatten(groups), Some(session), used)
    ensures var (b, phase) := Settle(a, id, Some(session), groups, used, progress);
            Justified(identity, requests, request, phase) && b.sessions == a.sessions
  {
    hide ParsePayload, RequestDatabase, Vouched, Audited, AllowedUpTo, Flatten;
  }

  lemma AllowedByMore(writes: seq<Value>, n: nat, session: Option<Session>, used: seq<Baseline>, b: Baseline)
    requires n <= |writes| && AllowedUpTo(writes, n, session, used)
    ensures AllowedUpTo(writes, n, session, used + [b])
  {
    hide Allowed;
    if n > 0 {
      forall j | 0 <= j < n ensures Allowed(writes[j], session.value.ownDocument, used + [b]) {
        AllowedMore(writes[j], session.value.ownDocument, used, b);
      }
    }
  }

  lemma AllowedMore(write: Value, own: string, used: seq<Baseline>, b: Baseline)
    requires Allowed(write, own, used)
    ensures Allowed(write, own, used + [b])
  {
    hide AllowedBy;
    if !AllowedBy(write, own, None) {
      var x :| x in used && x.name == own && AllowedBy(write, own, x.fields);
      assert x in used + [b];
    }
  }

  lemma ResumeCloses(a: Audit, identity: Identity, requests: map<nat, Request>, id: nat, request: Request,
                     phase: Phase, reply: Option<Baseline>)
    requires phase.Reading? && phase.next < |Flatten(phase.groups)| && Justified(identity, requests, request, phase)
    requires phase.blocked <==> id in BlockedIds(a.records)
    ensures var (b, phase') := Resume(a, id, phase, reply);
            Ran(a, b, id, phase') && Justified(identity, requests, request, phase') && b.sessions == a.sessions
  {
    hide Scan, ParsePayload, RequestDatabase, ClassifyWrite, RecordThrows, Flatten, Vouched, Audited, BlockedIds;
    BlockedIdsPush(a.records, Record(id, Unknown, true));
    var writes := Flatten(phase.groups);
    var write := writes[phase.next];
    if reply.Some? && reply.value.name == phase.account.ownDocument && !RecordThrows(write) {
      var verdict := ClassifyWrite(write, phase.account.ownDocument, reply.value.fields);
      if verdict.Returned? {
        var denied := verdict.value == Denied;
        var record := Record(id, verdict.value, denied);
        var used := phase.used + [reply.value];
        BlockedIdsPush(a.records, record);
        if !phase.blocked {
          AllowedByMore(writes, phase.next, Some(phase.account), phase.used, reply.value);
          assert reply.value in used;
        }
        var blocked := phase.blocked || denied;
        ScanCloses(id, writes, Some(phase.account), phase.next + 1, blocked, a.records + [record], used);
        SettleCloses(a, id, Some(phase.account), phase.groups, used,
                     Scan(id, writes, Some(phase.account), phase.next + 1, blocked, a.records + [record]));
        SettleJustified(a, identity, requests, request, id, phase.account, phase.groups, used,
                        Scan(id, writes, Some(phase.account), phase.next + 1, blocked, a.records + [record]));
        hide Settle, AllowedUpTo, ProgressAllowed, Ran, Justified;
      }
    }
  }

  // ---------------------------------------------------------------- every run

  function FinishedIds(tasks: map<nat, Phase>): set<nat> {
    set id | id in tasks && !tasks[id].Reading?
  }

  ghost predicate RecordsMatch(records: seq<Record>, tasks: map<nat, Phase>) {
    && BlockedIds(records) <= tasks.Keys
    && (forall id :: id in tasks ==> match tasks[id]
          case Aborted => id in BlockedIds(records)
          case Continued(_, _, _) => id !in BlockedIds(records)
          case Reading(_, _, _, blocked, _) => blocked <==> id in BlockedIds(records))
  }

  ghost predicate RoutesMatch(routed: seq<(nat, bool)>, tasks: map<nat, Phase>) {
    && multiset(RoutedIds(routed)) == multiset(FinishedIds(tasks))
    && (forall k :: 0 <= k < |routed| ==> routed[k].0 in tasks && !tasks[routed[k].0].Reading?
                                          && (tasks[routed[k].0].Continued? <==> routed[k].1))
  }

  ghost predicate PendingMatches(w: World) {
    && w.settled <= FinishedIds(w.tasks)
    && w.audit.pending == w.tasks.Keys - w.settled
    && (w.unrouted ==> w.tasks.Keys <= w.awaited + w.settled)
    && (w.disposed ==> w.unrouted && w.audit.pending == {})
  }

  ghost predicate AllJustified(identity: Identity, requests: map<nat, Request>, tasks: map<nat, Phase>) {
    tasks.Keys == requests.Keys && forall id :: id in tasks ==> Justified(identity, requests, requests[id], tasks[id])
  }

  ghost predicate Closed(w: World, identity: Identity) {
    && RecordsMatch(w.audit.records, w.tasks)
    && RoutesMatch(w.audit.routed, w.tasks)
    && |w.audit.failures| == Aborts(w.audit.routed)
    && PendingMatches(w)
    && AllJustified(identity, w.requests, w.tasks)
    && SessionsVouched(identity, w.requests, w.audit.sessions)
  }

  lemma RoutesPush(routed: seq<(nat, bool)>, tasks: map<nat, Phase>, id: nat, phase: Phase)
    requires RoutesMatch(routed, tasks) && !phase.Reading? && (id !in tasks || tasks[id].Reading?)
    ensures RoutesMatch(routed + [(id, phase.Continued?)], tasks[id := phase])
    ensures Aborts(routed + [(id, phase.Continued?)]) == Aborts(routed) + if phase.Continued? then 0 else 1
  {
    var routed', tasks' := routed + [(id, phase.Continued?)], tasks[id := phase];
    assert routed'[..|routed|] == routed;
    IdsPush(routed, tasks, id, phase);
    hide RoutedIds, FinishedIds, Aborts;
    forall k | 0 <= k < |routed'|
      ensures routed'[k].0 in tasks' && !tasks'[routed'[k].0].Reading?
      ensures tasks'[routed'[k].0].Continued? <==> routed'[k].1
    {
      assert k < |routed| ==> routed'[k] == routed[k];
    }
  }

  lemma IdsPush(routed: seq<(nat, bool)>, tasks: map<nat, Phase>, id: nat, phase: Phase)
    requires multiset(RoutedIds(routed)) == multiset(FinishedIds(tasks))
    requires !phase.Reading? && (id !in tasks || tasks[id].Reading?)
    ensures multiset(RoutedIds(routed + [(id, phase.Continued?)])) == multiset(FinishedIds(tasks[id := phase]))
  {
    assert RoutedIds(routed + [(id, phase.Continued?)]) == RoutedIds(routed) + [id];
    assert FinishedIds(tasks[id := phase]) == FinishedIds(tasks) + {id};
    assert id !in FinishedIds(tasks);
    hide RoutedIds, FinishedIds;
    OneMore(RoutedIds(routed), FinishedIds(tasks), id);
  }

  lemma OneMore(ids: seq<nat>, done: set<nat>, id: nat)
    requires multiset(ids) == multiset(done) && id !in done
    ensures multiset(ids + [id]) == multiset(done + {id})
  {
  }

  lemma RoutesSame(routed: seq<(nat, bool)>, tasks: map<nat, Phase>, id: nat, phase: Phase)
    requires RoutesMatch(routed, tasks) && phase.Reading? && (id !in tasks || tasks[id].Reading?)
    ensures RoutesMatch(routed, tasks[id := phase])
  {
    assert FinishedIds(tasks[id := phase]) == FinishedIds(tasks);
  }

  /** Running a segment of one handler keeps every per-request fact. */
  lemma SegmentCloses(w: World, identity: Identity, id: nat, b: Audit, phase: Phase)
    requires Closed(w, identity) && (id in w.tasks ==> w.tasks[id].Reading?)
    requires Ran(w.audit.(pending := w.audit.pending + {id}), b, id, phase)
    ensures RecordsMatch(b.records, w.tasks[id := phase]) && RoutesMatch(b.routed, w.tasks[id := phase])
    ensures |b.failures| == Aborts(b.routed)
  {
    hide RoutesMatch, Aborts, BlockedIds;
    if phase.Reading? {
      RoutesSame(w.audit.routed, w.tasks, id, phase);
    } else {
      RoutesPush(w.audit.routed, w.tasks, id, phase);
    }
    forall i | i in w.tasks && i != id ensures i in BlockedIds(b.records) <==> i in BlockedIds(w.audit.records) {
      assert i in BlockedIds(b.records) - {id} <==> i in BlockedIds(w.audit.records) - {id};
    }
    forall i | i in BlockedIds(b.records) ensures i in w.tasks[id := phase].Keys {
      assert i == id || i in BlockedIds(b.records) - {id};
    }
  }

  lemma ArriveCloses(w: World, identity: Identity, id: nat, request: Request)
    requires Closed(w, identity) && id !in w.tasks && !w.unrouted
    ensures Closed(Step(w, identity, Arrive(id, request)), identity)
  {
    hide Begin, BlockedIds, RoutesMatch, RecordsMatch, Aborts, Justified, Vouched;
    var w' := Step(w, identity, Arrive(id, request));
    assert id !in BlockedIds(w.audit.records) by {
      FreshIsUnblocked(w, identity, id);
    }
    assert SessionsVouched(identity, w'.requests, w.audit.sessions) by {
      forall db | db in w.audit.sessions ensures Vouched(identity, w'.requests, db, w.audit.sessions[db]) {
        VouchedGrows(identity, w.requests, id, request, db, w.audit.sessions[db]);
      }
    }
    BeginCloses(w.audit, identity, w'.requests, id, request);
    SegmentCloses(w, identity, id, w'.audit, w'.tasks[id]);
    forall i | i in w.tasks ensures Justified(identity, w'.requests, w.requests[i], w.tasks[i]) {
      JustifiedGrows(identity, w.requests, id, request, w.requests[i], w.tasks[i]);
    }
  }

  lemma FreshIsUnblocked(w: World, identity: Identity, id: nat)
    requires RecordsMatch(w.audit.records, w.tasks) && id !in w.tasks
    ensures id !in BlockedIds(w.audit.records)
  {
  }

  lemma WakeCloses(w: World, identity: Identity, id: nat)
    requires Closed(w, identity) && Ready(w, id)
    ensures Closed(Step(w, identity, Wake(id)), identity)
  {
    hide Resume, BlockedIds, RoutesMatch, Aborts, Justified, Vouched, Flatten;
    var w' := Step(w, identity, Wake(id));
    assert w.audit.pending + {id} == w.audit.pending;
    ResumeCloses(w.audit, identity, w.requests, id, w.requests[id], w.tasks[id], w.replies[id]);
    SegmentCloses(w, identity, id, w'.audit, w'.tasks[id]);
    assert w'.tasks.Keys == w.tasks.Keys;
  }

  lemma StepCloses(w: World, identity: Identity, action: Action)
    requires Closed(w, identity)
    ensures Closed(Step(w, identity, action), identity)
  {
    hide Begin, Resume, Commit, BlockedIds, RoutesMatch, RecordsMatch, Aborts, Justified, Vouched, Flatten;
    match action
    case Arrive(id, request) =>
      if id !in w.tasks && !w.unrouted {
        ArriveCloses(w, identity, id, request);
      }
    case Wake(id) =>
      if Ready(w, id) {
        WakeCloses(w, identity, id);
      }
    case _ =>
  }

  lemma {:induction false} RunCloses(docs: Documents, identity: Identity, actions: seq<Action>)
    ensures Closed(Run(docs, identity, actions), identity)
    decreases |actions|
  {
    if actions == [] {
      assert RoutedIds([]) == [] && FinishedIds(map[]) == {};
    } else {
      var before := actions[..|actions| - 1];
      RunCloses(docs, identity, before);
      StepCloses(Run(docs, identity, before), identity, actions[|actions| - 1]);
    }
  }

  /** Every handled request is routed exactly once when its handler is over, and not before. */
  lemma RoutedExactlyOnce(docs: Documents, identity: Identity, actions: seq<Action>, id: nat)
    ensures var w := Run(docs, identity, actions);
            multiset(RoutedIds(w.audit.routed))[id] == if id in w.tasks && !w.tasks[id].Reading? then 1 else 0
  {
    RunCloses(docs, identity, actions);
  }

  /** An ended request was aborted iff one of its own records is blocked; failures count the aborts. */
  lemma AbortedIffBlocked(docs: Documents, identity: Identity, actions: seq<Action>)
    ensures var w := Run(docs, identity, actions);
            && |w.audit.failures| == Aborts(w.audit.routed)
            && (forall k :: 0 <= k < |w.audit.routed| ==>
                  (!w.audit.routed[k].1 <==>
                   exists r :: r in w.audit.records && r.request == w.audit.routed[k].0 && r.blocked))
  {
    hide BlockedIds, Run, Aborts;
    RunCloses(docs, identity, actions);
    var w := Run(docs, identity, actions);
    forall k | 0 <= k < |w.audit.routed|
      ensures !w.audit.routed[k].1
          <==> exists r :: r in w.audit.records && r.request == w.audit.routed[k].0 && r.blocked
    {
      BlockedIdsMean(w.audit.records, w.audit.routed[k].0);
    }
  }

  /** The write is an element of the `writes` array of some envelope of the request's body. */
  ghost predicate Carries(request: Request, write: Value) {
    exists k :: 0 <= k < |Bodies(request)| && Lists(Bodies(request)[k], write)
  }

  predicate Lists(envelope: Option<Value>, write: Value) {
    && envelope.Some? && envelope.value.Obj? && "writes" in envelope.value.fields
    && envelope.value.fields["writes"].Arr? && write in envelope.value.fields["writes"].items
  }

  predicate Names(database: string, project: string) {
    IsProject(project) && database == "projects/" + project + "/databases/(default)"
  }

  /** Some request so far named this database and presented a token of the expected identity for this account. */
  ghost predicate Presented(identity: Identity, requests: map<nat, Request>, database: string, own: string) {
    exists i :: i in requests && Audited(requests[i]) && NamesDatabase(requests[i], database)
                && TokenMatches(identity, requests[i].bearer, database, own)
  }

  lemma VouchedIsPresented(identity: Identity, requests: map<nat, Request>, database: string, session: Session)
    requires Vouched(identity, requests, database, session)
    ensures Presented(identity, requests, database, session.ownDocument)
  {
    hide RequestDatabase, BoundUid, Audited, TokenMatches, NamesDatabase, OwnDocument;
    var i :| i in requests && Audited(requests[i]) && requests[i].bearer.Bearer?
             && RequestDatabase(requests[i]) == Some(database)
             && BoundUid(identity, requests[i].bearer, database).Some?
             && session.ownDocument == OwnDocument(database, BoundUid(identity, requests[i].bearer, database).value);
    RequestDatabaseIff(requests[i], database);
    BoundUidIff(identity, requests[i].bearer, database, session.ownDocument);
  }

  lemma CarriedIsParsed(request: Request, groups: seq<seq<Value>>, write: Value)
    requires ParsePayload(request) == Some(groups) && Carries(request, write)
    ensures write in Flatten(groups)
  {
    hide ParsePayload;
    ParseIff(request);
    var k :| 0 <= k < |Bodies(request)| && Lists(Bodies(request)[k], write);
    assert write in groups[k];
    GroupInFlat(groups, k, write);
  }

  lemma {:induction false} GroupInFlat(groups: seq<seq<Value>>, k: nat, write: Value)
    requires k < |groups| && write in groups[k]
    ensures write in Flatten(groups)
  {
    if k > 0 {
      GroupInFlat(groups[1..], k - 1, write);
    }
  }

  /**
   * Every envelope of a forwarded Firestore request is understood, and every write of every envelope is allowed, by
   * itself or by a baseline read, for an account that a token of the expected identity was presented for, in the
   * database that the request names.
   */
  lemma ForwardedOnlyWhenVouched(docs: Documents, identity: Identity, actions: seq<Action>, id: nat)
    requires var w := Run(docs, identity, actions);
             id in w.tasks && w.tasks[id].Continued? && id in w.requests && Audited(w.requests[id])
    ensures var w := Run(docs, identity, actions);
            var request, session := w.requests[id], w.tasks[id].session;
            && Understood(request)
            && (exists database, project :: NamesDatabase(request, database) && Names(database, project))
            && (forall write :: Carries(request, write) ==>
                  && session.Some? && Allowed(write, session.value.ownDocument, w.tasks[id].used)
                  && exists database :: NamesDatabase(request, database)
                                        && Presented(identity, w.requests, database, session.value.ownDocument))
  {
    hide BlockedIds, Run, Aborts, Flatten, ParsePayload, RequestDatabase, Vouched, Allowed, Understood, Carries;
    hide NamesDatabase, Presented;
    RunCloses(docs, identity, actions);
    var w := Run(docs, identity, actions);
    var request := w.requests[id];
    assert Justified(identity, w.requests, request, w.tasks[id]);
    ParseIff(request);
    var groups, database := ParsePayload(request).value, RequestDatabase(request).value;
    RequestDatabaseIff(request, database);
    var project :| IsProject(project) && database == "projects/" + project + "/databases/(default)";
    assert Names(database, project);
    forall write | Carries(request, write)
      ensures w.tasks[id].session.Some? && Allowed(write, w.tasks[id].session.value.ownDocument, w.tasks[id].used)
      ensures NamesDatabase(request, database)
      ensures Presented(identity, w.requests, database, w.tasks[id].session.value.ownDocument)
    {
      CarriedIsParsed(request, groups, write);
      var j :| 0 <= j < |Flatten(groups)| && Flatten(groups)[j] == write;
      assert Allowed(Flatten(groups)[j], w.tasks[id].session.value.ownDocument, w.tasks[id].used);
      VouchedIsPresented(identity, w.requests, database, w.tasks[id].session.value);
    }
  }

  /** Once `dispose` has returned, nothing is pending, although it waited only for the handlers it saw. */
  lemma NothingPendingAfterDispose(docs: Documents, identity: Identity, actions: seq<Action>)
    requires Run(docs, identity, actions).disposed
    ensures Run(docs, identity, actions).audit.pending == {}
    ensures forall id :: id in Run(docs, identity, actions).tasks ==> !Run(docs, identity, actions).tasks[id].Reading?
  {
    hide Run;
    RunCloses(docs, identity, actions);
    var w := Run(docs, identity, actions);
    forall id | id in w.tasks ensures !w.tasks[id].Reading? {
      assert id in w.tasks.Keys - w.settled || id in w.settled;
    }
  }
}
