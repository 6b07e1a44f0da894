/** Whatever interleaving happens, forwarded writes touch only two fields of the bound accounts' own documents. */
module AuditIntegrity {
  import opened Json
  import opened FirestoreServer
  import opened SafeWriteAudit
  import opened AuditProtocol
  import AuditFailClosed

  ghost predicate HarmlessUpTo(writes: seq<Value>, n: nat, session: Option<Session>, origin: Documents)
    requires n <= |writes|
  {
    n > 0 ==> session.Some? && forall j :: 0 <= j < n ==> Harmless(writes[j], session.value.ownDocument, origin)
  }

  ghost predicate PhaseSafe(phase: Phase, accounts: set<string>, origin: Documents) {
    match phase
    case Aborted => true
    case Reading(account, groups, next, blocked, used) =>
      && account.ownDocument in accounts && next <= |Flatten(groups)|
      && (!blocked ==> HarmlessUpTo(Flatten(groups), next, Some(account), origin))
      && (forall b :: b in used ==> Agrees(origin, b))
    case Continued(session, groups, used) =>
      && (session.Some? ==> session.value.ownDocument in accounts)
      && HarmlessUpTo(Flatten(groups), |Flatten(groups)|, session, origin)
      && (forall b :: b in used ==> Agrees(origin, b))
  }

  ghost predicate Safe(w: World, identity: Identity, origin: Documents) {
    var accounts := Accounts(identity, w.requests);
    && Preserved(origin, w.docs, accounts)
    && (forall db :: db in w.audit.sessions ==> w.audit.sessions[db].ownDocument in accounts)
    && (forall id :: id in w.tasks ==> PhaseSafe(w.tasks[id], accounts, origin))
    && (forall id :: id in w.replies && w.replies[id].Some? ==> Agrees(origin, w.replies[id].value))
  }

  lemma {:induction false} ScanSafe(id: nat, writes: seq<Value>, session: Option<Session>, next: nat, blocked: bool,
                                    records: seq<Record>, origin: Documents)
    requires next <= |writes|
    requires !blocked ==> HarmlessUpTo(writes, next, session, origin)
    ensures var p := Scan(id, writes, session, next, blocked, records);
            && (p.Finished? && !p.blocked ==> HarmlessUpTo(writes, |writes|, session, origin))
            && (p.NeedsBaseline? ==> session.Some? && next <= p.next < |writes|)
            && (p.NeedsBaseline? && !p.blocked ==> HarmlessUpTo(writes, p.next, session, origin))
    decreases |writes| - next
  {
    hide ClassifyWrite, RecordThrows, Harmless, WantsBaseline;
    if next < |writes| && Classify(writes[next], session, None).Returned? {
      var write := writes[next];
      var c := Classify(write, session, None).value;
      if !(session.Some? && c == Denied && (write.Null? || WantsBaseline(write, session.value)))
          && !RecordThrows(write) {
        if c != Denied {
          AllowedIsHarmless(write, session.value.ownDocument, None, origin);
        }
        ScanSafe(id, writes, session, next + 1, blocked || c == Denied, records + [Record(id, c, c == Denied)], origin);
      }
    }
  }

  lemma NothingToForward(accounts: set<string>, origin: Documents)
    ensures PhaseSafe(Continued(None, [], []), accounts, origin) && PhaseSafe(Aborted, accounts, origin)
  {
  }

  lemma BeginWriteSafe(a: Audit, identity: Identity, id: nat, request: Request, accounts: set<string>,
                       origin: Documents)
    requires forall db :: db in a.sessions ==> a.sessions[db].ownDocument in accounts
    requires RequestDatabase(request).Some? && request.bearer.Bearer? ==>
               var uid := BoundUid(identity, request.bearer, RequestDatabase(request).value);
               uid.Some? ==> OwnDocument(RequestDatabase(request).value, uid.value) in accounts
    ensures var (b, phase) := BeginWrite(a, identity, id, request);
            && PhaseSafe(phase, accounts, origin)
            && (forall db :: db in b.sessions ==> b.sessions[db].ownDocument in accounts)
  {
    hide Scan, ParsePayload, RequestDatabase, BoundUid, Harmless, Flatten;
    var database := RequestDatabase(request);
    if database.Some? {
      var sessions := BindSession(a.sessions, identity, request.bearer, database.value);
      var groups := ParsePayload(request);
      if sessions.Some? && groups.Some? {
        var session := if database.value in sessions.value then Some(sessions.value[database.value]) else None;
        ScanSafe(id, Flatten(groups.value), session, 0, false, a.records, origin);
      }
    }
  }

  lemma BeginSafe(a: Audit, identity: Identity, id: nat, request: Request, accounts: set<string>, origin: Documents)
    requires forall db :: db in a.sessions ==> a.sessions[db].ownDocument in accounts
    requires PresentedAccount(identity, request).Some? ==> PresentedAccount(identity, request).value in accounts
    ensures var (b, phase) := Begin(a, identity, id, request);
            && PhaseSafe(phase, accounts, origin)
            && (forall db :: db in b.sessions ==> b.sessions[db].ownDocument in accounts)
  {
    hide BeginWrite, RequestDatabase, BoundUid, PhaseSafe;
    NothingToForward(accounts, origin);
    if Audited(request) {
      BeginWriteSafe(a.(pending := a.pending + {id}), identity, id, request, accounts, origin);
    }
  }

  lemma ResumeSafe(a: Audit, id: nat, phase: Phase, reply: Option<Baseline>, accounts: set<string>, origin: Documents)
    requires phase.Reading? && phase.next < |Flatten(phase.groups)| && PhaseSafe(phase, accounts, origin)
    requires reply.Some? ==> Agrees(origin, reply.value)
    ensures var (b, phase') := Resume(a, id, phase, reply);
            PhaseSafe(phase', accounts, origin) && b.sessions == a.sessions
  {
    hide Scan, ClassifyWrite, RecordThrows, Harmless, Flatten;
    var write := Flatten(phase.groups)[phase.next];
    if reply.Some? && reply.value.name == phase.account.ownDocument && !RecordThrows(write) {
      var verdict := ClassifyWrite(write, phase.account.ownDocument, reply.value.fields);
      if verdict.Returned? {
        var denied := verdict.value == Denied;
        if !denied {
          AllowedIsHarmless(write, phase.account.ownDocument, reply.value.fields, origin);
        }
        ScanSafe(id, Flatten(phase.groups), Some(phase.account), phase.next + 1, phase.blocked || denied,
                 a.records + [Record(id, verdict.value, denied)], origin);
      }
    }
  }

  /** What arrives of a forwarded request is what its handler has parsed. */
  lemma ArrivingIsParsed(w: World, identity: Identity, id: nat, write: Value)
    requires AuditFailClosed.Closed(w, identity) && Underway(w, id)
    requires write in Delivered(Envelopes(w.requests[id])[w.landed[id]])
    ensures write in Flatten(w.tasks[id].groups)
  {
    hide ParsePayload, Flatten, Delivered, AuditFailClosed.Vouched, RequestDatabase, AuditFailClosed.AllowedUpTo;
    var request, groups := w.requests[id], w.tasks[id].groups;
    assert AuditFailClosed.Justified(identity, w.requests, request, w.tasks[id]);
    ParseIff(request);
    AuditFailClosed.GroupInFlat(groups, w.landed[id], write);
  }

  lemma LandSafe(w: World, identity: Identity, origin: Documents, id: nat, stamp: Value)
    requires Safe(w, identity, origin) && AuditFailClosed.Closed(w, identity) && Underway(w, id)
    ensures var writes := Delivered(Envelopes(w.requests[id])[w.landed[id]]);
            Preserved(origin, Commit(w.docs, writes, stamp), Accounts(identity, w.requests))
  {
    hide Delivered, Harmless, Commit, Preserved, Accounts, Flatten, AuditFailClosed.Closed, Envelopes, Agrees;
    var phase := w.tasks[id];
    var group := Delivered(Envelopes(w.requests[id])[w.landed[id]]);
    var writes := Flatten(phase.groups);
    assert PhaseSafe(phase, Accounts(identity, w.requests), origin);
    forall write | write in group
      ensures phase.session.Some? && Harmless(write, phase.session.value.ownDocument, origin)
    {
      ArrivingIsParsed(w, identity, id, write);
      var j :| 0 <= j < |writes| && writes[j] == write;
    }
    if group != [] {
      assert group[0] in group;
      CommitHarmless(origin, w.docs, Accounts(identity, w.requests), group, stamp, phase.session.value.ownDocument);
    } else {
      NothingCommitted(w.docs, stamp);
    }
  }

  lemma NothingCommitted(docs: Documents, stamp: Value)
    ensures Commit(docs, [], stamp) == docs
  {
  }

  lemma AccountsGrow(identity: Identity, requests: map<nat, Request>, id: nat, request: Request)
    requires id !in requests
    ensures Accounts(identity, requests) <= Accounts(identity, requests[id := request])
    ensures PresentedAccount(identity, request).Some? ==>
              PresentedAccount(identity, request).value in Accounts(identity, requests[id := request])
  {
    var after := requests[id := request];
    forall doc | doc in Accounts(identity, requests) ensures doc in Accounts(identity, after) {
      var i :| i in requests && PresentedAccount(identity, requests[i]) == Some(doc);
      assert i in after && after[i] == requests[i];
    }
    assert id in after && after[id] == request;
  }

  lemma PhaseSafeGrows(phase: Phase, accounts: set<string>, more: set<string>, origin: Documents)
    requires PhaseSafe(phase, accounts, origin) && accounts <= more
    ensures PhaseSafe(phase, more, origin)
  {
  }

  lemma PreservedGrows(origin: Documents, docs: Documents, accounts: set<string>, more: set<string>)
    requires Preserved(origin, docs, accounts) && accounts <= more
    ensures Preserved(origin, docs, more)
  {
  }

  lemma ArriveSafe(w: World, identity: Identity, origin: Documents, id: nat, request: Request)
    requires Safe(w, identity, origin) && w.tasks.Keys == w.requests.Keys && id !in w.tasks && !w.unrouted
    ensures Safe(Step(w, identity, Arrive(id, request)), identity, origin)
  {
    hide Begin, PhaseSafe, Preserved, Agrees, Accounts, PresentedAccount;
    var w' := Step(w, identity, Arrive(id, request));
    var accounts, more := Accounts(identity, w.requests), Accounts(identity, w'.requests);
    AccountsGrow(identity, w.requests, id, request);
    BeginSafe(w.audit, identity, id, request, more, origin);
    PreservedGrows(origin, w.docs, accounts, more);
    forall i | i in w.tasks ensures PhaseSafe(w.tasks[i], more, origin) {
      PhaseSafeGrows(w.tasks[i], accounts, more, origin);
    }
  }

  lemma AnswerSafe(w: World, identity: Identity, origin: Documents, id: nat, answer: ReadAnswer)
    requires Safe(w, identity, origin)
    ensures Safe(Step(w, identity, AnswerRead(id, answer)), identity, origin)
  {
    hide PhaseSafe, Accounts, Agrees, Preserved;
    if answer.Answers? && answer.doc in w.docs {
      AnswerAgrees(w.docs, Accounts(identity, w.requests), origin, answer.doc);
      ReplySafe(w, identity, origin, id, Some(Baseline(answer.doc, Some(w.docs[answer.doc]))));
    } else {
      ReplySafe(w, identity, origin, id, None);
    }
    hide Safe;
  }

  lemma ReplySafe(w: World, identity: Identity, origin: Documents, id: nat, reply: Option<Baseline>)
    requires Safe(w, identity, origin) && (reply.Some? ==> Agrees(origin, reply.value))
    ensures Safe(w.(replies := w.replies[id := reply]), identity, origin)
  {
    hide PhaseSafe, Accounts, Agrees, Preserved;
  }

  lemma WakeSafe(w: World, identity: Identity, origin: Documents, id: nat)
    requires Safe(w, identity, origin) && Ready(w, id)
    ensures Safe(Step(w, identity, Wake(id)), identity, origin)
  {
    hide Resume, PhaseSafe, Preserved, Agrees, Accounts, Flatten;
    ResumeSafe(w.audit, id, w.tasks[id], w.replies[id], Accounts(identity, w.requests), origin);
    var w' := Step(w, identity, Wake(id));
    forall i | i in w'.replies ensures i in w.replies && w'.replies[i] == w.replies[i] {
    }
  }

  lemma LandingSafe(w: World, identity: Identity, origin: Documents, id: nat, lost: bool, stamp: Value)
    requires Safe(w, identity, origin) && AuditFailClosed.Closed(w, identity)
    ensures Safe(Step(w, identity, Land(id, lost, stamp)), identity, origin)
  {
    hide Commit, PhaseSafe, Preserved, Agrees, Accounts, Envelopes, Delivered, AuditFailClosed.Closed;
    if Underway(w, id) {
      LandSafe(w, identity, origin, id, stamp);
    }
  }

  lemma AnswerAgrees(docs: Documents, accounts: set<string>, origin: Documents, doc: string)
    requires Preserved(origin, docs, accounts) && doc in docs
    ensures Agrees(origin, Baseline(doc, Some(docs[doc])))
  {
    assert SameBut(origin[doc], docs[doc], VOLATILE);
    forall f | f in PROFILE_FIELDS ensures SameField(origin[doc], docs[doc], f) {
      assert f !in VOLATILE;
    }
  }

  lemma StepSafe(w: World, identity: Identity, origin: Documents, action: Action)
    requires Safe(w, identity, origin) && w.tasks.Keys == w.requests.Keys && !action.External?
    requires AuditFailClosed.Closed(w, identity)
    ensures Safe(Step(w, identity, action), identity, origin)
    ensures Step(w, identity, action).tasks.Keys == Step(w, identity, action).requests.Keys
  {
    hide Step, Safe, Ready, AuditFailClosed.Closed;
    StepKeys(w, identity, action);
    match action
    case Arrive(id, request) =>
      if id !in w.tasks && !w.unrouted {
        ArriveSafe(w, identity, origin, id, request);
      } else {
        NothingHappens(w, identity, action);
      }
    case AnswerRead(id, answer) =>
      AnswerSafe(w, identity, origin, id, answer);
    case Wake(id) =>
      if Ready(w, id) {
        WakeSafe(w, identity, origin, id);
      } else {
        NothingHappens(w, identity, action);
      }
    case Land(id, lost, stamp) =>
      LandingSafe(w, identity, origin, id, lost, stamp);
    case _ =>
      QuietSafe(w, identity, origin, action);
  }

  lemma StepKeys(w: World, identity: Identity, action: Action)
    requires w.tasks.Keys == w.requests.Keys
    ensures Step(w, identity, action).tasks.Keys == Step(w, identity, action).requests.Keys
  {
    hide Begin, Resume, Commit, Complete, Flatten;
  }

  lemma NothingHappens(w: World, identity: Identity, action: Action)
    ensures action.Arrive? && (action.id in w.tasks || w.unrouted) ==> Step(w, identity, action) == w
    ensures action.Wake? && !Ready(w, action.id) ==> Step(w, identity, action) == w
  {
  }

  lemma QuietSafe(w: World, identity: Identity, origin: Documents, action: Action)
    requires Safe(w, identity, origin) && (action.Finish? || action.Unroute? || action.DisposeReturns?)
    ensures Safe(Step(w, identity, action), identity, origin)
  {
    hide PhaseSafe, Preserved, Agrees, Accounts;
  }

  lemma {:induction false} RunSafe(docs: Documents, identity: Identity, actions: seq<Action>)
    requires NoExternalWriter(actions)
    ensures Safe(Run(docs, identity, actions), identity, docs)
    ensures Run(docs, identity, actions).tasks.Keys == Run(docs, identity, actions).requests.Keys
    decreases |actions|
  {
    if actions != [] {
      var before := actions[..|actions| - 1];
      RunSafe(docs, identity, before);
      AuditFailClosed.RunCloses(docs, identity, before);
      StepSafe(Run(docs, identity, before), identity, docs, actions[|actions| - 1]);
    }
  }

  /**
   * In every run without an outside writer, no document appears or disappears, documents of other accounts are
   * untouched, and a bound account's own document changes at most in `lastActive` and `fcmSyncStatus`.
   */
  lemma ForwardedWritesAreConfined(docs: Documents, identity: Identity, actions: seq<Action>)
    requires NoExternalWriter(actions)
    ensures var w := Run(docs, identity, actions);
            && w.docs.Keys == docs.Keys
            && (forall d :: d in docs && d !in Accounts(identity, w.requests) ==> w.docs[d] == docs[d])
            && (forall d, f :: d in docs && f !in {"lastActive", "fcmSyncStatus"} ==> SameField(docs[d], w.docs[d], f))
  {
    RunSafe(docs, identity, actions);
    var w := Run(docs, identity, actions);
    forall d, f | d in docs && f !in {"lastActive", "fcmSyncStatus"} ensures SameField(docs[d], w.docs[d], f) {
      assert SameBut(docs[d], w.docs[d], VOLATILE);
    }
  }

  /** Every baseline a forwarded request was judged by is still what the server holds, whenever it lands. */
  lemma BaselineStillTrue(docs: Documents, identity: Identity, actions: seq<Action>, id: nat, baseline: Baseline)
    requires NoExternalWriter(actions)
    requires var w := Run(docs, identity, actions);
             id in w.tasks && w.tasks[id].Continued? && baseline in w.tasks[id].used && baseline.fields.Some?
    ensures var w := Run(docs, identity, actions);
            baseline.name in w.docs
            && forall f :: f in PROFILE_FIELDS ==> SameField(w.docs[baseline.name], baseline.fields.value, f)
  {
    hide Run, Harmless, Flatten, Accounts;
    RunSafe(docs, identity, actions);
    var w := Run(docs, identity, actions);
    assert PhaseSafe(w.tasks[id], Accounts(identity, w.requests), docs);
    forall f | f in PROFILE_FIELDS ensures SameField(w.docs[baseline.name], baseline.fields.value, f) {
      assert SameBut(docs[baseline.name], w.docs[baseline.name], VOLATILE);
      assert SameField(docs[baseline.name], w.docs[baseline.name], f);
      assert SameField(docs[baseline.name], baseline.fields.value, f);
    }
  }

  /** With a fixed uid, the only documents that can change are that uid's own user documents. */
  lemma FixedUidAccounts(uid: string, requests: map<nat, Request>, doc: string)
    requires doc in Accounts(Uid(uid), requests)
    ensures exists database :: DatabaseProject(database).Some? && doc == OwnDocument(database, uid)
  {
    var id :| id in requests && PresentedAccount(Uid(uid), requests[id]) == Some(doc);
    var database := RequestDatabase(requests[id]).value;
    CommitDatabaseIsDatabase(requests[id]);
    assert DatabaseProject(database).Some?;
  }

  lemma CommitDatabaseIsDatabase(request: Request)
    requires RequestDatabase(request).Some?
    ensures DatabaseProject(RequestDatabase(request).value).Some?
  {
    if request.databaseParam.None? {
      var project := CommitProject(request.path).value;
      var database := DatabaseOf(project);
      assert database[9..|database| - 20] == project;
      assert database[|database| - 20..] == "/databases/(default)";
    }
  }
}
