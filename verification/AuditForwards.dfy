/** What the audit lets through: reads, allowed dependencies, and the writes of an ordinary session. */
module AuditForwards {
  import opened Json
  import opened FirestoreServer
  import opened SafeWriteAudit
  import opened AuditProtocol
  import opened AuditFailClosed

  // ---------------------------------------------------------------- requests that are not Firestore writes

  /** A read is forwarded; any other request outside Firestore is forwarded iff it is an allowed dependency. */
  lemma DependencyGate(w: World, identity: Identity, id: nat, request: Request)
    requires id !in w.tasks && !w.unrouted && !request.firestore
    ensures var x := Step(w, identity, Arrive(id, request));
            && id in x.tasks
            && (x.tasks[id].Continued?
                <==> request.verb in {"GET", "HEAD", "OPTIONS"} || request.dependency.AllowedDependency?)
            && (x.tasks[id].Aborted? <==> !x.tasks[id].Continued?)
  {
  }

  /** Firestore reads and posts to the Listen channel are forwarded without a record. */
  lemma ListeningIsForwarded(w: World, identity: Identity, id: nat, request: Request)
    requires id !in w.tasks && !w.unrouted && request.firestore
    requires request.verb in {"GET", "HEAD", "OPTIONS"} || (request.verb == "POST" && request.path == LISTEN_CHANNEL)
    ensures var x := Step(w, identity, Arrive(id, request));
            id in x.tasks && x.tasks[id].Continued? && x.audit.records == w.audit.records
  {
    hide BeginWrite;
  }

  // ---------------------------------------------------------------- batches that need no baseline

  lemma {:induction false} ScanAllows(id: nat, writes: seq<Value>, own: string, next: nat, records: seq<Record>)
    requires next <= |writes|
    requires forall j :: next <= j < |writes| ==> AllowedBy(writes[j], own, None) && !RecordThrows(writes[j])
    ensures var p := Scan(id, writes, Some(Session(own)), next, false, records); p.Finished? && !p.blocked
    decreases |writes| - next
  {
    hide ClassifyWrite, RecordThrows, WantsBaseline;
    if next < |writes| {
      var c := ClassifyWrite(writes[next], own, None).value;
      ScanAllows(id, writes, own, next + 1, records + [Record(id, c, false)]);
    }
  }

  lemma {:induction false} FlatIn(groups: seq<seq<Value>>, write: Value) returns (k: nat)
    requires write in Flatten(groups)
    ensures k < |groups| && write in groups[k]
  {
    if write in groups[0] {
      k := 0;
    } else {
      k := FlatIn(groups[1..], write);
      k := k + 1;
    }
  }

  lemma ParsedIsCarried(request: Request, groups: seq<seq<Value>>, write: Value)
    requires ParsePayload(request) == Some(groups) && write in Flatten(groups)
    ensures Carries(request, write)
  {
    hide ParsePayload;
    ParseIff(request);
    var k := FlatIn(groups, write);
    assert Lists(Bodies(request)[k], write);
  }

  /** The token of this request binds its account to the database the request names. */
  ghost predicate Authorized(identity: Identity, request: Request, database: string, own: string) {
    && NamesDatabase(request, database) && (exists project :: Names(database, project))
    && TokenMatches(identity, request.bearer, database, own)
  }

  /**
   * In whatever state the audit is: an understood request with a token of the expected identity is forwarded when
   * each of its writes is allowed by itself.
   */
  lemma AllowedIsForwarded(w: World, identity: Identity, id: nat, request: Request, database: string, own: string)
    requires id !in w.tasks && !w.unrouted && Audited(request) && Understood(request)
    requires Authorized(identity, request, database, own)
    requires forall write :: Carries(request, write) ==> AllowedBy(write, own, None) && !RecordThrows(write)
    ensures var x := Step(w, identity, Arrive(id, request));
            && id in x.tasks && x.tasks[id].Continued? && x.tasks[id].session == Some(Session(own))
            && x.audit.sessions == w.audit.sessions[database := Session(own)]
  {
    hide Scan, ParsePayload, RequestDatabase, BoundUid, Flatten, ClassifyWrite, RecordThrows, Understood, Carries;
    hide NamesDatabase, TokenMatches, AllowedBy;
    assert request.bearer.Bearer? by { TokenIsBearer(identity, request.bearer, database, own); }
    var project :| Names(database, project);
    RequestDatabaseIff(request, database);
    BoundUidIff(identity, request.bearer, database, own);
    ParseIff(request);
    var writes := Flatten(ParsePayload(request).value);
    forall j | 0 <= j < |writes| ensures AllowedBy(writes[j], own, None) && !RecordThrows(writes[j]) {
      ParsedIsCarried(request, ParsePayload(request).value, writes[j]);
    }
    ScanAllows(id, writes, own, 0, w.audit.records);
    BindsOwn(w.audit.sessions, identity, request.bearer, database, own);
  }

  lemma TokenIsBearer(identity: Identity, bearer: Bearer, database: string, own: string)
    requires TokenMatches(identity, bearer, database, own)
    ensures bearer.Bearer?
  {
  }

  lemma BindsOwn(sessions: map<string, Session>, identity: Identity, bearer: Bearer, database: string, own: string)
    requires bearer.Bearer? && TokenMatches(identity, bearer, database, own)
    ensures BindSession(sessions, identity, bearer, database) == Some(sessions[database := Session(own)])
  {
    hide BoundUid, TokenMatches;
    BoundUidIff(identity, bearer, database, own);
  }

  /** So is one without a token, when an earlier one has bound this account to the database. */
  lemma RememberedIsForwarded(w: World, identity: Identity, id: nat, request: Request, database: string, own: string)
    requires id !in w.tasks && !w.unrouted && Audited(request) && Understood(request) && request.bearer.NoBearer?
    requires NamesDatabase(request, database) && exists project :: Names(database, project)
    requires database in w.audit.sessions && w.audit.sessions[database] == Session(own)
    requires forall write :: Carries(request, write) ==> AllowedBy(write, own, None) && !RecordThrows(write)
    ensures var x := Step(w, identity, Arrive(id, request));
            && id in x.tasks && x.tasks[id].Continued? && x.tasks[id].session == Some(Session(own))
            && x.audit.sessions == w.audit.sessions
  {
    hide Scan, ParsePayload, RequestDatabase, BoundUid, Flatten, ClassifyWrite, RecordThrows, Understood, Carries;
    hide NamesDatabase, AllowedBy;
    var project :| Names(database, project);
    RequestDatabaseIff(request, database);
    ParseIff(request);
    var writes := Flatten(ParsePayload(request).value);
    forall j | 0 <= j < |writes| ensures AllowedBy(writes[j], own, None) && !RecordThrows(writes[j]) {
      ParsedIsCarried(request, ParsePayload(request).value, writes[j]);
    }
    ScanAllows(id, writes, own, 0, w.audit.records);
  }

  // ---------------------------------------------------------------- tokens of somebody else

  /** The request has no token, or one of the expected identity in the database it names. */
  ghost predicate TokenOk(identity: Identity, request: Request) {
    request.bearer.NoBearer?
    || exists database, own :: NamesDatabase(request, database) && TokenMatches(identity, request.bearer, database, own)
  }

  lemma BeginChecksToken(a: Audit, identity: Identity, id: nat, request: Request)
    requires Audited(request) && !Begin(a, identity, id, request).1.Aborted?
    ensures TokenOk(identity, request)
  {
    hide Scan, ParsePayload, RequestDatabase, BoundUid, Flatten, NamesDatabase, TokenMatches, OwnDocument;
    var database := RequestDatabase(request).value;
    RequestDatabaseIff(request, database);
    if request.bearer.Bearer? {
      var own := OwnDocument(database, BoundUid(identity, request.bearer, database).value);
      BoundUidIff(identity, request.bearer, database, own);
      assert NamesDatabase(request, database) && TokenMatches(identity, request.bearer, database, own);
    }
  }

  ghost predicate TokensOk(w: World, identity: Identity) {
    w.tasks.Keys == w.requests.Keys
    && forall id :: id in w.tasks && Audited(w.requests[id]) && !w.tasks[id].Aborted? ==>
         TokenOk(identity, w.requests[id])
  }

  lemma StepTokens(w: World, identity: Identity, action: Action)
    requires TokensOk(w, identity)
    ensures TokensOk(Step(w, identity, action), identity)
  {
    hide Begin, Resume, Commit, Audited, TokenOk, Flatten, Envelopes, Delivered;
    if action.Arrive? && action.id !in w.tasks && !w.unrouted && Audited(action.request) {
      if !Begin(w.audit, identity, action.id, action.request).1.Aborted? {
        BeginChecksToken(w.audit, identity, action.id, action.request);
      }
    }
  }

  /** In every run, a Firestore request with an unreadable token, or with somebody else's, is never forwarded. */
  lemma {:induction false} WrongTokenNeverForwarded(docs: Documents, identity: Identity, actions: seq<Action>, id: nat)
    ensures var w := Run(docs, identity, actions);
            id in w.tasks && id in w.requests && Audited(w.requests[id]) && w.tasks[id].Continued? ==>
              TokenOk(identity, w.requests[id])
  {
    RunTokens(docs, identity, actions);
  }

  lemma {:induction false} RunTokens(docs: Documents, identity: Identity, actions: seq<Action>)
    ensures TokensOk(Run(docs, identity, actions), identity)
    decreases |actions|
  {
    hide Step;
    if actions != [] {
      RunTokens(docs, identity, actions[..|actions| - 1]);
      StepTokens(Run(docs, identity, actions[..|actions| - 1]), identity, actions[|actions| - 1]);
    }
  }

  // ---------------------------------------------------------------- the writes of an ordinary session

  function Existing(own: string, fields: Fields, mask: seq<Value>, transforms: seq<Value>): Value {
    Obj(map[
      "update" := Obj(map["name" := Str(own), "fields" := Obj(fields)]),
      "updateMask" := Obj(map["fieldPaths" := Arr(mask)]),
      "currentDocument" := Obj(map["exists" := Bool(true)]),
      "updateTransforms" := Arr(transforms)])
  }

  /** The heartbeat: nothing but the server's time in `lastActive`. */
  function Heartbeat(own: string): Value {
    Existing(own, map[], [], [TOUCH_LAST_ACTIVE])
  }

  /** The notification status. */
  function FcmWrite(own: string, status: Fields): Value {
    var fields: Fields := map["fcmSyncStatus" := Obj(map["mapValue" := Obj(map["fields" := Obj(status)])])];
    Existing(own, fields, [Str("fcmSyncStatus")], [])
  }

  /** What the classification reads off such a write. */
  lemma ExistingParts(own: string, fields: Fields, mask: seq<Value>, transforms: seq<Value>)
    ensures var write := Existing(own, fields, mask, transforms);
            && Truthy(Some(write)) && Keys(write) == {"update", "updateMask", "currentDocument", "updateTransforms"}
            && UpdateName(write) == Some(Str(own)) && WriteFields(write) == Obj(fields)
            && Member(Member(Some(write), "currentDocument"), "exists") == Some(Bool(true))
            && Keys(write.fields["currentDocument"]) == {"exists"}
            && Nullish(Member(Some(write), "updateTransforms"), Arr([])) == Arr(transforms)
            && Member(Member(Some(write), "updateMask"), "fieldPaths") == Some(Arr(mask))
            && Keys(Obj(fields)) == fields.Keys
  {
  }

  lemma LengthOf(items: seq<Value>)
    ensures |items| == 0 ==> !Truthy(Length(Arr(items))) && Length(Arr(items)) != Some(Number("1"))
    ensures |items| == 1 ==> Length(Arr(items)) == Some(Number("1"))
  {
    DecimalShort(0);
  }

  lemma HeartbeatAllowed(own: string)
    ensures ClassifyWrite(Heartbeat(own), own, None) == Returned(SessionActivity) && !RecordThrows(Heartbeat(own))
  {
    hide Existing, UpdateName, WriteFields, Length;
    ExistingParts(own, map[], [], [TOUCH_LAST_ACTIVE]);
    LengthOf([TOUCH_LAST_ACTIVE]);
    assert MaskCovers(Some(Arr([])), {}) by {
      assert (set k | k in {} :: Str(k)) == {};
    }
  }

  /** A notification status is allowed iff it has its state and time, and nothing but the two further known fields. */
  lemma FcmAllowedIff(own: string, status: Fields)
    ensures var verdict := ClassifyWrite(FcmWrite(own, status), own, None);
            verdict ==
            Returned(if {"state", "updatedAt"} <= status.Keys <= {"state", "updatedAt", "permission", "errorMessage"}
                     then FcmMetadata else Denied)
    ensures !RecordThrows(FcmWrite(own, status))
  {
    hide Existing, UpdateName, WriteFields, Length, ClassifyFcm;
    var fields: Fields := map["fcmSyncStatus" := Obj(map["mapValue" := Obj(map["fields" := Obj(status)])])];
    ExistingParts(own, fields, [Str("fcmSyncStatus")], []);
    LengthOf([]);
    assert fields.Keys == {"fcmSyncStatus"};
    assert MaskCovers(Some(Arr([Str("fcmSyncStatus")])), {"fcmSyncStatus"}) by {
      assert (set k | k in {"fcmSyncStatus"} :: Str(k)) == {Str("fcmSyncStatus")};
    }
    FcmFields(status);
  }

  lemma FcmFields(status: Fields)
    ensures ClassifyFcm(Obj(map["fcmSyncStatus" := Obj(map["mapValue" := Obj(map["fields" := Obj(status)])])]))
         == Returned(if {"state", "updatedAt"} <= status.Keys <= {"state", "updatedAt", "permission", "errorMessage"}
                     then FcmMetadata else Denied)
  {
    var fields := Obj(map["fcmSyncStatus" := Obj(map["mapValue" := Obj(map["fields" := Obj(status)])])]);
    assert Member(Member(Member(Some(fields), "fcmSyncStatus"), "mapValue"), "fields") == Some(Obj(status));
  }

  /** A batch of heartbeats and complete notification statuses of the token's own account is forwarded. */
  lemma SessionTrafficIsForwarded(w: World, identity: Identity, id: nat, request: Request, database: string,
                                  own: string)
    requires id !in w.tasks && !w.unrouted && Audited(request) && Understood(request)
    requires Authorized(identity, request, database, own)
    requires forall write :: Carries(request, write) ==>
               write == Heartbeat(own)
               || exists status: Fields ::
                    write == FcmWrite(own, status)
                    && {"state", "updatedAt"} <= status.Keys <= {"state", "updatedAt", "permission", "errorMessage"}
    ensures var x := Step(w, identity, Arrive(id, request)); id in x.tasks && x.tasks[id].Continued?
  {
    hide Heartbeat, FcmWrite, Carries, Understood, Authorized, ClassifyWrite, RecordThrows, Step;
    forall write | Carries(request, write) ensures AllowedBy(write, own, None) && !RecordThrows(write) {
      HeartbeatAllowed(own);
      if write != Heartbeat(own) {
        var status: Fields :| write == FcmWrite(own, status)
                      && {"state", "updatedAt"} <= status.Keys <= {"state", "updatedAt", "permission", "errorMessage"};
        FcmAllowedIff(own, status);
      }
    }
    AllowedIsForwarded(w, identity, id, request, database, own);
  }
}
