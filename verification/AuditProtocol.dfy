/** Interleaved audited requests against one Firestore server. */
module AuditProtocol {
  import opened Json
  import opened Text
  import opened FirestoreServer
  import opened SafeWriteAudit

  /** `replies` holds answered baseline reads not yet consumed; `landed` counts the envelopes that have arrived. */
  datatype World = World(
    audit: Audit,
    requests: map<nat, Request>,
    tasks: map<nat, Phase>,
    replies: map<nat, Option<Baseline>>,
    landed: map<nat, nat>,
    docs: Documents,
    unrouted: bool,
    awaited: set<nat>,
    settled: set<nat>,
    disposed: bool)

  /** The server answers a read with some document it holds, or the read fails. */
  datatype ReadAnswer = Fails | Answers(doc: string)

  datatype Action =
    | Arrive(id: nat, request: Request)
    | AnswerRead(id: nat, answer: ReadAnswer)
    | Wake(id: nat)
    | Land(id: nat, lost: bool, stamp: Value)
    | Finish(id: nat)
    | Unroute
    | DisposeReturns
    | External(doc: string, fields: Fields)     // a writer the audit does not see

  predicate Waiting(w: World, id: nat) {
    id in w.tasks && w.tasks[id].Reading?
  }

  predicate Over(w: World, id: nat) {
    id in w.tasks && !w.tasks[id].Reading?
  }

  predicate Ready(w: World, id: nat) {
    Waiting(w, id) && id in w.replies && w.tasks[id].next < |Flatten(w.tasks[id].groups)|
  }

  /** The request has been forwarded, and some envelope of it has not arrived yet. */
  predicate Underway(w: World, id: nat) {
    && id in w.tasks && id in w.requests && w.tasks[id].Continued?
    && id in w.landed && w.landed[id] < |Envelopes(w.requests[id])|
  }

  function Enter(w: World, id: nat, audit: Audit, phase: Phase): World {
    w.(audit := audit, tasks := w.tasks[id := phase], replies := w.replies - {id}, landed := w.landed[id := 0])
  }

  /** One atomic step; an action that is not enabled changes nothing. */
  function Step(w: World, identity: Identity, action: Action): World {
    match action
    case Arrive(id, request) =>
      if id in w.tasks || w.unrouted then w
      else
        var (audit, phase) := Begin(w.audit, identity, id, request);
        Enter(w, id, audit, phase).(requests := w.requests[id := request])
    case AnswerRead(id, answer) =>
      if !Waiting(w, id) || id in w.replies then w
      else if answer.Answers? && answer.doc in w.docs then
        w.(replies := w.replies[id := Some(Baseline(answer.doc, Some(w.docs[answer.doc])))])
      else w.(replies := w.replies[id := None])
    case Wake(id) =>
      if !Ready(w, id) then w
      else
        var (audit, phase) := Resume(w.audit, id, w.tasks[id], w.replies[id]);
        Enter(w, id, audit, phase)
    case Land(id, lost, stamp) =>
      if !Underway(w, id) then w
      else
        var writes := Delivered(Envelopes(w.requests[id])[w.landed[id]]);
        w.(landed := w.landed[id := w.landed[id] + 1], docs := if lost then w.docs else Commit(w.docs, writes, stamp))
    case Finish(id) =>
      if !Over(w, id) then w
      else w.(audit := Complete(w.audit, id), settled := w.settled + {id})
    case Unroute => if w.unrouted then w else w.(unrouted := true, awaited := w.audit.pending)
    case DisposeReturns => if w.unrouted && w.awaited <= w.settled then w.(disposed := true) else w
    case External(doc, fields) => w.(docs := w.docs[doc := fields])
  }

  function Start(docs: Documents): World {
    World(Audit([], [], map[], {}, []), map[], map[], map[], map[], docs, false, {}, {}, false)
  }

  function Run(docs: Documents, identity: Identity, actions: seq<Action>): World {
    if actions == [] then Start(docs)
    else Step(Run(docs, identity, actions[..|actions| - 1]), identity, actions[|actions| - 1])
  }

  /** The envelopes of a request's body, one for each JSON text in it; None where the text does not parse. */
  function Bodies(request: Request): seq<Option<Value>> {
    match request.body
    case CommitBody(json) => [json]
    case ChannelBody(payloads, _, _) => payloads
  }

  /** What the server receives when the request is forwarded: reads and Listen posts carry no write. */
  function Envelopes(request: Request): seq<Option<Value>> {
    if Audited(request) then Bodies(request) else []
  }

  predicate NoExternalWriter(actions: seq<Action>) {
    forall a :: a in actions ==> !a.External?
  }

  /** The request reaches the Firestore write branch of the handler. */
  predicate Audited(request: Request) {
    request.verb !in {"GET", "HEAD", "OPTIONS"} && request.firestore
    && !(request.verb == "POST" && request.path == LISTEN_CHANNEL)
  }

  /** The document of the account an identity-matched token was presented for by this request. */
  function PresentedAccount(identity: Identity, request: Request): Option<string> {
    if !Audited(request) || !request.bearer.Bearer? then None
    else
      var database :- RequestDatabase(request);
      var uid :- BoundUid(identity, request.bearer, database);
      Some(OwnDocument(database, uid))
  }

  /** The bound accounts' own documents: those a matched token was presented for so far. */
  function Accounts(identity: Identity, requests: map<nat, Request>): set<string> {
    set id | id in requests && PresentedAccount(identity, requests[id]).Some?
      :: PresentedAccount(identity, requests[id]).value
  }

  // ---------------------------------------------------------------- what the parser reads

  /** An object that lists its writes, or a handshake that names a database or a stream. */
  predicate GoodEnvelope(envelope: Option<Value>) {
    envelope.Some? && envelope.value.Obj? &&
    var fields := envelope.value.fields;
    if "writes" in fields then fields["writes"].Arr?
    else ("database" in fields && fields["database"].Str?) || ("streamToken" in fields && fields["streamToken"].Str?)
  }

  predicate IsProject(project: string) {
    project != "" && '/' !in project
  }

  /** A POST over HTTPS to the write channel or to a commit endpoint, all of whose envelopes are understood. */
  ghost predicate Understood(request: Request) {
    && request.https && request.firestore && request.verb == "POST"
    && (if request.path == WRITE_CHANNEL then
          request.body.ChannelBody? && (request.body.payloads != [] || request.body.empty || request.body.terminate)
        else
          && request.body.CommitBody?
          && exists project :: IsProject(project)
                               && request.path == "/v1/projects/" + project + "/databases/(default)/documents:commit")
    && forall k :: 0 <= k < |Bodies(request)| ==> GoodEnvelope(Bodies(request)[k])
  }

  lemma BetweenIff(text: string, prefix: string, suffix: string, middle: string)
    ensures Between(text, prefix, suffix) == Some(middle) <==> IsProject(middle) && text == prefix + middle + suffix
  {
    if text == prefix + middle + suffix {
      assert text[|prefix|..|text| - |suffix|] == middle;
      assert text[|text| - |suffix|..] == suffix;
    }
    if Between(text, prefix, suffix) == Some(middle) {
      assert text == text[..|prefix|] + text[|prefix|..|text| - |suffix|] + text[|text| - |suffix|..];
    }
  }

  lemma {:induction false} EnvelopesRead(payloads: seq<Option<Value>>)
    ensures EnvelopesWrites(payloads).Some? <==> forall k :: 0 <= k < |payloads| ==> GoodEnvelope(payloads[k])
    ensures EnvelopesWrites(payloads).Some? ==>
              && |EnvelopesWrites(payloads).value| == |payloads|
              && forall k :: 0 <= k < |payloads| ==> EnvelopesWrites(payloads).value[k] == Delivered(payloads[k])
  {
    if payloads != [] {
      EnvelopesRead(payloads[1..]);
      EnvelopeRead(payloads[0]);
      hide GoodEnvelope, Delivered;
      assert forall k :: 1 <= k < |payloads| ==> payloads[1..][k - 1] == payloads[k];
    }
  }

  lemma EnvelopeRead(envelope: Option<Value>)
    ensures GoodEnvelope(envelope) <==> envelope.Some? && EnvelopeWrites(envelope.value).Some?
    ensures GoodEnvelope(envelope) ==> EnvelopeWrites(envelope.value) == Some(Delivered(envelope))
  {
  }

  lemma CommitPathIff(path: string)
    ensures CommitProject(path).Some? <==>
              exists project :: IsProject(project)
                                && path == "/v1/projects/" + project + "/databases/(default)/documents:commit"
    ensures path == WRITE_CHANNEL ==> CommitProject(path).None?
  {
    if CommitProject(path).Some? {
      BetweenIff(path, "/v1/projects/", "/databases/(default)/documents:commit", CommitProject(path).value);
    }
    if project :| IsProject(project) && path == "/v1/projects/" + project + "/databases/(default)/documents:commit" {
      BetweenIff(path, "/v1/projects/", "/databases/(default)/documents:commit", project);
    }
    assert WRITE_CHANNEL[1] == 'g' && "/v1/projects/"[1] == 'v';
  }

  /** The parser succeeds exactly on understood requests, and reads every write of every envelope in order. */
  lemma ParseIff(request: Request)
    ensures ParsePayload(request).Some? <==> Understood(request)
    ensures ParsePayload(request).Some? ==>
              var groups := ParsePayload(request).value;
              && |groups| == |Bodies(request)|
              && forall k :: 0 <= k < |groups| ==> groups[k] == Delivered(Bodies(request)[k])
  {
    hide CommitProject, EnvelopesWrites, GoodEnvelope, Delivered;
    EnvelopesRead(Bodies(request));
    CommitPathIff(request.path);
  }

  /** The request's query or its path names this database. */
  predicate NamesDatabase(request: Request, database: string) {
    if request.databaseParam.Some? then request.databaseParam.value == database
    else request.path == "/v1/" + database + "/documents:commit"
  }

  /** The token's claims are those of the expected identity in this database, and this is its account's document. */
  predicate TokenMatches(identity: Identity, bearer: Bearer, database: string, own: string) {
    && bearer.Bearer? && bearer.sub != ""
    && (match identity
        case Uid(uid) => bearer.sub == uid
        case Email(email) => bearer.email.Some? && Lower(bearer.email.value) == Lower(email))
    && database == "projects/" + bearer.aud + "/databases/(default)"
    && own == database + "/documents/users/" + bearer.sub
  }

  lemma RequestDatabaseIff(request: Request, database: string)
    ensures RequestDatabase(request) == Some(database) <==>
              && NamesDatabase(request, database)
              && exists project :: IsProject(project) && database == "projects/" + project + "/databases/(default)"
  {
    hide Between, IsProject;
    if project :| IsProject(project) && database == "projects/" + project + "/databases/(default)" {
      DatabaseIff(database, project);
      PathIff(request.path, database, project);
    }
    if RequestDatabase(request) == Some(database) {
      if request.databaseParam.Some? {
        DatabaseIff(database, DatabaseProject(database).value);
      } else {
        PathIff(request.path, database, CommitProject(request.path).value);
      }
    }
  }

  lemma DatabaseIff(database: string, project: string)
    ensures DatabaseProject(database) == Some(project)
       <==> IsProject(project) && database == "projects/" + project + "/databases/(default)"
  {
    BetweenIff(database, "projects/", "/databases/(default)", project);
  }

  lemma PathIff(path: string, database: string, project: string)
    requires database == "projects/" + project + "/databases/(default)"
    ensures CommitProject(path) == Some(project)
       <==> IsProject(project) && path == "/v1/" + database + "/documents:commit"
    ensures DatabaseOf(project) == database
  {
    hide Between;
    var suffix := "/databases/(default)";
    BetweenIff(path, "/v1/projects/", "/databases/(default)/documents:commit", project);
    Grouped("/v1/", "projects/", project, suffix, "/documents:commit");
    assert "/v1/" + "projects/" == "/v1/projects/";
    assert suffix + "/documents:commit" == "/databases/(default)/documents:commit";
  }

  lemma Grouped(a: string, b: string, c: string, d: string, e: string)
    ensures a + (b + c + d) + e == (a + b) + c + (d + e)
  {
  }

  lemma BoundUidIff(identity: Identity, bearer: Bearer, database: string, own: string)
    requires bearer.Bearer?
    ensures TokenMatches(identity, bearer, database, own) <==>
              && BoundUid(identity, bearer, database).Some?
              && own == OwnDocument(database, BoundUid(identity, bearer, database).value)
  {
    assert DatabaseOf(bearer.aud) == "projects/" + bearer.aud + "/databases/(default)";
  }

  // ---------------------------------------------------------------- classification implies harmlessness

  lemma DecimalShort(n: nat)
    ensures Decimal(n) == "1" ==> n == 1
    ensures !Truthy(Some(Number(Decimal(n)))) ==> n == 0
  {
    DecimalIsDigits(n);
    assert IsDigit(Decimal(n)[0]);
  }

  lemma OwnFieldsAreText(mask: seq<Value>, keys: set<string>)
    requires multiset(mask) == multiset(set k | k in keys :: Str(k))
    ensures forall v :: v in mask ==> v.Str? && v.s in keys
    ensures forall k :: k in keys ==> Str(k) in mask
  {
    forall v | v in mask ensures v.Str? && v.s in keys {
      assert v in multiset(mask);
    }
    forall k | k in keys ensures Str(k) in mask {
      assert Str(k) in multiset(mask);
    }
  }

  predicate Agrees(origin: Documents, baseline: Baseline) {
    baseline.name in origin
    && (baseline.fields.Some? ==> forall f :: f in PROFILE_FIELDS ==>
        SameField(origin[baseline.name], baseline.fields.value, f))
  }

  /** The shape that every allowed write has. */
  ghost predicate AllowedShape(write: Value, own: string, mask: seq<Value>, transforms: seq<Value>) {
    && write.Obj? && write.fields.Keys <= {"update", "updateMask", "currentDocument", "updateTransforms"}
    && UpdateName(write) == Some(Str(own))
    && Member(Member(Some(write), "currentDocument"), "exists") == Some(Bool(true))
    && Member(Member(Some(write), "updateMask"), "fieldPaths") == Some(Arr(mask))
    && multiset(mask) == multiset(set k | k in Keys(WriteFields(write)) :: Str(k))
    && Nullish(Member(Some(write), "updateTransforms"), Arr([])) == Arr(transforms)
  }

  lemma AllowedHasShape(write: Value, own: string, current: Option<Fields>)
    returns (mask: seq<Value>, transforms: seq<Value>)
    requires ClassifyWrite(write, own, current).Returned? && ClassifyWrite(write, own, current).value != Denied
    requires !RecordThrows(write)
    ensures AllowedShape(write, own, mask, transforms)
    ensures (Keys(WriteFields(write)) == {} && transforms == [TOUCH_LAST_ACTIVE]) || transforms == []
    ensures transforms == [] ==>
              Keys(WriteFields(write)) == {"fcmSyncStatus"}
                  || (current.Some? && Keys(WriteFields(write)) == PROFILE_FIELDS)
    ensures transforms == [] && Keys(WriteFields(write)) == PROFILE_FIELDS ==>
              forall k :: k in PROFILE_FIELDS ==>
                  Member(Some(WriteFields(write)), k) == Member(Some(Obj(current.value)), k)
  {
    mask := Member(Member(Some(write), "updateMask"), "fieldPaths").value.items;
    transforms := Nullish(Member(Some(write), "updateTransforms"), Arr([])).items;
    DecimalShort(|transforms|);
    assert "bio" in PROFILE_FIELDS && "bio" !in {"fcmSyncStatus"};
  }

  lemma ShapeDecodes(write: Value, own: string, mask: seq<Value>, transforms: seq<Value>)
    requires AllowedShape(write, own, mask, transforms) && Decode(write).Some?
    ensures Texts(mask).Some? && DecodeTransforms(Arr(transforms)).Some? && WriteFields(write).Obj?
    ensures Decode(write).value == Patch(own, WriteFields(write).fields, Some(Texts(mask).value),
        DecodeTransforms(Arr(transforms)).value, Some(true))
  {
  }

  lemma TransformedIsVolatile(transforms: seq<Value>)
    requires transforms == [TOUCH_LAST_ACTIVE] || transforms == []
    ensures DecodeTransforms(Arr(transforms)).Some?
    ensures forall f :: f in DecodeTransforms(Arr(transforms)).value ==> f in VOLATILE
  {
    if transforms == [TOUCH_LAST_ACTIVE] {
      assert FieldPaths(transforms[1..]) == Some([]);
      assert Member(Some(transforms[0]), "fieldPath") == Some(Str("lastActive"));
      assert ["lastActive"] + [] == ["lastActive"];
      assert FieldPaths(transforms) == Some(["lastActive"]);
    }
  }

  /** A write that is allowed, and recorded without an exception, is harmless to the account's document. */
  lemma AllowedIsHarmless(write: Value, own: string, current: Option<Fields>, origin: Documents)
    requires ClassifyWrite(write, own, current).Returned? && ClassifyWrite(write, own, current).value != Denied
    requires !RecordThrows(write)
    requires current.Some? ==> Agrees(origin, Baseline(own, current))
    ensures Harmless(write, own, origin)
  {
    if Decode(write).Some? {
      var mask, transforms := AllowedHasShape(write, own, current);
      ShapeDecodes(write, own, mask, transforms);
      OwnFieldsAreText(mask, Keys(WriteFields(write)));
      TextsAre(mask);
      TransformedIsVolatile(transforms);
      var patch := Decode(write).value;
      hide ClassifyWrite, RecordThrows, Decode, AllowedShape, Texts, DecodeTransforms;
      forall f | f in patch.mask.value && f !in VOLATILE
        ensures own in origin && f in origin[own] && f in patch.fields && patch.fields[f] == origin[own][f]
      {
        assert Str(f) in mask;
        assert f in PROFILE_FIELDS;
        RepeatsOrigin(WriteFields(write), own, current, origin, f);
      }
      hide Agrees, WriteFields, Keys;
    }
  }

  lemma RepeatsOrigin(fields: Value, own: string, current: Option<Fields>, origin: Documents, f: string)
    requires current.Some? && Agrees(origin, Baseline(own, current)) && f in PROFILE_FIELDS
    requires f in Keys(fields) && fields.Obj? && Member(Some(fields), f) == Member(Some(Obj(current.value)), f)
    ensures own in origin && f in origin[own] && f in fields.fields && fields.fields[f] == origin[own][f]
  {
    assert SameField(origin[own], current.value, f);
  }
}
