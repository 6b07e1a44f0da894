/** The gate in front of every outgoing request: parsing, classification, and the handler's own state. */
module SafeWriteAudit {
  import opened Json
  import opened Text

  // ---------------------------------------------------------------- classification of one write

  datatype Classification =
    | SessionActivity
    | FcmMetadata
    | ProfileNoChange
    | Denied              // PRODUCT_MUTATION_OR_UNKNOWN
    | Dependency(verdict: DependencyVerdict)
    | Unknown             // the whole request could not be understood

  const PROFILE_FIELDS: set<string> := {"bio", "displayName", "profileImage", "publicHandle", "searchTokens"}
  const EMPTY_STRING: Value := Obj(map["stringValue" := Str("")])
  const TOUCH_LAST_ACTIVE: Value :=
    Obj(map["fieldPath" := Str("lastActive"), "setToServerValue" := Str("REQUEST_TIME")])

  function UpdateName(write: Value): Option<Value> {
    Member(Member(Some(write), "update"), "name")
  }

  function WriteFields(write: Value): Value {
    Nullish(Member(Member(Some(write), "update"), "fields"), Obj(map[]))
  }

  /** Comparing two sorted key lists is comparing them as multisets, and `Object.keys` has no duplicates. */
  predicate MaskCovers(mask: Option<Value>, keys: set<string>) {
    mask.Some? && mask.value.Arr? && multiset(mask.value.items) == multiset(set k | k in keys :: Str(k))
  }

  /** `transforms.length` when it is truthy or compared with 1: strings, arrays and objects may have one. */
  function Length(v: Value): Option<Value> {
    match v
    case Arr(items) => Some(Number(Decimal(|items|)))
    case Str(s) => Some(Number(Decimal(|s|)))
    case _ => Member(Some(v), "length")
  }

  /** `transforms[0]`. */
  function First(v: Value): Option<Value> {
    match v
    case Arr(items) => if |items| > 0 then Some(items[0]) else None
    case Str(s) => if |s| > 0 then Some(Str(s[..1])) else None
    case _ => Member(Some(v), "0")
  }

  function ClassifyFcm(fields: Value): Outcome<Classification> {
    var value := Member(Member(Member(Some(fields), "fcmSyncStatus"), "mapValue"), "fields");
    if !Truthy(value) then Returned(Denied)
    else if !(Keys(value.value) <= {"state", "permission", "errorMessage", "updatedAt"}) then Returned(Denied)
    else match value.value
      case Obj(inner) => Returned(if "state" in inner && "updatedAt" in inner then FcmMetadata else Denied)
      case Arr(_) => Returned(Denied)
      case _ => Threw   // `in` on a primitive
  }

  function ClassifyWrite(write: Value, ownDocument: string, current: Option<Fields>): Outcome<Classification> {
    if !Truthy(Some(write))
       || !(Keys(write) <= {"update", "updateMask", "currentDocument", "updateTransforms"})
       || UpdateName(write) != Some(Str(ownDocument))
       || Member(Member(Some(write), "currentDocument"), "exists") != Some(Bool(true))
       || Keys(write.fields["currentDocument"]) != {"exists"}
    then Returned(Denied)
    else
      var fields := WriteFields(write);
      var keys := Keys(fields);
      var transforms := Nullish(Member(Some(write), "updateTransforms"), Arr([]));
      if !MaskCovers(Member(Member(Some(write), "updateMask"), "fieldPaths"), keys) then Returned(Denied)
      else if keys == {} && Length(transforms) == Some(Number("1")) && First(transforms) == Some(TOUCH_LAST_ACTIVE)
      then Returned(SessionActivity)
      else if Truthy(Length(transforms)) then Returned(Denied)
      else if keys == {"fcmSyncStatus"} then ClassifyFcm(fields)
      else if current.Some? && keys == PROFILE_FIELDS
              && (forall key | key in {"displayName", "bio", "profileImage"} ::
                    Member(Some(Obj(current.value)), key) == Some(EMPTY_STRING))
              && (forall key | key in PROFILE_FIELDS ::
                    Member(Some(fields), key) == Member(Some(Obj(current.value)), key))
      then Returned(ProfileNoChange)
      else Returned(Denied)
  }

  // ---------------------------------------------------------------- requests

  datatype Bearer =
    | NoBearer
    | Unreadable                                       // the token's claims do not decode
    | Bearer(email: Option<string>, sub: string, aud: string)

  datatype Body =
    | CommitBody(json: Option<Value>)                  // None: JSON.parse throws
    | ChannelBody(payloads: seq<Option<Value>>, empty: bool, terminate: bool)

  datatype DependencyVerdict = AllowedDependency | KnownMutation | UnknownDependency

  /** One intercepted request. `dependency` is the verdict of `classifySafeDependency` on it. */
  datatype Request = Request(
    verb: string, firestore: bool, https: bool, path: string, dependency: DependencyVerdict,
    databaseParam: Option<string>, bearer: Bearer, body: Body)

  datatype Identity = Uid(uid: string) | Email(email: string)

  datatype Session = Session(ownDocument: string)

  const WRITE_CHANNEL := "/google.firestore.v1.Firestore/Write/channel"
  const LISTEN_CHANNEL := "/google.firestore.v1.Firestore/Listen/channel"

  function DatabaseOf(project: string): string {
    "projects/" + project + "/databases/(default)"
  }

  /** The text between two literals, when the regular expression `^prefix([^/]+)suffix$` matches. */
  function Between(text: string, prefix: string, suffix: string): Option<string> {
    if |prefix| + |suffix| < |text| && prefix <= text && text[|text| - |suffix|..] == suffix
       && '/' !in text[|prefix|..|text| - |suffix|]
    then Some(text[|prefix|..|text| - |suffix|])
    else None
  }

  function CommitProject(path: string): Option<string> {
    Between(path, "/v1/projects/", "/databases/(default)/documents:commit")
  }

  function DatabaseProject(database: string): Option<string> {
    Between(database, "projects/", "/databases/(default)")
  }

  /** `searchParams.get("database") ?? pathname.match(...)?.[1]`, kept only when it names a database. */
  function RequestDatabase(request: Request): Option<string> {
    if request.databaseParam.Some? then
      if DatabaseProject(request.databaseParam.value).Some? then request.databaseParam else None
    else
      var project :- CommitProject(request.path);
      Some(DatabaseOf(project))
  }

  /** The writes of one envelope: an array, none for a handshake, or an exception. */
  function EnvelopeWrites(payload: Value): Option<seq<Value>> {
    if !payload.Obj? then None
    else if "writes" !in payload.fields then
      var named := Member(Some(payload), "database");
      var stream := Member(Some(payload), "streamToken");
      if (named.Some? && named.value.Str?) || (stream.Some? && stream.value.Str?) then Some([]) else None
    else if payload.fields["writes"].Arr? then Some(payload.fields["writes"].items)
    else None
  }

  function EnvelopesWrites(payloads: seq<Option<Value>>): Option<seq<seq<Value>>> {
    if payloads == [] then Some([])
    else
      var first :- payloads[0];
      var writes :- EnvelopeWrites(first);
      var rest :- EnvelopesWrites(payloads[1..]);
      Some([writes] + rest)
  }

  /** `parseSafeWritePayload`, with the writes of each envelope kept together; None when it throws. */
  function ParsePayload(request: Request): Option<seq<seq<Value>>> {
    if !request.https || !request.firestore || request.verb != "POST" then None
    else if request.path == WRITE_CHANNEL && request.body.ChannelBody? then
      if request.body.payloads == [] && !request.body.empty && !request.body.terminate then None
      else EnvelopesWrites(request.body.payloads)
    else if CommitProject(request.path).Some? && request.body.CommitBody? then EnvelopesWrites([request.body.json])
    else None
  }

  function Flatten(groups: seq<seq<Value>>): seq<Value> {
    if groups == [] then [] else groups[0] + Flatten(groups[1..])
  }

  /** The account a readable token stands for; None when the identity does not match. */
  function BoundUid(identity: Identity, bearer: Bearer, database: string): Option<string>
    requires bearer.Bearer?
  {
    var expected := match identity
      case Uid(uid) => uid
      case Email(email) =>
        if bearer.email.Some? && Lower(bearer.email.value) == Lower(email) then bearer.sub else "";
    if expected == "" || bearer.sub != expected || database != DatabaseOf(bearer.aud) then None else Some(expected)
  }

  function OwnDocument(database: string, uid: string): string {
    database + "/documents/users/" + uid
  }

  // ---------------------------------------------------------------- the handler

  datatype Record = Record(request: nat, classification: Classification, blocked: bool)

  /** What one installed audit remembers. `routed` logs the route calls it has made. */
  datatype Audit = Audit(
    records: seq<Record>, failures: seq<string>, sessions: map<string, Session>, pending: set<nat>,
    routed: seq<(nat, bool)>)

  /** A baseline document as the handler receives it; None when the read fails in any way. */
  datatype Baseline = Baseline(name: string, fields: Option<Fields>)

  /** Where a handler is between two of its awaits. `used` lists the baselines it has accepted. */
  datatype Phase =
    | Reading(account: Session, groups: seq<seq<Value>>, next: nat, blocked: bool, used: seq<Baseline>)
    | Continued(session: Option<Session>, groups: seq<seq<Value>>, used: seq<Baseline>)
    | Aborted

  function Continue(a: Audit, id: nat, session: Option<Session>, groups: seq<seq<Value>>, used: seq<Baseline>)
    : (Audit, Phase)
  {
    (a.(routed := a.routed + [(id, true)]), Continued(session, groups, used))
  }

  function Abort(a: Audit, id: nat, failure: string): (Audit, Phase) {
    (a.(failures := a.failures + [failure], routed := a.routed + [(id, false)]), Aborted)
  }

  /** The `catch` of the Firestore branch. */
  function Reject(a: Audit, id: nat): (Audit, Phase) {
    Abort(a.(records := a.records + [Record(id, Unknown, true)]), id, "Could not safely classify Firestore request")
  }

  /** Building the audit record throws unless the document name is text and the transforms are an array. */
  predicate RecordThrows(write: Value) {
    var name := Nullish(UpdateName(write), Nullish(Member(Some(write), "delete"), Str("")));
    var transforms := Nullish(Member(Some(write), "updateTransforms"), Arr([]));
    write.Null? || !name.Str? || !transforms.Arr? || Value.Null in transforms.items
  }

  predicate WantsBaseline(write: Value, session: Session) {
    UpdateName(write) == Some(Str(session.ownDocument)) && Keys(WriteFields(write)) == PROFILE_FIELDS
  }

  /** The result of the classification loop up to its next suspension. */
  datatype Progress =
    | Finished(records: seq<Record>, blocked: bool)
    | NeedsBaseline(records: seq<Record>, next: nat, blocked: bool)
    | Broken(records: seq<Record>)

  function Classify(write: Value, session: Option<Session>, current: Option<Fields>): Outcome<Classification> {
    if session.None? then Returned(Denied) else ClassifyWrite(write, session.value.ownDocument, current)
  }

  /** The synchronous part of the loop over the writes, from index `next`. */
  function Scan(id: nat, writes: seq<Value>, session: Option<Session>, next: nat, blocked: bool, records: seq<Record>)
    : Progress
    requires next <= |writes|
    decreases |writes| - next
  {
    if next == |writes| then Finished(records, blocked)
    else
      var write := writes[next];
      match Classify(write, session, None)
      case Threw => Broken(records)
      case Returned(classification) =>
        if session.Some? && classification == Denied && write.Null? then Broken(records)
        else if session.Some? && classification == Denied && WantsBaseline(write, session.value) then
          NeedsBaseline(records, next, blocked)
        else if RecordThrows(write) then Broken(records)
        else
          var denied := classification == Denied;
          Scan(id, writes, session, next + 1, blocked || denied, records + [Record(id, classification, denied)])
  }

  /** What the handler does with the outcome of the loop. */
  function Settle(a: Audit, id: nat, session: Option<Session>, groups: seq<seq<Value>>, used: seq<Baseline>,
                  progress: Progress)
    : (Audit, Phase)
    requires progress.NeedsBaseline? ==> session.Some?
  {
    match progress
    case Broken(records) => Reject(a.(records := records), id)
    case NeedsBaseline(records, next, blocked) =>
      (a.(records := records), Reading(session.value, groups, next, blocked, used))
    case Finished(records, blocked) =>
      if blocked then Abort(a.(records := records), id, "Blocked unexpected product write")
      else Continue(a.(records := records), id, session, groups, used)
  }

  lemma ScanNeedsSession(id: nat, writes: seq<Value>, session: Option<Session>, next: nat, blocked: bool,
                         records: seq<Record>)
    requires next <= |writes|
    ensures var p := Scan(id, writes, session, next, blocked, records);
            p.NeedsBaseline? ==>
                session.Some? && next <= p.next < |writes| && WantsBaseline(writes[p.next], session.value)
    decreases |writes| - next
  {
  }

  /** The session map after the token of this request has been looked at; None when that throws. */
  function BindSession(sessions: map<string, Session>, identity: Identity, bearer: Bearer, database: string)
    : Option<map<string, Session>>
  {
    match bearer
    case NoBearer => Some(sessions)
    case Unreadable => None
    case Bearer(_, _, _) =>
      var uid :- BoundUid(identity, bearer, database);
      Some(sessions[database := Session(OwnDocument(database, uid))])
  }

  /** The Firestore branch of the handler up to its first await. */
  function BeginWrite(a: Audit, identity: Identity, id: nat, request: Request): (Audit, Phase) {
    match RequestDatabase(request)
    case None => Reject(a, id)
    case Some(database) =>
      match BindSession(a.sessions, identity, request.bearer, database)
      case None => Reject(a, id)
      case Some(sessions) =>
        var a' := a.(sessions := sessions);
        match ParsePayload(request)
        case None => Reject(a', id)
        case Some(groups) =>
          var session := if database in sessions then Some(sessions[database]) else None;
          var progress := Scan(id, Flatten(groups), session, 0, false, a.records);
          ScanNeedsSession(id, Flatten(groups), session, 0, false, a.records);
          Settle(a', id, session, groups, [], progress)
  }

  /** `tracked`: the handler runs to its first await and its task becomes pending. */
  function Begin(a: Audit, identity: Identity, id: nat, request: Request): (Audit, Phase) {
    var b := a.(pending := a.pending + {id});
    if request.verb in {"GET", "HEAD", "OPTIONS"} then Continue(b, id, None, [], [])
    else if !request.firestore then
      var allowed := request.dependency.AllowedDependency?;
      var c := b.(records := b.records + [Record(id, Dependency(request.dependency), !allowed)]);
      if allowed then Continue(c, id, None, [], [])
      else Abort(c, id, if request.dependency.KnownMutation? then "Blocked known product mutation"
                        else "Blocked unclassified non-read request")
    else if request.verb == "POST" && request.path == LISTEN_CHANNEL then Continue(b, id, None, [], [])
    else BeginWrite(b, identity, id, request)
  }

  /** The handler resumes with the answer to its baseline read and runs to its next await. */
  function Resume(a: Audit, id: nat, phase: Phase, reply: Option<Baseline>): (Audit, Phase)
    requires phase.Reading? && phase.next < |Flatten(phase.groups)|
  {
    var writes := Flatten(phase.groups);
    var write := writes[phase.next];
    if reply.None? || reply.value.name != phase.account.ownDocument then Reject(a, id)
    else
      match ClassifyWrite(write, phase.account.ownDocument, reply.value.fields)
      case Threw => Reject(a, id)
      case Returned(classification) =>
        if RecordThrows(write) then Reject(a, id)
        else
          var denied := classification == Denied;
          var records := a.records + [Record(id, classification, denied)];
          var session := Some(phase.account);
          var progress := Scan(id, writes, session, phase.next + 1, phase.blocked || denied, records);
          ScanNeedsSession(id, writes, session, phase.next + 1, phase.blocked || denied, records);
          Settle(a, id, session, phase.groups, phase.used + [reply.value], progress)
  }

  /** `task.finally(() => pending.delete(task))`. */
  function Complete(a: Audit, id: nat): Audit {
    a.(pending := a.pending - {id})
  }
}
