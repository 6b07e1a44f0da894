/**
 * Why the audit needs to be the only writer: what another one does to the profile can be undone by an allowed
 * write.
 */
module AuditOutsideWriter {
  import opened Json
  import opened FirestoreServer
  import opened SafeWriteAudit
  import opened AuditProtocol

  lemma AllowedWriteResets(docs: Documents, own: string, write: Value, changed: Fields, stamp: Value)
    requires own in docs && Decode(write).Some? && !RecordThrows(write)
    requires ClassifyWrite(write, own, Some(docs[own])) == Returned(ProfileNoChange)
    ensures var after := Commit(docs[own := changed], [write], stamp);
            own in after && forall f :: f in PROFILE_FIELDS ==> SameField(after[own], docs[own], f)
  {
    hide ClassifyWrite, RecordThrows, Decode, AllowedShape, WriteFields, Keys, ApplyWrite;
    ProfileKeys(write, own, docs[own]);
    var mask, transforms := AllowedHasShape(write, own, Some(docs[own]));
    ShapeDecodes(write, own, mask, transforms);
    assert AllowedShape(write, own, mask, transforms);
    MaskIsKeys(write, own, mask, transforms);
    TextsAre(mask);
    var patch := Decode(write).value;
    var current := docs[own := changed];
    SettingPatch(current, patch, stamp);
    var after := ApplyWrite(current, patch, stamp).value;
    assert ApplyAll(current, [write], stamp) == ApplyAll(after, [], stamp);
    forall f | f in PROFILE_FIELDS ensures SameField(after[own], docs[own], f) {
      assert Str(f) in mask;
      assert f in patch.mask.value;
      assert Member(Some(WriteFields(write)), f) == Member(Some(Obj(docs[own])), f);
    }
  }

  predicate EmptyProfile(current: Fields) {
    PROFILE_FIELDS <= current.Keys
    && current["displayName"] == EMPTY_STRING && current["bio"] == EMPTY_STRING
        && current["profileImage"] == EMPTY_STRING
  }

  /** The write by which the product's start-up repeats an empty profile. */
  function ProfileWrite(own: string, current: Fields): Value
    requires PROFILE_FIELDS <= current.Keys
  {
    var fields: Fields := map k | k in PROFILE_FIELDS :: current[k];
    Obj(map["update" := Obj(map["name" := Str(own), "fields" := Obj(fields)]),
            "updateMask" := Obj(map["fieldPaths" := Arr(PROFILE_MASK)]),
            "currentDocument" := Obj(map["exists" := Bool(true)])])
  }

  lemma ProfileMask()
    ensures multiset(PROFILE_MASK) == multiset(set k | k in PROFILE_FIELDS :: Str(k))
  {
    var five := {Str("bio"), Str("displayName"), Str("profileImage"), Str("publicHandle"), Str("searchTokens")};
    assert (set k | k in PROFILE_FIELDS :: Str(k)) == five;
    assert "bio"[0] == 'b' && "displayName"[0] == 'd' && "profileImage"[1] == 'r' && "publicHandle"[1] == 'u'
        && "searchTokens"[0] == 's';
    assert multiset(five) == multiset{Str("bio"), Str("displayName"), Str("profileImage"), Str("publicHandle"),
        Str("searchTokens")};
  }

  /** What the classification and the server read off that write. */
  ghost predicate ProfileParts(write: Value, own: string, fields: Fields, mask: seq<Value>) {
    && write.Obj? && write.fields.Keys == {"update", "updateMask", "currentDocument"}
    && UpdateName(write) == Some(Str(own)) && WriteFields(write) == Obj(fields)
    && Member(Some(write), "currentDocument") == Some(Obj(map["exists" := Bool(true)]))
    && write.fields["currentDocument"] == Obj(map["exists" := Bool(true)])
    && Member(Some(write), "updateMask") == Some(Obj(map["fieldPaths" := Arr(mask)]))
    && Nullish(Member(Some(write), "updateTransforms"), Arr([])) == Arr([])
    && Nullish(Member(Member(Some(write), "update"), "fields"), Obj(map[])) == Obj(fields)
    && write.fields["update"].Obj?
  }

  const PROFILE_MASK := [Str("bio"), Str("displayName"), Str("profileImage"), Str("publicHandle"), Str("searchTokens")]

  lemma ProfileWriteParts(own: string, current: Fields)
    requires PROFILE_FIELDS <= current.Keys
    ensures ProfileParts(ProfileWrite(own, current), own, map k | k in PROFILE_FIELDS :: current[k], PROFILE_MASK)
  {
  }

  lemma MaskMember()
    ensures Member(Some(Obj(map["fieldPaths" := Arr(PROFILE_MASK)])), "fieldPaths") == Some(Arr(PROFILE_MASK))
    ensures Member(Some(Obj(map["exists" := Bool(true)])), "exists") == Some(Bool(true))
    ensures Keys(Obj(map["exists" := Bool(true)])) == {"exists"}
    ensures MaskCovers(Some(Arr(PROFILE_MASK)), PROFILE_FIELDS)
    ensures !Truthy(Length(Arr([]))) && Length(Arr([])) != Some(Number("1"))
    ensures PROFILE_FIELDS != {} && PROFILE_FIELDS != {"fcmSyncStatus"}
  {
    ProfileMask();
    assert "bio" in PROFILE_FIELDS && "bio" !in {"fcmSyncStatus"};
    DecimalShort(0);
  }

  lemma PartsAreAllowed(write: Value, own: string, fields: Fields, current: Fields)
    requires ProfileParts(write, own, fields, PROFILE_MASK) && EmptyProfile(current)
    requires fields.Keys == PROFILE_FIELDS && forall k :: k in PROFILE_FIELDS ==> fields[k] == current[k]
    ensures ClassifyWrite(write, own, Some(current)) == Returned(ProfileNoChange)
  {
    hide MaskCovers, Length, UpdateName, WriteFields;
    MaskMember();
  }

  lemma PartsAreRecorded(write: Value, own: string, fields: Fields)
    requires ProfileParts(write, own, fields, PROFILE_MASK)
    ensures !RecordThrows(write)
  {
    hide WriteFields;
  }

  lemma MaskDecodes()
    ensures Texts(PROFILE_MASK).Some? && DecodeTransforms(Arr([])) == Some([])
  {
  }

  lemma PartsDecode(write: Value, own: string, fields: Fields)
    requires ProfileParts(write, own, fields, PROFILE_MASK)
    ensures Decode(write).Some?
  {
    hide WriteFields, Texts, DecodeTransforms, MaskCovers, Length;
    MaskMember();
    MaskDecodes();
  }

  lemma ProfileWriteAllowed(own: string, current: Fields)
    requires EmptyProfile(current)
    ensures ClassifyWrite(ProfileWrite(own, current), own, Some(current)) == Returned(ProfileNoChange)
    ensures Decode(ProfileWrite(own, current)).Some? && !RecordThrows(ProfileWrite(own, current))
  {
    hide ClassifyWrite, Decode, RecordThrows, ProfileParts, ProfileWrite;
    var fields: Fields := map k | k in PROFILE_FIELDS :: current[k];
    ProfileWriteParts(own, current);
    PartsAreAllowed(ProfileWrite(own, current), own, fields, current);
    PartsAreRecorded(ProfileWrite(own, current), own, fields);
    PartsDecode(ProfileWrite(own, current), own, fields);
  }

  /**
   * The hydration exception, exactly: a profile write counts as no change iff the baseline's name, biography and image
   * are the empty text, and every field it writes is what the baseline has.
   */
  lemma ProfileAllowedIff(own: string, proposed: Fields, current: Fields)
    requires PROFILE_FIELDS <= proposed.Keys
    ensures ClassifyWrite(ProfileWrite(own, proposed), own, Some(current)) ==
            Returned(if (forall k :: k in {"displayName", "bio", "profileImage"} ==> Has(current, k, EMPTY_STRING))
                        && (forall k :: k in PROFILE_FIELDS ==> Has(current, k, proposed[k]))
                     then ProfileNoChange else Denied)
  {
    hide ProfileWrite, ProfileParts, ClassifyWrite;
    var fields: Fields := map k | k in PROFILE_FIELDS :: proposed[k];
    ProfileWriteParts(own, proposed);
    PartsVerdict(ProfileWrite(own, proposed), own, fields, current);
  }

  predicate Has(fields: Fields, k: string, v: Value) {
    k in fields && fields[k] == v
  }

  lemma PartsVerdict(write: Value, own: string, fields: Fields, current: Fields)
    requires ProfileParts(write, own, fields, PROFILE_MASK) && fields.Keys == PROFILE_FIELDS
    ensures ClassifyWrite(write, own, Some(current)) ==
            Returned(if (forall k :: k in {"displayName", "bio", "profileImage"} ==> Has(current, k, EMPTY_STRING))
                        && (forall k :: k in PROFILE_FIELDS ==> Has(current, k, fields[k]))
                     then ProfileNoChange else Denied)
  {
    hide MaskCovers, Length, UpdateName, WriteFields;
    MaskMember();
    forall k, v ensures Has(current, k, v) <==> Member(Some(Obj(current)), k) == Some(v) {
    }
    forall k | k in PROFILE_FIELDS ensures Member(Some(Obj(fields)), k) == Some(fields[k]) {
    }
    hide Has, Member;
  }

  lemma ProfileKeys(write: Value, own: string, current: Fields)
    requires ClassifyWrite(write, own, Some(current)) == Returned(ProfileNoChange)
    ensures Keys(WriteFields(write)) == PROFILE_FIELDS && "bio" in PROFILE_FIELDS
  {
  }

  lemma MaskIsKeys(write: Value, own: string, mask: seq<Value>, transforms: seq<Value>)
    requires AllowedShape(write, own, mask, transforms)
    ensures forall k :: k in Keys(WriteFields(write)) ==> Str(k) in mask
  {
    OwnFieldsAreText(mask, Keys(WriteFields(write)));
  }

  /** A patch that stamps nothing leaves exactly its own values in the masked fields. */
  lemma SettingPatch(docs: Documents, patch: ServerWrite, stamp: Value)
    requires patch.Patch? && patch.doc in docs && patch.mask.Some? && patch.transformed == []
    requires patch.required == Some(true)
    ensures ApplyWrite(docs, patch, stamp).Some? && patch.doc in ApplyWrite(docs, patch, stamp).value
    ensures forall f :: f in patch.mask.value ==>
        SameField(ApplyWrite(docs, patch, stamp).value[patch.doc], patch.fields, f)
  {
  }

  // ---------------------------------------------------------------- the run

  /** The request that carries this write, with a token for the account. */
  function ProfileRequest(project: string, uid: string, write: Value): Request {
    Request(
      "POST", true, true, WRITE_CHANNEL, UnknownDependency, Some(DatabaseOf(project)), Bearer(None, uid, project),
      ChannelBody([Some(Obj(map["writes" := Arr([write])]))], false, false))
  }

  lemma RequestParts(project: string, uid: string, write: Value)
    requires project != "" && '/' !in project && uid != ""
    ensures var request := ProfileRequest(project, uid, write);
            && Audited(request) && RequestDatabase(request) == Some(DatabaseOf(project))
            && BoundUid(Uid(uid), request.bearer, DatabaseOf(project)) == Some(uid)
            && ParsePayload(request) == Some([[write]]) && Flatten([[write]]) == [write]
            && Envelopes(request) == [Some(Obj(map["writes" := Arr([write])]))]
  {
    DatabaseNames(project);
    assert WRITE_CHANNEL != LISTEN_CHANNEL by {
      assert WRITE_CHANNEL[|WRITE_CHANNEL| - 9] == 'e' && LISTEN_CHANNEL[|LISTEN_CHANNEL| - 9] == 'n';
    }
    var body := Obj(map["writes" := Arr([write])]);
    assert EnvelopeWrites(body) == Some([write]);
    assert [Some(body)][1..] == [];
    assert EnvelopesWrites([]) == Some([]);
    assert [[write]] + [] == [[write]];
    assert EnvelopesWrites([Some(body)]) == Some([[write]]) by {
      assert [Some(body)][0] == Some(body);
      assert [EnvelopeWrites(body).value] + EnvelopesWrites([]).value == [[write]];
    }
    assert [[write]][1..] == [] && [write] + [] == [write];
  }

  lemma DatabaseNames(project: string)
    requires project != "" && '/' !in project
    ensures DatabaseProject(DatabaseOf(project)) == Some(project)
  {
    var database := DatabaseOf(project);
    var suffix := "/databases/(default)";
    assert |database| == 9 + |project| + |suffix|;
    assert database[9..|database| - |suffix|] == project;
    assert database[|database| - |suffix|..] == suffix;
  }

  /** Without a baseline the write is denied, and it is of the kind that asks for one. */
  lemma WantsItsBaseline(own: string, current: Fields)
    requires EmptyProfile(current)
    ensures var write := ProfileWrite(own, current);
            && ClassifyWrite(write, own, None) == Returned(Denied)
            && WantsBaseline(write, Session(own)) && !write.Null?
  {
    hide ProfileWrite, MaskCovers, Length;
    var fields: Fields := map k | k in PROFILE_FIELDS :: current[k];
    ProfileWriteParts(own, current);
    PartsAreDenied(ProfileWrite(own, current), own, fields);
  }

  lemma PartsAreDenied(write: Value, own: string, fields: Fields)
    requires ProfileParts(write, own, fields, PROFILE_MASK) && fields.Keys == PROFILE_FIELDS
    ensures ClassifyWrite(write, own, None) == Returned(Denied) && Keys(WriteFields(write)) == PROFILE_FIELDS
  {
    hide MaskCovers, Length, UpdateName, WriteFields;
    MaskMember();
  }

  /** The request arrives: its handler suspends at the baseline read. */
  lemma ArrivesAndReads(docs: Documents, project: string, uid: string, own: string, write: Value)
    requires project != "" && '/' !in project && uid != "" && own == OwnDocument(DatabaseOf(project), uid)
    requires ClassifyWrite(write, own, None) == Returned(Denied) && WantsBaseline(write, Session(own)) && !write.Null?
    ensures var w := Step(Start(docs), Uid(uid), Arrive(0, ProfileRequest(project, uid, write)));
            && w.tasks == map[0 := Reading(Session(own), [[write]], 0, false, [])]
            && w.replies == map[] && w.docs == docs && !w.unrouted
            && w.requests == map[0 := ProfileRequest(project, uid, write)]
  {
    hide ClassifyWrite, WantsBaseline, ProfileRequest, ParsePayload, RequestDatabase, BoundUid, Flatten;
    RequestParts(project, uid, write);
    var session := Session(own);
    assert Classify(write, Some(session), None) == Returned(Denied);
    var begun := Begin(Start(docs).audit, Uid(uid), 0, ProfileRequest(project, uid, write));
    assert begun.1 == Reading(session, [[write]], 0, false, []) by {
      BeginsReading(project, uid, own, write);
    }
  }

  lemma BeginsReading(project: string, uid: string, own: string, write: Value)
    requires project != "" && '/' !in project && uid != "" && own == OwnDocument(DatabaseOf(project), uid)
    requires ClassifyWrite(write, own, None) == Returned(Denied) && WantsBaseline(write, Session(own)) && !write.Null?
    ensures Begin(Audit([], [], map[], {}, []), Uid(uid), 0, ProfileRequest(project, uid, write)).1
         == Reading(Session(own), [[write]], 0, false, [])
  {
    hide ClassifyWrite, WantsBaseline, ProfileRequest, ParsePayload, RequestDatabase, BoundUid, Flatten, DatabaseOf;
    hide OwnDocument;
    RequestParts(project, uid, write);
    var request, database, session := ProfileRequest(project, uid, write), DatabaseOf(project), Session(own);
    assert request.bearer.Bearer? && request.firestore && request.verb == "POST" by {
      RequestFields(project, uid, write);
    }
    var sessions := BindSession(map[], Uid(uid), request.bearer, database);
    assert sessions.Some? && sessions.value[database] == session;
    assert Scan(0, [write], Some(session), 0, false, []) == NeedsBaseline([], 0, false);
  }

  lemma RequestFields(project: string, uid: string, write: Value)
    ensures var request := ProfileRequest(project, uid, write);
            request.bearer.Bearer? && request.firestore && request.verb == "POST"
  {
  }

  /** The baseline shows an empty profile: the handler goes on to its end and forwards the request. */
  lemma ReadsAndForwards(w: World, identity: Identity, own: string, write: Value)
    requires w.tasks == map[0 := Reading(Session(own), [[write]], 0, false, [])] && w.replies == map[] && own in w.docs
    requires ClassifyWrite(write, own, Some(w.docs[own])) == Returned(ProfileNoChange) && !RecordThrows(write)
    ensures var x := Step(Step(w, identity, AnswerRead(0, Answers(own))), identity, Wake(0));
            && 0 in x.tasks && x.tasks[0].Continued? && x.tasks[0].groups == [[write]]
            && 0 in x.landed && x.landed[0] == 0 && x.docs == w.docs && x.requests == w.requests
  {
    hide ClassifyWrite, RecordThrows;
    assert [[write]][1..] == [] && Flatten([]) == [] && Flatten([[write]]) == [write];
  }

  /** The other writer comes first, and then the forwarded request lands. */
  lemma ChangesAndLands(w: World, identity: Identity, own: string, write: Value, changed: Fields, stamp: Value)
    requires 0 in w.tasks && w.tasks[0].Continued? && 0 in w.landed && w.landed[0] == 0
    requires 0 in w.requests && Envelopes(w.requests[0]) == [Some(Obj(map["writes" := Arr([write])]))]
    ensures var x := Step(Step(w, identity, External(own, changed)), identity, Land(0, false, stamp));
            x.docs == Commit(w.docs[own := changed], [write], stamp) && x.tasks == w.tasks
  {
    hide Commit;
  }

  function LostUpdate(project: string, uid: string, own: string, write: Value, changed: Fields,
                      stamp: Value): seq<Action> {
    [Arrive(0, ProfileRequest(project, uid, write)), AnswerRead(0, Answers(own)), Wake(0), External(own, changed),
        Land(0, false, stamp)]
  }

  lemma RunPush(docs: Documents, identity: Identity, actions: seq<Action>, action: Action)
    ensures Run(docs, identity, actions + [action]) == Step(Run(docs, identity, actions), identity, action)
  {
    assert (actions + [action])[..|actions|] == actions;
  }

  lemma RunFive(docs: Documents, identity: Identity, a: Action, b: Action, c: Action, d: Action, e: Action)
    ensures Run(docs, identity, [a, b, c, d, e])
         == Step(Step(Step(Step(Step(Start(docs), identity, a), identity, b), identity, c), identity, d), identity, e)
  {
    hide Step;
    assert [] + [a] == [a] && [a] + [b] == [a, b] && [a, b] + [c] == [a, b, c];
    assert [a, b, c] + [d] == [a, b, c, d] && [a, b, c, d] + [e] == [a, b, c, d, e];
    RunPush(docs, identity, [], a);
    RunPush(docs, identity, [a], b);
    RunPush(docs, identity, [a, b], c);
    RunPush(docs, identity, [a, b, c], d);
    RunPush(docs, identity, [a, b, c, d], e);
  }

  /**
   * The assumption is needed: whatever empty profile the account has, and whatever another writer changes it to
   * between the answered read and the landing, the forwarded request puts the old profile back.
   */
  lemma OutsideUpdateIsLost(docs: Documents, project: string, uid: string, changed: Fields, stamp: Value)
    requires project != "" && '/' !in project && uid != ""
    requires var own := OwnDocument(DatabaseOf(project), uid); own in docs && EmptyProfile(docs[own])
    ensures var own := OwnDocument(DatabaseOf(project), uid);
            var w := Run(docs, Uid(uid), LostUpdate(project, uid, own, ProfileWrite(own, docs[own]), changed, stamp));
            && 0 in w.tasks && w.tasks[0].Continued?
            && own in w.docs && forall f :: f in PROFILE_FIELDS ==> SameField(w.docs[own], docs[own], f)
  {
    hide Step, Run, ClassifyWrite, RecordThrows, WantsBaseline, Decode, ProfileWrite, OwnDocument, DatabaseOf, Commit;
    hide Start;
    var own := OwnDocument(DatabaseOf(project), uid);
    var write := ProfileWrite(own, docs[own]);
    WantsItsBaseline(own, docs[own]);
    ProfileWriteAllowed(own, docs[own]);
    var request := ProfileRequest(project, uid, write);
    RunFive(docs, Uid(uid), Arrive(0, request), AnswerRead(0, Answers(own)), Wake(0), External(own, changed),
        Land(0, false, stamp));
    ArrivesAndReads(docs, project, uid, own, write);
    RequestParts(project, uid, write);
    var w := Step(Start(docs), Uid(uid), Arrive(0, request));
    ReadsAndForwards(w, Uid(uid), own, write);
    ChangesAndLands(Step(Step(w, Uid(uid), AnswerRead(0, Answers(own))), Uid(uid), Wake(0)), Uid(uid), own, write,
        changed, stamp);
    AllowedWriteResets(docs, own, write, changed, stamp);
  }
}
