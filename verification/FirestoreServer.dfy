/** What the Firestore server does with the writes of one commit: decoding, preconditions, masks, transforms. */
module FirestoreServer {
  import opened Json

  type Documents = map<string, Fields>

  datatype ServerWrite =
    | Patch(doc: string, fields: Fields, mask: Option<seq<string>>, transformed: seq<string>, required: Option<bool>)
    | Erase(doc: string, required: Option<bool>)

  function Texts(items: seq<Value>): Option<seq<string>> {
    if items == [] then Some([])
    else if !items[0].Str? then None
    else
      var rest :- Texts(items[1..]);
      Some([items[0].s] + rest)
  }

  function FieldPaths(items: seq<Value>): Option<seq<string>> {
    if items == [] then Some([])
    else
      var path :- Member(Some(items[0]), "fieldPath");
      var rest :- FieldPaths(items[1..]);
      if path.Str? then Some([path.s] + rest) else None
  }

  /** None: malformed; Some(None): no precondition on existence. */
  function Precondition(write: Value): Option<Option<bool>> {
    match Member(Member(Some(write), "currentDocument"), "exists")
    case None => Some(None)
    case Some(Bool(b)) => Some(Some(b))
    case Some(_) => None
  }

  /** None: malformed; Some(None): the whole document is replaced. */
  function DecodeMask(write: Value): Option<Option<seq<string>>> {
    match Nullish(Member(Some(write), "updateMask"), Value.Null)
    case Null => Some(None)
    case Obj(mask) =>
      var paths := Nullish(Member(Some(Obj(mask)), "fieldPaths"), Arr([]));
      if !paths.Arr? then None
      else
        var texts :- Texts(paths.items);
        Some(Some(texts))
    case _ => None
  }

  function DecodeTransforms(list: Value): Option<seq<string>> {
    if list.Arr? then FieldPaths(list.items) else None
  }

  /** A write as the server understands it; None when it rejects the shape. */
  function Decode(write: Value): Option<ServerWrite> {
    if !write.Obj? then None
    else
      var required :- Precondition(write);
      if "update" in write.fields && "delete" !in write.fields && "transform" !in write.fields then
        var name := Member(Member(Some(write), "update"), "name");
        var fields := Nullish(Member(Member(Some(write), "update"), "fields"), Obj(map[]));
        var mask :- DecodeMask(write);
        var transformed :- DecodeTransforms(Nullish(Member(Some(write), "updateTransforms"), Arr([])));
        if name.Some? && name.value.Str? && fields.Obj?
        then Some(Patch(name.value.s, fields.fields, mask, transformed, required)) else None
      else if "delete" in write.fields && "update" !in write.fields && "transform" !in write.fields then
        if write.fields["delete"].Str? then Some(Erase(write.fields["delete"].s, required)) else None
      else if "transform" in write.fields && "update" !in write.fields && "delete" !in write.fields then
        var doc :- Member(Some(write.fields["transform"]), "document");
        var transformed :- DecodeTransforms(Nullish(Member(Some(write.fields["transform"]), "fieldTransforms"),
            Arr([])));
        if doc.Str? then Some(Patch(doc.s, map[], Some([]), transformed, required)) else None
      else None
  }

  /** Masked fields are set, or deleted when the patch has no value for them; the others are kept. */
  function Masked(before: Fields, fields: Fields, mask: Option<seq<string>>): Fields {
    if mask.None? then fields
    else
      (map f | f in before && f !in mask.value :: before[f]) + (map f | f in fields && f in mask.value :: fields[f])
  }

  /** Every transformed field receives a value of the server's own choosing, here `stamp`. */
  function Stamped(fields: Fields, paths: seq<string>, stamp: Value): Fields {
    fields + (map f | f in paths :: stamp)
  }

  function ApplyWrite(docs: Documents, write: ServerWrite, stamp: Value): Option<Documents> {
    if write.required.Some? && write.required.value != (write.doc in docs) then None
    else match write
      case Erase(doc, _) => Some(docs - {doc})
      case Patch(doc, fields, mask, transformed, _) =>
        var before := if doc in docs then docs[doc] else map[];
        Some(docs[doc := Stamped(Masked(before, fields, mask), transformed, stamp)])
  }

  function ApplyAll(docs: Documents, writes: seq<Value>, stamp: Value): Option<Documents>
    decreases writes
  {
    if writes == [] then Some(docs)
    else
      var write :- Decode(writes[0]);
      var next :- ApplyWrite(docs, write, stamp);
      ApplyAll(next, writes[1..], stamp)
  }

  /** One atomic commit: all of its writes, or none of them. */
  function Commit(docs: Documents, writes: seq<Value>, stamp: Value): Documents {
    match ApplyAll(docs, writes, stamp)
    case None => docs
    case Some(next) => next
  }

  /** The writes the server finds in one envelope of a request. */
  function Delivered(envelope: Option<Value>): seq<Value> {
    if envelope.Some? && envelope.value.Obj? && "writes" in envelope.value.fields
       && envelope.value.fields["writes"].Arr?
    then envelope.value.fields["writes"].items
    else []
  }

  // ---------------------------------------------------------------- what counts as harmless

  const VOLATILE: set<string> := {"lastActive", "fcmSyncStatus"}

  predicate SameField(x: Fields, y: Fields, f: string) {
    (f in x <==> f in y) && (f in x ==> x[f] == y[f])
  }

  ghost predicate SameBut(x: Fields, y: Fields, except: set<string>) {
    forall f :: f !in except ==> SameField(x, y, f)
  }

  /** `docs` differs from `origin` at most in the volatile fields of the documents in `accounts`. */
  ghost predicate Preserved(origin: Documents, docs: Documents, accounts: set<string>) {
    && docs.Keys == origin.Keys
    && (forall d :: d in origin && d !in accounts ==> docs[d] == origin[d])
    && (forall d :: d in origin ==> SameBut(origin[d], docs[d], VOLATILE))
  }

  /** A patch of `own` that sets or stamps volatile fields, or repeats what `origin` already holds. */
  ghost predicate HarmlessPatch(write: ServerWrite, own: string, origin: Documents) {
    && write.Patch? && write.doc == own && write.required == Some(true) && write.mask.Some?
    && (forall f :: f in write.transformed ==> f in VOLATILE)
    && (forall f :: f in write.mask.value && f !in VOLATILE ==>
          own in origin && f in origin[own] && f in write.fields && write.fields[f] == origin[own][f])
  }

  ghost predicate Harmless(write: Value, own: string, origin: Documents) {
    Decode(write).Some? ==> HarmlessPatch(Decode(write).value, own, origin)
  }

  lemma ApplyHarmless(origin: Documents, docs: Documents, accounts: set<string>, write: ServerWrite, stamp: Value)
    requires Preserved(origin, docs, accounts) && HarmlessPatch(write, write.doc, origin) && write.doc in accounts
    ensures ApplyWrite(docs, write, stamp).Some? ==> Preserved(origin, ApplyWrite(docs, write, stamp).value, accounts)
  {
    if ApplyWrite(docs, write, stamp).Some? {
      var own := write.doc;
      var after := ApplyWrite(docs, write, stamp).value;
      forall f | f !in VOLATILE ensures SameField(origin[own], after[own], f) {
        assert SameField(origin[own], docs[own], f);
      }
      assert SameBut(origin[own], after[own], VOLATILE);
    }
  }

  lemma {:induction false} CommitHarmless(origin: Documents, docs: Documents, accounts: set<string>,
                                          writes: seq<Value>, stamp: Value, own: string)
    decreases writes
    requires Preserved(origin, docs, accounts) && own in accounts
    requires forall w :: w in writes ==> Harmless(w, own, origin)
    ensures ApplyAll(docs, writes, stamp).Some? ==> Preserved(origin, ApplyAll(docs, writes, stamp).value, accounts)
    ensures Preserved(origin, Commit(docs, writes, stamp), accounts)
  {
    if writes != [] && Decode(writes[0]).Some? {
      assert writes[0] in writes;
      var write := Decode(writes[0]).value;
      ApplyHarmless(origin, docs, accounts, write, stamp);
      if ApplyWrite(docs, write, stamp).Some? {
        CommitHarmless(origin, ApplyWrite(docs, write, stamp).value, accounts, writes[1..], stamp, own);
      }
    }
  }

  lemma TextsAre(items: seq<Value>)
    requires Texts(items).Some?
    ensures |Texts(items).value| == |items|
    ensures forall i :: 0 <= i < |items| ==> items[i] == Str(Texts(items).value[i])
  {
  }
}
