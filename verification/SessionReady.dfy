/** Three implementations of "this browser storage holds the account's complete session". */
module SessionReady {
  import opened Json
  import opened Text

  /** One local-storage entry; `parsed` is None when JSON.parse throws on its value. */
  datatype Entry = Entry(name: string, parsed: Option<Value>)

  const USER_PREFIX := "firebase:authUser:"

  /** `entries.find(name === "userProfile")?.value ?? "null"`, parsed. */
  function ProfileJson(entries: seq<Entry>): Option<Value> {
    if entries == [] then Some(Value.Null)
    else if entries[0].name == "userProfile" then entries[0].parsed
    else ProfileJson(entries[1..])
  }

  function ProfileUid(profile: Value): Option<Value> {
    Member(Member(Member(Some(profile), "state"), "userProfile"), "uid")
  }

  predicate IsUser(entry: Entry) {
    USER_PREFIX <= entry.name
  }

  predicate NonEmptyText(v: Option<Value>) {
    v.Some? && v.value.Str? && v.value.s != ""
  }

  /** `user.email?.toLowerCase() === email.toLowerCase()`, which throws on an email that is not text. */
  function EmailMatches(user: Value, email: string): Outcome<bool> {
    var given := Member(Some(user), "email");
    if given.None? || given.value.Null? then Returned(false)
    else if given.value.Str? then Returned(Lower(given.value.s) == Lower(email))
    else Threw
  }

  /** A non-empty uid and the requested email. */
  function UserMatches(user: Value, email: string): Outcome<bool> {
    if NonEmptyText(Member(Some(user), "uid")) then EmailMatches(user, email) else Returned(false)
  }

  // ---------------------------------------------------------------- preparation (inssa-safe-session.ts)

  datatype Flags = Flags(firebase: bool, profile: bool)

  /** The loop's flags when it ends or throws: the first is sticky, the second is that of the last matching entry. */
  function PrepLoop(entries: seq<Entry>, uid: Option<Value>, email: string, flags: Flags): Flags {
    if entries == [] then flags
    else if !IsUser(entries[0]) then PrepLoop(entries[1..], uid, email, flags)
    else if entries[0].parsed.None? then flags
    else
      var user := entries[0].parsed.value;
      match UserMatches(user, email)
      case Threw => flags
      case Returned(false) => PrepLoop(entries[1..], uid, email, flags)
      case Returned(true) => PrepLoop(entries[1..], uid, email, Flags(true, uid == Member(Some(user), "uid")))
  }

  function PrepFlags(entries: seq<Entry>, email: string): Flags {
    var profile := ProfileJson(entries);
    if profile.None? then Flags(false, false)
    else PrepLoop(entries, ProfileUid(profile.value), email, Flags(false, false))
  }

  predicate PrepReady(entries: seq<Entry>, email: string) {
    PrepFlags(entries, email) == Flags(true, true)
  }

  /** The same evaluation with its loop over the entries. */
  method EvaluateIdentity(entries: seq<Entry>, email: string) returns (flags: Flags)
    ensures flags == PrepFlags(entries, email)
  {
    flags := Flags(false, false);
    var profile := ProfileJson(entries);
    if profile.None? {
      return;
    }
    var uid := ProfileUid(profile.value);
    var i := 0;
    while i < |entries|
      invariant 0 <= i <= |entries|
      invariant PrepLoop(entries[i..], uid, email, flags) == PrepLoop(entries, uid, email, Flags(false, false))
    {
      assert entries[i..][0] == entries[i] && entries[i..][1..] == entries[i + 1..];
      if IsUser(entries[i]) {
        if entries[i].parsed.None? {
          return;
        }
        var user := entries[i].parsed.value;
        var matches := UserMatches(user, email);
        if matches.Threw? {
          return;
        }
        if matches.value {
          flags := Flags(true, uid == Member(Some(user), "uid"));
        }
      }
      i := i + 1;
    }
  }

  // ---------------------------------------------------------------- the auth page (auth-page.ts)

  /** Entry i is the requested account, with its own try/catch. */
  predicate Authenticates(entry: Entry, email: string) {
    IsUser(entry) && entry.parsed.Some? && UserMatches(entry.parsed.value, email) == Returned(true)
  }

  /** `entries.some(...)` with the profile comparison; it stops at the first exception. */
  function PageLoop(entries: seq<Entry>, uid: Option<Value>, email: string): Outcome<bool> {
    if entries == [] then Returned(false)
    else if !IsUser(entries[0]) then PageLoop(entries[1..], uid, email)
    else if entries[0].parsed.None? then Threw
    else
      var user := entries[0].parsed.value;
      match UserMatches(user, email)
      case Threw => Threw
      case Returned(m) => if m && uid == Member(Some(user), "uid") then Returned(true)
          else PageLoop(entries[1..], uid, email)
  }

  /** Both polls of `expectAuthenticatedSession`. */
  predicate PageReady(entries: seq<Entry>, email: string) {
    (exists entry :: entry in entries && Authenticates(entry, email))
    && ProfileJson(entries).Some?
    && PageLoop(entries, ProfileUid(ProfileJson(entries).value), email) == Returned(true)
  }

  // ---------------------------------------------------------------- stored state (auth.ts)

  function CompleteLoop(entries: seq<Entry>, uid: Value, email: string): Outcome<bool> {
    if entries == [] then Returned(false)
    else if !IsUser(entries[0]) then CompleteLoop(entries[1..], uid, email)
    else if entries[0].parsed.None? then Threw
    else
      var user := entries[0].parsed.value;
      if Member(Some(user), "uid") != Some(uid) then CompleteLoop(entries[1..], uid, email)
      else if email == "" then Returned(true)
      else
        match EmailMatches(user, email)
        case Threw => Threw
        case Returned(m) => if m then Returned(true) else CompleteLoop(entries[1..], uid, email)
  }

  /** `hasCompleteInssaSession`; an empty or absent email is not compared. */
  predicate Complete(entries: seq<Entry>, email: string) {
    ProfileJson(entries).Some? &&
    var uid := ProfileUid(ProfileJson(entries).value);
    NonEmptyText(uid) && CompleteLoop(entries, uid.value, email) == Returned(true)
  }

  // ---------------------------------------------------------------- implications

  lemma {:induction false} PrepLoopImpliesPage(entries: seq<Entry>, uid: Option<Value>, email: string, flags: Flags)
    requires PrepLoop(entries, uid, email, flags) == Flags(true, true)
    ensures flags == Flags(true, true) || PageLoop(entries, uid, email) == Returned(true)
  {
    if entries != [] {
      if !IsUser(entries[0]) {
        PrepLoopImpliesPage(entries[1..], uid, email, flags);
      } else if entries[0].parsed.Some? {
        var user := entries[0].parsed.value;
        match UserMatches(user, email)
        case Threw =>
        case Returned(false) => PrepLoopImpliesPage(entries[1..], uid, email, flags);
        case Returned(true) =>
          PrepLoopImpliesPage(entries[1..], uid, email, Flags(true, uid == Member(Some(user), "uid")));
      }
    }
  }

  lemma {:induction false} PageLoopFinds(entries: seq<Entry>, uid: Option<Value>, email: string)
    requires PageLoop(entries, uid, email) == Returned(true)
    ensures exists entry :: entry in entries && Authenticates(entry, email) && uid == Member(entry.parsed, "uid")
    ensures NonEmptyText(uid)
  {
    var entry := entries[0];
    if Authenticates(entry, email) && uid == Member(entry.parsed, "uid") {
      assert entry in entries;
    } else {
      PageLoopFinds(entries[1..], uid, email);
      var found :| found in entries[1..] && Authenticates(found, email) && uid == Member(found.parsed, "uid");
      assert found in entries;
    }
  }

  lemma {:induction false} PageLoopImpliesComplete(entries: seq<Entry>, uid: Option<Value>, email: string)
    requires PageLoop(entries, uid, email) == Returned(true) && NonEmptyText(uid)
    ensures CompleteLoop(entries, uid.value, email) == Returned(true)
  {
    var entry := entries[0];
    if !(Authenticates(entry, email) && uid == Member(entry.parsed, "uid")) {
      PageLoopImpliesComplete(entries[1..], uid, email);
    }
  }

  /** A prepared session passes the page's check, whatever the storage holds. */
  lemma PrepImpliesPage(entries: seq<Entry>, email: string)
    requires PrepReady(entries, email)
    ensures PageReady(entries, email)
  {
    var uid := ProfileUid(ProfileJson(entries).value);
    PrepLoopImpliesPage(entries, uid, email, Flags(false, false));
    PageLoopFinds(entries, uid, email);
  }

  /** A session that passes the page's check is complete. */
  lemma PageImpliesComplete(entries: seq<Entry>, email: string)
    requires PageReady(entries, email)
    ensures Complete(entries, email)
  {
    var uid := ProfileUid(ProfileJson(entries).value);
    PageLoopFinds(entries, uid, email);
    PageLoopImpliesComplete(entries, uid, email);
  }

  // ---------------------------------------------------------------- strictness

  function Profile(uid: string): Entry {
    Entry("userProfile", Some(Obj(map["state" := Obj(map["userProfile" := Obj(map["uid" := Str(uid)])])])))
  }

  function User(suffix: string, uid: string, email: Value): Entry {
    Entry(USER_PREFIX + suffix, Some(Obj(map["uid" := Str(uid), "email" := email])))
  }

  /** A later matching entry of another account overwrites the profile verdict of the preparation loop. */
  lemma PrepIsStricter(email: string)
    ensures exists entries :: PageReady(entries, email) && !PrepReady(entries, email)
  {
    var one, two := User("a", "u1", Str(email)), User("b", "u2", Str(email));
    var entries := [Profile("u1"), one, two];
    assert !IsUser(Profile("u1"));
    assert ProfileUid(ProfileJson(entries).value) == Some(Str("u1"));
    assert Authenticates(one, email) && Authenticates(two, email);
    assert entries[1..] == [one, two] && [one, two][1..] == [two] && [two][1..] == [];
    var uid := Some(Str("u1"));
    assert PageLoop([one, two], uid, email) == Returned(true);
    assert PageLoop(entries, uid, email) == Returned(true);
    assert one in entries && PageReady(entries, email);
    assert PrepLoop([two], uid, email, Flags(true, true)) == Flags(true, false);
    assert PrepLoop([one, two], uid, email, Flags(false, false)) == Flags(true, false);
    assert PrepLoop(entries, uid, email, Flags(false, false)) == Flags(true, false);
  }

  /** Another account's numeric email makes the page's check throw, and the stored-state check never looks at it. */
  lemma PageIsStricter(email: string)
    requires email != ""
    ensures exists entries :: Complete(entries, email) && !PageReady(entries, email)
  {
    var one, two := User("a", "u2", Number("5")), User("b", "u1", Str(email));
    var entries := [Profile("u1"), one, two];
    assert !IsUser(Profile("u1"));
    assert ProfileUid(ProfileJson(entries).value) == Some(Str("u1"));
    assert IsUser(one) && IsUser(two) && UserMatches(one.parsed.value, email).Threw?;
    assert entries[1..] == [one, two] && [one, two][1..] == [two];
    var uid := Some(Str("u1"));
    assert PageLoop([one, two], uid, email).Threw?;
    assert PageLoop(entries, uid, email).Threw?;
    assert Member(one.parsed, "uid") == Some(Str("u2")) && Member(two.parsed, "uid") == Some(Str("u1"));
    assert CompleteLoop([two], Str("u1"), email) == Returned(true);
    assert CompleteLoop([one, two], Str("u1"), email) == Returned(true);
    assert CompleteLoop(entries, Str("u1"), email) == Returned(true);
    assert Complete(entries, email) && !PageReady(entries, email);
  }

  // ---------------------------------------------------------------- agreement

  predicate EmailIsText(email: Option<Value>) {
    email.None? || email.value.Null? || email.value.Str?
  }

  /** The profile and the account entries parse, and no account has an email that is neither text nor absent. */
  predicate WellFormed(entries: seq<Entry>) {
    forall entry :: entry in entries ==>
      && (entry.name == "userProfile" || IsUser(entry) ==> entry.parsed.Some?)
      && (IsUser(entry) ==> EmailIsText(Member(entry.parsed, "email")))
  }

  predicate AtMostOneMatch(entries: seq<Entry>, email: string) {
    forall i, j :: 0 <= i < j < |entries| ==> !(Authenticates(entries[i], email) && Authenticates(entries[j], email))
  }

  lemma {:induction false} NoMatchKeepsFlags(entries: seq<Entry>, uid: Option<Value>, email: string, flags: Flags)
    requires WellFormed(entries) && forall entry :: entry in entries ==> !Authenticates(entry, email)
    ensures PrepLoop(entries, uid, email, flags) == flags
  {
    if entries != [] {
      NoMatchKeepsFlags(entries[1..], uid, email, flags);
      assert entries[0] in entries;
    }
  }

  lemma {:induction false} CompleteLoopImpliesPrep(entries: seq<Entry>, uid: Value, email: string)
    requires WellFormed(entries) && AtMostOneMatch(entries, email) && email != "" && NonEmptyText(Some(uid))
    requires CompleteLoop(entries, uid, email) == Returned(true)
    ensures PrepLoop(entries, Some(uid), email, Flags(false, false)) == Flags(true, true)
  {
    var entry, rest := entries[0], entries[1..];
    assert entry in entries;
    assert WellFormed(rest);
    assert AtMostOneMatch(rest, email) by {
      assert forall i :: 0 <= i < |rest| ==> rest[i] == entries[i + 1];
    }
    if Authenticates(entry, email) {
      forall other | other in rest ensures !Authenticates(other, email) {
        var i :| 0 <= i < |rest| && rest[i] == other;
        assert entries[0] == entry && entries[i + 1] == other;
      }
      if Member(entry.parsed, "uid") != Some(uid) {
        CompleteLoopImpliesPrep(rest, uid, email);
        NoMatchKeepsFlags(rest, Some(uid), email, Flags(false, false));
      } else {
        NoMatchKeepsFlags(rest, Some(uid), email, Flags(true, true));
      }
    } else {
      CompleteLoopImpliesPrep(rest, uid, email);
    }
  }

  /** On well-formed storage with at most one entry for the requested email, the three checks agree. */
  lemma ChecksAgree(entries: seq<Entry>, email: string)
    requires WellFormed(entries) && AtMostOneMatch(entries, email) && email != ""
    ensures PrepReady(entries, email) <==> PageReady(entries, email)
    ensures PageReady(entries, email) <==> Complete(entries, email)
  {
    if Complete(entries, email) {
      CompleteLoopImpliesPrep(entries, ProfileUid(ProfileJson(entries).value).value, email);
    }
    if PrepReady(entries, email) {
      PrepImpliesPage(entries, email);
    }
    if PageReady(entries, email) {
      PageImpliesComplete(entries, email);
    }
  }

  // ---------------------------------------------------------------- which account, and in which case

  lemma {:induction false} CaseKeepsPrep(entries: seq<Entry>, uid: Option<Value>, x: string, y: string, flags: Flags)
    requires Lower(x) == Lower(y)
    ensures PrepLoop(entries, uid, x, flags) == PrepLoop(entries, uid, y, flags)
  {
    if entries != [] && !(IsUser(entries[0]) && entries[0].parsed.None?) {
      CaseKeepsPrep(entries[1..], uid, x, y, flags);
      if IsUser(entries[0]) {
        CaseKeepsPrep(entries[1..], uid, x, y, Flags(true, uid == Member(entries[0].parsed, "uid")));
      }
    }
  }

  lemma {:induction false} CaseKeepsLoops(entries: seq<Entry>, uid: Option<Value>, x: string, y: string)
    requires Lower(x) == Lower(y)
    ensures PageLoop(entries, uid, x) == PageLoop(entries, uid, y)
    ensures uid.Some? ==> CompleteLoop(entries, uid.value, x) == CompleteLoop(entries, uid.value, y)
  {
    if entries != [] {
      CaseKeepsLoops(entries[1..], uid, x, y);
      assert |Lower(x)| == |x| && |Lower(y)| == |y|;
    }
  }

  /** The requested email's letter case does not matter to any of the checks. */
  lemma CaseDoesNotMatter(entries: seq<Entry>, x: string, y: string)
    requires Lower(x) == Lower(y)
    ensures PrepReady(entries, x) == PrepReady(entries, y) && PageReady(entries, x) == PageReady(entries, y)
    ensures Complete(entries, x) == Complete(entries, y)
  {
    if ProfileJson(entries).Some? {
      var uid := ProfileUid(ProfileJson(entries).value);
      CaseKeepsPrep(entries, uid, x, y, Flags(false, false));
      CaseKeepsLoops(entries, uid, x, y);
    }
    hide PrepLoop, PageLoop, CompleteLoop, ProfileJson, ProfileUid;
    assert forall entry :: Authenticates(entry, x) <==> Authenticates(entry, y);
  }

  /** Some account entry has a uid, the profile's, and this email but for letter case. */
  ghost predicate HasAccount(entries: seq<Entry>, email: string) {
    exists entry, user, given :: entry in entries && Holds(entries, entry, user, given) && Lower(given) == Lower(email)
  }

  /** The entry is an account's, with this email, and the profile names the same uid. */
  predicate Holds(entries: seq<Entry>, entry: Entry, user: Value, given: string) {
    && USER_PREFIX <= entry.name && entry.parsed == Some(user) && user.Obj?
    && "email" in user.fields && user.fields["email"] == Str(given)
    && "uid" in user.fields && user.fields["uid"].Str? && user.fields["uid"].s != ""
    && ProfileJson(entries).Some? && ProfileUid(ProfileJson(entries).value) == Some(user.fields["uid"])
  }

  lemma {:induction false} CompleteLoopFinds(entries: seq<Entry>, uid: Value, email: string)
    requires CompleteLoop(entries, uid, email) == Returned(true) && email != "" && NonEmptyText(Some(uid))
    ensures exists entry :: entry in entries && Authenticates(entry, email) && Member(entry.parsed, "uid") == Some(uid)
  {
    var entry := entries[0];
    if Authenticates(entry, email) && Member(entry.parsed, "uid") == Some(uid) {
      assert entry in entries;
    } else {
      CompleteLoopFinds(entries[1..], uid, email);
      var found :| found in entries[1..] && Authenticates(found, email) && Member(found.parsed, "uid") == Some(uid);
      assert found in entries;
    }
  }

  /** Whatever passes one of the checks holds the requested account with its profile. */
  lemma ReadyHasAccount(entries: seq<Entry>, email: string)
    requires PrepReady(entries, email) || PageReady(entries, email) || (Complete(entries, email) && email != "")
    ensures HasAccount(entries, email)
  {
    if PrepReady(entries, email) {
      PrepImpliesPage(entries, email);
    }
    var uid := ProfileUid(ProfileJson(entries).value);
    if PageReady(entries, email) {
      PageLoopFinds(entries, uid, email);
    } else {
      CompleteLoopFinds(entries, uid.value, email);
    }
    hide PrepReady, PageReady, Complete, ProfileJson, ProfileUid;
    var entry :| entry in entries && Authenticates(entry, email) && uid == Member(entry.parsed, "uid");
    var user := entry.parsed.value;
    assert Holds(entries, entry, user, user.fields["email"].s);
  }

  /** A session with one account, the requested one in whatever case, and its profile, passes all three checks. */
  lemma OneAccountIsReady(suffix: string, uid: string, given: string, email: string)
    requires Lower(given) == Lower(email) && uid != "" && email != ""
    ensures var entries := [Profile(uid), User(suffix, uid, Str(given))];
            PrepReady(entries, email) && PageReady(entries, email) && Complete(entries, email)
  {
    var user := User(suffix, uid, Str(given));
    var entries := [Profile(uid), user];
    assert !IsUser(Profile(uid)) && IsUser(user);
    assert ProfileUid(ProfileJson(entries).value) == Some(Str(uid));
    assert entries[1..] == [user] && [user][1..] == [];
    assert UserMatches(user.parsed.value, email) == Returned(true);
    assert PrepLoop([user], Some(Str(uid)), email, Flags(false, false)) == Flags(true, true);
    assert PrepLoop(entries, Some(Str(uid)), email, Flags(false, false)) == Flags(true, true);
    PrepImpliesPage(entries, email);
    PageImpliesComplete(entries, email);
  }
}
