/** The loop that waits for share evidence after "Continue", against a user interface that may show anything. */
module LiveCapsule {
  import opened Json
  import opened Text
  import opened Sequences

  const SUCCESS_TIMEOUT_MS: nat := 45_000
  const PAUSE_MS: nat := 250

  // ---------------------------------------------------------------- button names

  /** `left\s*&\s*right`, anchored at both ends, on lower-case text. */
  predicate AmpPhrase(text: string, left: string, right: string) {
    left <= text &&
    var rest := TrimStart(text[|left|..]);
    rest != "" && rest[0] == '&' && TrimStart(rest[1..]) == right
  }

  predicate IsSkipContacts(caption: string) {
    AmpPhrase(Lower(caption), "skip contacts", "share link with others")
  }

  predicate IsShareWithOthers(caption: string) {
    IsSkipContacts(caption) || AmpPhrase(Lower(caption), "bury", "share link with others")
  }

  predicate IsSafeFollowup(caption: string) {
    Lower(caption) in {"share by link", "skip contacts", "done", "continue"} || IsShareWithOthers(caption)
  }

  predicate IsSendToContacts(caption: string) {
    AmpPhrase(Lower(caption), "send to selected contacts", "bury")
  }

  /** The phrase is the two sides around an ampersand, with any white space beside it. */
  lemma AmpPhraseIff(text: string, left: string, right: string)
    requires right != "" && !IsSpace(right[0])
    ensures AmpPhrase(text, left, right) <==>
              exists a, b :: Blank(a) && Blank(b) && text == left + a + "&" + (b + right)
  {
    if AmpPhrase(text, left, right) {
      var after := text[|left|..];
      var rest := TrimStart(after);
      var a := SplitStart(after);
      var b := SplitStart(rest[1..]);
      assert text == left + after && after == a + rest && rest == "&" + rest[1..] && rest[1..] == b + right;
      assert text == left + a + "&" + (b + right);
    }
    if a, b :| Blank(a) && Blank(b) && text == left + a + "&" + (b + right) {
      assert text[|left|..] == a + ("&" + (b + right));
      TrimBlanks(a, "&" + (b + right));
      assert ("&" + (b + right))[1..] == b + right;
      TrimBlanks(b, right);
    }
  }

  lemma {:induction false} SplitStart(s: string) returns (blanks: string)
    ensures Blank(blanks) && s == blanks + TrimStart(s)
  {
    if s == "" || !IsSpace(s[0]) {
      blanks := "";
    } else {
      blanks := SplitStart(s[1..]);
      blanks := [s[0]] + blanks;
      assert s == [s[0]] + s[1..];
    }
  }

  lemma {:induction false} TrimBlanks(blanks: string, s: string)
    requires Blank(blanks) && s != "" && !IsSpace(s[0])
    ensures TrimStart(blanks + s) == s
  {
    if blanks == "" {
      assert blanks + s == s;
    } else {
      assert (blanks + s)[1..] == blanks[1..] + s;
      TrimBlanks(blanks[1..], s);
    }
  }

  lemma SecondLetter(text: string, left: string, right: string)
    requires |left| > 1
    ensures AmpPhrase(text, left, right) ==> |text| > 1 && text[1] == left[1]
  {
  }

  /** No name is both: the second letter of the lower-case text tells them apart. */
  lemma SafeIsNotSend(caption: string)
    requires IsSafeFollowup(caption)
    ensures !IsSendToContacts(caption)
  {
    SecondLetter(Lower(caption), "send to selected contacts", "bury");
    SecondLetter(Lower(caption), "skip contacts", "share link with others");
    SecondLetter(Lower(caption), "bury", "share link with others");
    hide AmpPhrase;
  }

  // ---------------------------------------------------------------- what the page shows

  datatype Snapshot = Snapshot(
    decisionVisible: bool, selectionVisible: bool, shareLinkVisible: bool, titleVisible: bool,
    followupLabels: seq<string>, rest: string)

  datatype Evidence = Evidence(
    copyShareLink: bool, shareLinkButton: bool, home: bool,
    finalShareLink: Option<string>, capsuleId: Option<string>, shareToken: Option<string>, successText: Option<string>)

  predicate Filled(s: Option<string>) {
    s.Some? && s.value != ""
  }

  predicate Strong(e: Evidence) {
    e.copyShareLink || e.shareLinkButton || e.home
    || Filled(e.finalShareLink) || Filled(e.capsuleId) || Filled(e.shareToken) || Filled(e.successText)
  }

  /** What happens when the loop asks for the single share-link action, or for the follow-up it has chosen. */
  datatype ClickAnswer =
    | NoButton                                                    // not shown, or not exactly one: the call throws
    | Clicked(name: string, innerText: Option<string>, fails: bool)

  /** One pass sees one value of each; `drift(k)` is the time passed besides the pauses. */
  datatype Page = Page(
    drift: nat -> nat, snapshot: nat -> Snapshot, evidence: nat -> Evidence,
    shareAction: nat -> ClickAnswer, followup: nat -> ClickAnswer)

  /** Role queries only ever return buttons whose accessible name matches what was asked for. */
  ghost predicate QueriesByName(page: Page) {
    && (forall k: nat :: page.shareAction(k).Clicked? ==> IsShareWithOthers(page.shareAction(k).name))
    && (forall k: nat :: page.followup(k).Clicked? ==>
          forall caption :: Chosen(page.snapshot(k)) == [caption] ==> Lower(page.followup(k).name) == Lower(caption))
  }

  /** A clicked share action never reads back as text made of blanks only. */
  ghost predicate LabelsReadBack(page: Page) {
    forall k: nat ::
      (page.shareAction(k).Clicked? && Filled(page.shareAction(k).innerText)) ==>
          !Blank(page.shareAction(k).innerText.value)
  }

  predicate Eligible(caption: string, snapshot: Snapshot) {
    IsSafeFollowup(caption) && !(Lower(caption) == "continue" && snapshot.selectionVisible)
        && Lower(caption) != "cancel"
  }

  /** `Array.from(new Set(labels.filter(...)))`. */
  function Distinct(labels: seq<string>, snapshot: Snapshot): (chosen: seq<string>)
    ensures forall caption :: caption in chosen ==> caption in labels && Eligible(caption, snapshot)
  {
    if labels == [] then []
    else
      var front, last := labels[..|labels| - 1], labels[|labels| - 1];
      var before := Distinct(front, snapshot);
      if Eligible(last, snapshot) && last !in before then before + [last] else before
  }

  function Chosen(snapshot: Snapshot): seq<string> {
    Distinct(snapshot.followupLabels, snapshot)
  }

  /** The follow-ups on offer: each safe label once, less Cancel, and less Continue while contacts can be selected. */
  lemma {:induction false} ChosenMeans(labels: seq<string>, snapshot: Snapshot)
    ensures forall x :: x in Distinct(labels, snapshot) <==>
              && x in labels && IsSafeFollowup(x) && Lower(x) != "cancel"
              && (Lower(x) == "continue" ==> !snapshot.selectionVisible)
    ensures forall i, j :: 0 <= i < j < |Distinct(labels, snapshot)| ==>
              Distinct(labels, snapshot)[i] != Distinct(labels, snapshot)[j]
  {
    hide IsSafeFollowup, Lower;
    if labels != [] {
      ChosenMeans(labels[..|labels| - 1], snapshot);
    }
  }

  /** What `chooseSkipContactsAndShareLink` returns after the click. */
  function ReadBack(answer: ClickAnswer): string
    requires answer.Clicked?
  {
    Trim(Collapse(if Filled(answer.innerText) then answer.innerText.value else "share link with others"))
  }

  // ---------------------------------------------------------------- the loop

  datatype Ending =
    | Found(evidence: Evidence)
    | Failed

  /** The loop's variables, the pauses taken, and the names of all buttons clicked so far. */
  datatype Loop = Loop(
    passes: nat, pauses: nat, followup: Option<string>, skipped: bool, sent: bool, decisionReached: bool,
    snapshots: seq<Snapshot>, clicks: seq<string>, ending: Option<Ending>)

  const FRESH := Loop(0, 0, None, false, false, false, [], [], None)

  predicate Expired(page: Page, l: Loop) {
    PAUSE_MS * l.pauses + page.drift(l.passes) >= SUCCESS_TIMEOUT_MS
  }

  function Click(l: Loop, answer: ClickAnswer, caption: string): Loop
    requires answer.Clicked?
  {
    var l' := l.(clicks := l.clicks + [answer.name], followup := Some(caption));
    if answer.fails then l'.(ending := Some(Failed))
    else l'.(skipped := IsSkipContacts(caption), sent := IsSendToContacts(caption))
  }

  /** The pass looks at the page: it counts, and records the snapshot if it is a new one. */
  function Look(page: Page, l: Loop): Loop {
    var snapshot := page.snapshot(l.passes);
    l.(passes := l.passes + 1, decisionReached := l.decisionReached || snapshot.decisionVisible,
       snapshots := PushIfChanged(l.snapshots, snapshot))
  }

  /** What pass `k` does after looking. */
  function React(page: Page, k: nat, l: Loop): Loop {
    var snapshot := page.snapshot(k);
    if Strong(page.evidence(k)) then l.(ending := Some(Found(page.evidence(k))))
    else if snapshot.decisionVisible && !l.skipped && !Filled(l.followup) then
      var answer := page.shareAction(k);
      if !snapshot.shareLinkVisible || answer.NoButton? then l.(ending := Some(Failed))
      else Click(l, answer, ReadBack(answer)).(sent := false)
    else if snapshot.titleVisible && !Filled(l.followup) && |Chosen(snapshot)| > 0 then
      var answer := page.followup(k);
      if |Chosen(snapshot)| > 1 || answer.NoButton? then l.(ending := Some(Failed))
      else Click(l, answer, Chosen(snapshot)[0])
    else l.(pauses := l.pauses + 1)
  }

  /** One pass of the `while` loop. */
  function Pass(page: Page, l: Loop): Loop {
    if l.ending.Some? then l
    else if Expired(page, l) then l.(ending := Some(Failed))
    else React(page, l.passes, Look(page, l))
  }

  function Passes(page: Page, n: nat): Loop {
    if n == 0 then FRESH else Pass(page, Passes(page, n - 1))
  }

  // ---------------------------------------------------------------- what every pass keeps

  ghost predicate OnlySafeClicks(l: Loop) {
    forall name :: name in l.clicks ==> IsSafeFollowup(name) && !IsSendToContacts(name)
  }

  lemma SameLowerSameKind(x: string, y: string)
    requires Lower(x) == Lower(y)
    ensures IsSafeFollowup(x) == IsSafeFollowup(y)
  {
  }

  lemma PassClicksSafely(page: Page, l: Loop)
    requires QueriesByName(page) && OnlySafeClicks(l) && !l.sent
    ensures OnlySafeClicks(Pass(page, l)) && !Pass(page, l).sent
  {
    hide IsSafeFollowup, IsSendToContacts, IsShareWithOthers, Distinct, Trim, Collapse;
    var snapshot := page.snapshot(l.passes);
    if page.shareAction(l.passes).Clicked? {
      ShareIsSafe(page.shareAction(l.passes).name);
      SafeIsNotSend(page.shareAction(l.passes).name);
    }
    if |Chosen(snapshot)| == 1 {
      var caption := Chosen(snapshot)[0];
      assert Chosen(snapshot) == [caption];
      ChosenIsSafe(snapshot, caption);
      SafeIsNotSend(caption);
      if page.followup(l.passes).Clicked? {
        SameLowerSameKind(page.followup(l.passes).name, caption);
        SafeIsNotSend(page.followup(l.passes).name);
      }
    }
  }

  lemma ShareIsSafe(name: string)
    ensures IsShareWithOthers(name) ==> IsSafeFollowup(name)
  {
  }

  lemma ChosenIsSafe(snapshot: Snapshot, caption: string)
    requires caption in Chosen(snapshot)
    ensures IsSafeFollowup(caption)
  {
  }

  /** At most one click, and it accounts for the one pass that neither paused nor ended. */
  ghost predicate OneClick(page: Page, l: Loop) {
    && |l.clicks| <= 1
    && (l.ending.None? ==> (l.clicks != [] <==> Filled(l.followup)) && l.passes == l.pauses + |l.clicks|)
    && l.passes <= l.pauses + |l.clicks| + 1
    && l.pauses <= 180
    && (l.pauses == 180 && l.ending.Some? ==> l.passes <= l.pauses + |l.clicks|)
  }

  lemma ChosenIsTruthy(snapshot: Snapshot, caption: string)
    requires caption in Chosen(snapshot)
    ensures caption != ""
  {
    assert Lower("") == "";
  }

  lemma ReadBackTruthy(answer: ClickAnswer)
    requires answer.Clicked?
    ensures ReadBack(answer) == ""
        <==> answer.innerText.Some? && answer.innerText.value != "" && Blank(answer.innerText.value)
  {
    var text := if Filled(answer.innerText) then answer.innerText.value else "share link with others";
    NormalizedEmpty(text);
    assert !Blank("share link with others") by {
      assert "share link with others"[0] == 's';
    }
  }

  lemma PassClicksOnce(page: Page, l: Loop)
    requires LabelsReadBack(page) && OneClick(page, l)
    ensures OneClick(page, Pass(page, l))
  {
    hide React, LabelsReadBack;
    if l.ending.None? && !Expired(page, l) {
      ReactClicksOnce(page, l);
    }
  }

  lemma ReactClicksOnce(page: Page, l: Loop)
    requires LabelsReadBack(page) && OneClick(page, l) && l.ending.None? && l.pauses < 180
    ensures OneClick(page, React(page, l.passes, Look(page, l)))
  {
    hide Click, ReadBack, Blank, PushIfChanged, Strong, Chosen, Expired;
    var snapshot := page.snapshot(l.passes);
    if !Filled(l.followup) && page.shareAction(l.passes).Clicked? {
      ReadBackTruthy(page.shareAction(l.passes));
      FirstClick(page, l, page.shareAction(l.passes), ReadBack(page.shareAction(l.passes)));
    }
    if !Filled(l.followup) && |Chosen(snapshot)| == 1 && page.followup(l.passes).Clicked? {
      ChosenIsTruthy(snapshot, Chosen(snapshot)[0]);
      FirstClick(page, l, page.followup(l.passes), Chosen(snapshot)[0]);
    }
  }

  lemma FirstClick(page: Page, l: Loop, answer: ClickAnswer, caption: string)
    requires OneClick(page, l) && l.ending.None? && l.pauses < 180 && !Filled(l.followup)
    requires answer.Clicked? && caption != ""
    ensures OneClick(page, Click(Look(page, l), answer, caption))
    ensures OneClick(page, Click(Look(page, l), answer, caption).(sent := false))
  {
    hide IsSendToContacts, IsSkipContacts, PushIfChanged;
  }

  lemma {:induction false} PassesSafe(page: Page, n: nat)
    requires QueriesByName(page)
    ensures OnlySafeClicks(Passes(page, n)) && !Passes(page, n).sent
  {
    if n > 0 {
      PassesSafe(page, n - 1);
      PassClicksSafely(page, Passes(page, n - 1));
    }
  }

  lemma {:induction false} PassesOnce(page: Page, n: nat)
    requires LabelsReadBack(page)
    ensures OneClick(page, Passes(page, n))
  {
    if n > 0 {
      PassesOnce(page, n - 1);
      PassClicksOnce(page, Passes(page, n - 1));
    }
  }

  // ---------------------------------------------------------------- every page, every number of passes

  lemma PassRecords(page: Page, l: Loop)
    ensures Pass(page, l).snapshots == l.snapshots
         || Pass(page, l).snapshots == PushIfChanged(l.snapshots, page.snapshot(l.passes))
    ensures l.ending.None? && Pass(page, l).ending.Some? && Pass(page, l).ending.value.Found?
            ==> Strong(Pass(page, l).ending.value.evidence)
  {
    hide Distinct, IsShareWithOthers, IsSkipContacts, IsSendToContacts, ReadBack, Strong, PushIfChanged;
  }

  lemma {:induction false} PassesRecord(page: Page, n: nat)
    ensures var l := Passes(page, n);
            NoAdjacentRepeats(l.snapshots)
                && (l.ending.Some? && l.ending.value.Found? ==> Strong(l.ending.value.evidence))
  {
    if n > 0 {
      hide Pass, Strong, PushIfChanged;
      PassesRecord(page, n - 1);
      var l := Passes(page, n - 1);
      PassRecords(page, l);
      PushKeeps(l.snapshots, page.snapshot(l.passes));
      EndedPass(page, l);
    }
  }

  lemma EndedPass(page: Page, l: Loop)
    ensures l.ending.Some? ==> Pass(page, l) == l
  {
  }

  lemma PassCounts(page: Page, l: Loop)
    ensures var p := Pass(page, l);
            l.passes <= p.passes <= l.passes + 1 && (p.ending.None? ==> l.ending.None? && p.passes == l.passes + 1)
  {
    hide Chosen, IsSkipContacts, IsSendToContacts, ReadBack, Strong, PushIfChanged, Filled;
  }

  lemma {:induction false} PassesCount(page: Page, n: nat)
    ensures Passes(page, n).passes <= n && (Passes(page, n).ending.None? ==> Passes(page, n).passes == n)
  {
    if n > 0 {
      PassesCount(page, n - 1);
      PassCounts(page, Passes(page, n - 1));
    }
  }

  /**
   * Against any page, after any number of passes: no send-to-contacts button has been clicked, and success is only
   * reported with strong evidence.
   */
  lemma NeverSendsToContacts(page: Page, n: nat)
    requires QueriesByName(page)
    ensures var l := Passes(page, n);
            && (forall name :: name in l.clicks ==> !IsSendToContacts(name)) && !l.sent
            && (l.ending.Some? && l.ending.value.Found? ==> Strong(l.ending.value.evidence))
  {
    PassesSafe(page, n);
    PassesRecord(page, n);
  }

  /** When clicked labels read back, the loop clicks at most once, observes at most 181 times, and then has ended. */
  lemma ClicksAtMostOnce(page: Page, n: nat)
    requires LabelsReadBack(page)
    ensures |Passes(page, n).clicks| <= 1 && Passes(page, n).passes <= 181
    ensures n >= 182 ==> Passes(page, n).ending.Some?
  {
    PassesOnce(page, n);
    PassesCount(page, n);
  }

  // ---------------------------------------------------------------- exactly how it ends

  /** One of the seven marks of a finished capsule. */
  predicate Marked(e: Evidence) {
    e.copyShareLink || e.shareLinkButton || e.home
    || e.finalShareLink !in {None, Some("")} || e.capsuleId !in {None, Some("")}
    || e.shareToken !in {None, Some("")} || e.successText !in {None, Some("")}
  }

  /** Pass k takes place: the wait has not ended before it, and 45 seconds have not passed. */
  predicate TakesPlace(page: Page, k: nat) {
    var l := Passes(page, k);
    l.ending.None? && 250 * l.pauses + page.drift(k) < 45_000
  }

  /** Nothing has been clicked that reads back as text. */
  predicate Unclicked(l: Loop) {
    l.followup in {None, Some("")}
  }

  /** Pass k finds no single action to take where it needs one, or its click throws. */
  predicate CannotAct(page: Page, k: nat) {
    var l, snapshot := Passes(page, k), page.snapshot(k);
    Unclicked(l) &&
    if snapshot.decisionVisible && !l.skipped then
      !snapshot.shareLinkVisible || page.shareAction(k).NoButton? || page.shareAction(k).fails
    else
      snapshot.titleVisible && Chosen(snapshot) != []
      && (|Chosen(snapshot)| > 1 || page.followup(k).NoButton? || page.followup(k).fails)
  }

  lemma {:induction false} PassNumber(page: Page, n: nat)
    ensures Passes(page, n).ending.None? ==> Passes(page, n).passes == n
  {
    PassesCount(page, n);
  }

  /** How the ending changes in one pass. */
  lemma OnePassEnds(page: Page, k: nat)
    ensures var l, m := Passes(page, k), Passes(page, k + 1);
            && (l.ending.Some? ==> m.ending == l.ending)
            && (l.ending.None? && !TakesPlace(page, k) ==> m.ending == Some(Failed))
            && (TakesPlace(page, k) && Marked(page.evidence(k)) ==> m.ending == Some(Found(page.evidence(k))))
            && (TakesPlace(page, k) && !Marked(page.evidence(k)) ==>
                  m.ending == if CannotAct(page, k) then Some(Failed) else None)
  {
    hide Chosen, ReadBack, IsSkipContacts, IsSendToContacts, PushIfChanged, Strong, Marked, Filled, Unclicked;
    PassNumber(page, k);
    MarkedIsStrong(page.evidence(k));
    UnclickedIff(Passes(page, k));
    assert Passes(page, k + 1) == Pass(page, Passes(page, k));
    hide Passes;
  }

  lemma MarkedIsStrong(e: Evidence)
    ensures Marked(e) <==> Strong(e)
  {
  }

  lemma UnclickedIff(l: Loop)
    ensures Unclicked(l) <==> !Filled(l.followup)
  {
  }

  /** Pass k takes place, and sees this evidence with one of the marks. */
  predicate SeesAt(page: Page, k: nat, e: Evidence) {
    TakesPlace(page, k) && Marked(e) && page.evidence(k) == e
  }

  /** Pass k runs out of time, or without a mark it cannot act. */
  predicate FailsAt(page: Page, k: nat) {
    Passes(page, k).ending.None? && (!TakesPlace(page, k) || (!Marked(page.evidence(k)) && CannotAct(page, k)))
  }

  lemma OnePassDecides(page: Page, k: nat, e: Evidence)
    ensures Passes(page, k + 1).ending == Some(Found(e))
       <==> Passes(page, k).ending == Some(Found(e)) || SeesAt(page, k, e)
    ensures Passes(page, k + 1).ending == Some(Failed)
       <==> Passes(page, k).ending == Some(Failed) || FailsAt(page, k)
  {
    hide Marked, CannotAct, Passes;
    OnePassEnds(page, k);
  }

  lemma NotAtFirst(page: Page)
    ensures Passes(page, 0).ending == None
  {
  }

  /** Evidence is reported iff some pass that takes place sees it, and it has one of the marks. */
  lemma {:induction false} FoundIff(page: Page, n: nat, e: Evidence)
    ensures Passes(page, n).ending == Some(Found(e)) <==> exists k :: 0 <= k < n && SeesAt(page, k, e)
  {
    hide SeesAt, FailsAt, Passes;
    if n > 0 {
      FoundIff(page, n - 1, e);
      OnePassDecides(page, n - 1, e);
    } else {
      NotAtFirst(page);
    }
  }

  /** The wait fails iff time runs out, or a pass without marks finds no single action to take, or its click throws. */
  lemma {:induction false} FailedIff(page: Page, n: nat)
    ensures Passes(page, n).ending == Some(Failed) <==> exists k :: 0 <= k < n && FailsAt(page, k)
  {
    hide SeesAt, FailsAt, Passes;
    if n > 0 {
      FailedIff(page, n - 1);
      OnePassDecides(page, n - 1, page.evidence(n - 1));
    } else {
      NotAtFirst(page);
    }
  }

  /** What a pass that goes on has done: one click with its label remembered, or one pause. */
  lemma GoesOn(page: Page, k: nat)
    requires TakesPlace(page, k) && !Marked(page.evidence(k)) && !CannotAct(page, k)
    ensures var l, m, snapshot := Passes(page, k), Passes(page, k + 1), page.snapshot(k);
            if Unclicked(l) && snapshot.decisionVisible && !l.skipped then
              && page.shareAction(k).Clicked? && m.clicks == l.clicks + [page.shareAction(k).name]
              && m.followup == Some(ReadBack(page.shareAction(k))) && m.pauses == l.pauses
            else if Unclicked(l) && snapshot.titleVisible && Chosen(snapshot) != [] then
              && page.followup(k).Clicked? && m.clicks == l.clicks + [page.followup(k).name]
              && m.followup == Some(Chosen(snapshot)[0]) && m.pauses == l.pauses
            else
              m.clicks == l.clicks && m.followup == l.followup && m.pauses == l.pauses + 1
  {
    hide Chosen, ReadBack, IsSkipContacts, IsSendToContacts, PushIfChanged, Strong, Marked, Filled, Unclicked;
    PassNumber(page, k);
    MarkedIsStrong(page.evidence(k));
    UnclickedIff(Passes(page, k));
    assert Passes(page, k + 1) == Pass(page, Passes(page, k));
    hide Passes;
  }

  // ---------------------------------------------------------------- the assumption is needed

  /** A page stuck on the contact decision, whose share button reads back as `text`. */
  function StuckPage(text: string): Page {
    var button := Clicked("skip contacts & share link with others", Some(text), false);
    Page(_ => 0, _ => Snapshot(true, true, true, false, [], ""),
         _ => Evidence(false, false, false, None, None, None, None), _ => button, _ => NoButton)
  }

  ghost predicate ClickedOnly(l: Loop, n: nat) {
    |l.clicks| == n && l.pauses == 0 && l.ending.None? && !l.skipped && !Filled(l.followup)
  }

  lemma {:induction false} BlankClicksForever(text: string, n: nat)
    requires text != "" && Blank(text)
    ensures ClickedOnly(Passes(StuckPage(text), n), n)
  {
    hide Pass, Blank, StuckPage, ClickedOnly;
    if n > 0 {
      BlankClicksForever(text, n - 1);
      StuckPass(text, Passes(StuckPage(text), n - 1), n - 1);
    } else {
      FreshClickedOnly();
    }
  }

  lemma FreshClickedOnly()
    ensures ClickedOnly(FRESH, 0)
  {
  }

  lemma StuckPass(text: string, l: Loop, n: nat)
    requires text != "" && Blank(text) && ClickedOnly(l, n)
    ensures ClickedOnly(Pass(StuckPage(text), l), n + 1)
  {
    hide IsSendToContacts, ReadBack, Blank, PushIfChanged, Distinct;
    ReadBackTruthy(StuckPage(text).shareAction(l.passes));
    assert !IsSkipContacts("") by {
      assert |Lower("")| == 0;
    }
    hide IsSkipContacts;
  }

  /** Every share button this page lets the loop click reads back as `text`. */
  ghost predicate ReadsBackAs(page: Page, text: string) {
    forall k: nat :: page.shareAction(k).Clicked? ==> page.shareAction(k).innerText == Some(text)
  }

  /**
   * No page whose share buttons read back as `text` gets a second click, exactly when the text is not made of
   * blanks.
   */
  lemma ClicksOnceIff(text: string)
    ensures (forall page, n: nat :: ReadsBackAs(page, text) ==> |Passes(page, n).clicks| <= 1)
        <==> (text == "" || !Blank(text))
  {
    if text != "" && Blank(text) {
      BlankClicksForever(text, 2);
      assert ReadsBackAs(StuckPage(text), text);
      assert |Passes(StuckPage(text), 2).clicks| == 2;
    } else {
      forall page, n: nat | ReadsBackAs(page, text) ensures |Passes(page, n).clicks| <= 1 {
        PassesOnce(page, n);
      }
    }
  }

  // ---------------------------------------------------------------- the loop itself

  /** Once the loop has ended, further passes change nothing. */
  lemma {:induction false} EndedStays(page: Page, n: nat, m: nat)
    requires n <= m && Passes(page, n).ending.Some?
    ensures Passes(page, m) == Passes(page, n)
  {
    if n < m {
      EndedStays(page, n, m - 1);
    }
  }

  /** The local variables of `waitForLiveCapsuleShareLinkEvidence`, and the buttons it has clicked. */
  class ShareEvidenceWait {
    var passes: nat
    var pauses: nat
    var followup: Option<string>
    var skipped: bool
    var sent: bool
    var decisionReached: bool
    var snapshots: seq<Snapshot>
    ghost var clicks: seq<string>
    var ending: Option<Ending>

    ghost function Model(): Loop
      reads this
    {
      Loop(passes, pauses, followup, skipped, sent, decisionReached, snapshots, clicks, ending)
    }

    constructor ()
      ensures Model() == FRESH
    {
      passes, pauses, followup, skipped, sent, decisionReached := 0, 0, None, false, false, false;
      snapshots, clicks, ending := [], [], None;
    }

    /** The click itself: the label is stored first, and a click that throws ends the loop. */
    method ClickOnce(answer: ClickAnswer, caption: string)
      requires answer.Clicked? && ending.None?
      modifies this
      ensures Model() == Click(old(Model()), answer, caption)
    {
      followup := Some(caption);
      clicks := clicks + [answer.name];
      if answer.fails {
        ending := Some(Failed);
      } else {
        skipped := IsSkipContacts(caption);
        sent := IsSendToContacts(caption);
      }
    }

    method ActOn(page: Page, k: nat)
      requires ending.None?
      modifies this
      ensures Model() == React(page, k, old(Model()))
    {
      hide Distinct, IsShareWithOthers, IsSkipContacts, IsSendToContacts, ReadBack, Strong, Click;
      var snapshot := page.snapshot(k);
      if Strong(page.evidence(k)) {
        ending := Some(Found(page.evidence(k)));
      } else if snapshot.decisionVisible && !skipped && !Filled(followup) {
        if !snapshot.shareLinkVisible || page.shareAction(k).NoButton? {
          ending := Some(Failed);
        } else {
          ClickOnce(page.shareAction(k), ReadBack(page.shareAction(k)));
          sent := false;
        }
      } else if snapshot.titleVisible && !Filled(followup) && |Chosen(snapshot)| > 0 {
        if |Chosen(snapshot)| > 1 || page.followup(k).NoButton? {
          ending := Some(Failed);
        } else {
          ClickOnce(page.followup(k), Chosen(snapshot)[0]);
        }
      } else {
        pauses := pauses + 1;
      }
    }

    method Observe(page: Page)
      requires ending.None?
      modifies this
      ensures Model() == Pass(page, old(Model()))
    {
      hide React;
      if PAUSE_MS * pauses + page.drift(passes) >= SUCCESS_TIMEOUT_MS {
        ending := Some(Failed);
        return;
      }
      var snapshot := page.snapshot(passes);
      passes := passes + 1;
      decisionReached := decisionReached || snapshot.decisionVisible;
      snapshots := PushIfChanged(snapshots, snapshot);
      ActOn(page, passes - 1);
    }

    /** The whole loop; `bound` is a number of passes by which it has ended. */
    method Wait(page: Page, ghost bound: nat) returns (result: Ending)
      requires Model() == FRESH && Passes(page, bound).ending.Some?
      modifies this
      ensures Model() == Passes(page, bound) && ending == Some(result)
      ensures LabelsReadBack(page) ==> |clicks| <= 1 && passes <= 181
      ensures QueriesByName(page) ==> !sent && forall name :: name in clicks ==> !IsSendToContacts(name)
      ensures result.Found? ==> exists k :: 0 <= k < bound && SeesAt(page, k, result.evidence)
      ensures result.Failed? <==> exists k :: 0 <= k < bound && FailsAt(page, k)
    {
      hide SeesAt, FailsAt, Pass, LabelsReadBack, QueriesByName, IsSendToContacts, Strong, Marked;
      ghost var n := 0;
      while ending.None?
        invariant n <= bound && Model() == Passes(page, n)
        decreases bound - n
      {
        NotEndedYet(page, n, bound);
        Observe(page);
        n := n + 1;
      }
      EndedStays(page, n, bound);
      result := ending.value;
      EndingMeans(page, bound);
      if LabelsReadBack(page) {
        ClicksAtMostOnce(page, bound);
      }
      if QueriesByName(page) {
        NeverSendsToContacts(page, bound);
      }
    }
  }

  lemma EndingMeans(page: Page, n: nat)
    requires Passes(page, n).ending.Some?
    ensures var result := Passes(page, n).ending.value;
            && (result.Found? ==> exists k :: 0 <= k < n && SeesAt(page, k, result.evidence))
            && (result.Failed? <==> exists k :: 0 <= k < n && FailsAt(page, k))
  {
    hide Passes, SeesAt, FailsAt;
    FailedIff(page, n);
    var result := Passes(page, n).ending.value;
    if result.Found? {
      FoundIff(page, n, result.evidence);
    }
  }

  lemma NotEndedYet(page: Page, n: nat, bound: nat)
    requires n <= bound && Passes(page, n).ending.None? && Passes(page, bound).ending.Some?
    ensures n < bound
  {
  }
}
