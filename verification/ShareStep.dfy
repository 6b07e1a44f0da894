/** Advancing the composer to the step that shows "Bury", against a user interface that may show anything. */
module ShareStep {
  import opened Json
  import opened Text
  import opened Sequences

  const TIMEOUT_MS: nat := 15_000
  const PAUSE_MS: nat := 250

  /**
   * One look at the page. `names` are the accessible names of the visible buttons, `rest` all other compared
   * fields.
   */
  datatype Snapshot = Snapshot(
    names: seq<string>, mediaControls: seq<string>, mediaSummary: Option<string>, nextVisible: bool,
    composeStep: bool, mediaStep: bool, shareStep: bool, rest: string)

  /** What comes of pressing "Next step". */
  datatype NextAnswer = NotVisible | ClickFails | NeverChanges | Changes

  /** `live` is the pattern of final actions; `drift` the time that passes besides the pauses. */
  datatype Page = Page(
    live: string -> bool, snapshot: nat -> Snapshot, drift: nat -> nat, next: nat -> NextAnswer)

  /** `listVisibleButtonLabels`: names are trimmed, and empty ones dropped. */
  function Labels(names: seq<string>): seq<string> {
    if names == [] then []
    else if Trim(names[0]) == "" then Labels(names[1..])
    else [Trim(names[0])] + Labels(names[1..])
  }

  function Filter(labels: seq<string>, live: string -> bool): seq<string> {
    if labels == [] then []
    else if live(labels[0]) then [labels[0]] + Filter(labels[1..], live)
    else Filter(labels[1..], live)
  }

  function Candidates(page: Page, s: Snapshot): seq<string> {
    Filter(Labels(s.names), page.live)
  }

  function FinalAction(page: Page, s: Snapshot): string {
    if |Candidates(page, s)| == 1 then Candidates(page, s)[0] else ""
  }

  predicate ShowsBury(page: Page, s: Snapshot) {
    Lower(FinalAction(page, s)) == "bury"
  }

  /** `assertNoAmbiguousFinalActions` throws. */
  predicate Ambiguous(page: Page, s: Snapshot) {
    |Candidates(page, s)| > 1
    || (Trim(FinalAction(page, s)) != "" && Lower(Trim(FinalAction(page, s))) != "bury")
  }

  predicate MediaReady(s: Snapshot) {
    (s.mediaStep || s.mediaControls != [])
    && ((s.mediaSummary.Some? && s.mediaSummary.value != "") || s.mediaControls != [])
  }

  // ---------------------------------------------------------------- the controller

  datatype Goal = MediaContent | Bury

  predicate Reached(page: Page, goal: Goal, s: Snapshot) {
    match goal
    case MediaContent => MediaReady(s)
    case Bury => ShowsBury(page, s)
  }

  /** `clicks` holds, for each press of Next, the snapshots recorded at that moment. */
  datatype Progress = Progress(looks: nat, snapshots: seq<Snapshot>, clicks: seq<seq<Snapshot>>)

  /** The snapshot a step ends with, or None when it throws. */
  datatype Result = Result(progress: Progress, last: Option<Snapshot>)

  function Look(page: Page, p: Progress): Progress {
    p.(looks := p.looks + 1, snapshots := PushIfChanged(p.snapshots, page.snapshot(p.looks)))
  }

  /** `waitForMediaStepSnapshotReady` and `waitForBuryOnShareStep`, with `pauses` pauses already taken. */
  function WaitFor(page: Page, goal: Goal, p: Progress, pauses: nat): Result
    decreases TIMEOUT_MS - PAUSE_MS * pauses
  {
    if PAUSE_MS * pauses + page.drift(p.looks) >= TIMEOUT_MS then Result(p, None)
    else
      var s := page.snapshot(p.looks);
      if Ambiguous(page, s) then Result(Look(page, p), None)
      else if Reached(page, goal, s) then Result(Look(page, p), Some(s))
      else WaitFor(page, goal, Look(page, p), pauses + 1)
  }

  /** `clickNextStepAndWaitForChange`: the last component says whether it returned. */
  function PressNext(page: Page, p: Progress): (Progress, bool) {
    var answer := page.next(|p.clicks|);
    if answer.NotVisible? then (p, false)
    else (p.(clicks := p.clicks + [p.snapshots]), answer.Changes?)
  }

  /** From a Media or Share snapshot on. */
  function ToShare(page: Page, p: Progress, s: Snapshot, maxClicks: int): Result {
    if ShowsBury(page, s) then Result(p, Some(s))
    else if s.shareStep then WaitFor(page, Bury, p, 0)
    else if !s.nextVisible || |p.clicks| >= maxClicks then Result(p, None)
    else
      var (p', moved) := PressNext(page, p);
      if moved then WaitFor(page, Bury, p', 0) else Result(p', None)
  }

  /** `waitForShareStepReady`. */
  function ShareReady(page: Page, maxClicks: int): Result {
    var p := Look(page, Progress(0, [], []));
    var s := page.snapshot(0);
    if Ambiguous(page, s) then Result(p, None)
    else if ShowsBury(page, s) then Result(p, Some(s))
    else if MediaReady(s) || s.shareStep then ToShare(page, p, s, maxClicks)
    else if !s.composeStep || !s.nextVisible || 0 >= maxClicks then Result(p, None)
    else
      var (p', moved) := PressNext(page, p);
      if !moved then Result(p', None)
      else
        var media := WaitFor(page, MediaContent, p', 0);
        if media.last.None? then media else ToShare(page, media.progress, media.last.value, maxClicks)
  }

  // ---------------------------------------------------------------- what holds on the way

  /** Nothing ambiguous so far, and the snapshot in hand is the last one recorded. */
  ghost predicate Clean(page: Page, p: Progress) {
    forall s :: s in p.snapshots ==> !Ambiguous(page, s)
  }

  ghost predicate QuietClicks(page: Page, p: Progress) {
    forall shown :: shown in p.clicks ==> shown != [] && Candidates(page, shown[|shown| - 1]) == []
  }

  ghost predicate Held(p: Progress, s: Snapshot) {
    p.snapshots != [] && p.snapshots[|p.snapshots| - 1] == s
  }

  ghost predicate Sound(page: Page, r: Result) {
    && NoAdjacentRepeats(r.progress.snapshots) && QuietClicks(page, r.progress)
    && (r.last.Some? ==> Clean(page, r.progress) && Held(r.progress, r.last.value))
  }

  lemma LookKeeps(page: Page, p: Progress)
    requires NoAdjacentRepeats(p.snapshots) && QuietClicks(page, p)
    ensures NoAdjacentRepeats(Look(page, p).snapshots) && QuietClicks(page, Look(page, p))
    ensures Held(Look(page, p), page.snapshot(p.looks)) && Look(page, p).clicks == p.clicks
    ensures Look(page, p).looks == p.looks + 1
    ensures Clean(page, p) && !Ambiguous(page, page.snapshot(p.looks)) ==> Clean(page, Look(page, p))
  {
    hide Ambiguous, Candidates;
  }

  lemma {:induction false} WaitForSound(page: Page, goal: Goal, p: Progress, pauses: nat)
    requires NoAdjacentRepeats(p.snapshots) && QuietClicks(page, p) && Clean(page, p) && pauses <= 60
    ensures var r := WaitFor(page, goal, p, pauses);
            && Sound(page, r) && r.progress.clicks == p.clicks
            && (r.last.Some? ==> Reached(page, goal, r.last.value))
            && r.progress.looks + pauses <= p.looks + 60
    decreases TIMEOUT_MS - PAUSE_MS * pauses
  {
    hide Ambiguous, Candidates, Reached, Look;
    LookKeeps(page, p);
    if PAUSE_MS * pauses + page.drift(p.looks) < TIMEOUT_MS {
      var s := page.snapshot(p.looks);
      if !Ambiguous(page, s) && !Reached(page, goal, s) {
        WaitForSound(page, goal, Look(page, p), pauses + 1);
      }
    }
  }

  lemma {:induction false} LabelsTrimmed(names: seq<string>)
    ensures forall x :: x in Labels(names) ==> x != "" && Trim(x) == x
  {
    if names != [] {
      LabelsTrimmed(names[1..]);
      TrimIdempotent(names[0]);
    }
  }

  /** The final actions on show: the names that say something, trimmed, if the pattern of final actions matches. */
  lemma {:induction false} CandidatesMean(names: seq<string>, live: string -> bool)
    ensures forall x ::
              x in Filter(Labels(names), live) <==> x != "" && live(x) && exists n :: n in names && Trim(n) == x
    ensures |Filter(Labels(names), live)| == Count(names, (n: string) => Trim(n) != "" && live(Trim(n)))
  {
    hide Trim;
    if names != [] {
      CandidatesMean(names[1..], live);
      assert names == [names[0]] + names[1..];
      assert Trim(names[0]) != "" ==> Labels(names)[1..] == Labels(names[1..]);
    }
  }

  lemma FilterIn(labels: seq<string>, live: string -> bool)
    ensures forall x :: x in Filter(labels, live) ==> x in labels
  {
  }

  lemma FinalActionTrimmed(page: Page, s: Snapshot)
    requires |Candidates(page, s)| == 1
    ensures FinalAction(page, s) != "" && Trim(FinalAction(page, s)) == FinalAction(page, s)
  {
    LabelsTrimmed(s.names);
    FilterIn(Labels(s.names), page.live);
    assert Candidates(page, s)[0] in Labels(s.names);
  }

  /** A snapshot that passed the test shows Bury alone, or no final action at all. */
  lemma NoFinalAction(page: Page, s: Snapshot)
    requires !Ambiguous(page, s)
    ensures !ShowsBury(page, s) ==> Candidates(page, s) == []
    ensures ShowsBury(page, s) ==> |Candidates(page, s)| == 1 && Lower(Candidates(page, s)[0]) == "bury"
  {
    if |Candidates(page, s)| == 1 {
      FinalActionTrimmed(page, s);
    }
  }

  lemma PressKeeps(page: Page, p: Progress, s: Snapshot)
    requires NoAdjacentRepeats(p.snapshots) && QuietClicks(page, p) && Held(p, s) && Candidates(page, s) == []
    ensures var (p', moved) := PressNext(page, p);
            && p'.snapshots == p.snapshots && p'.looks == p.looks && QuietClicks(page, p')
            && |p.clicks| <= |p'.clicks| <= |p.clicks| + 1
  {
    hide Candidates;
  }

  lemma ToShareSound(page: Page, p: Progress, s: Snapshot, maxClicks: int)
    requires Sound(page, Result(p, Some(s)))
    ensures var r := ToShare(page, p, s, maxClicks);
            && Sound(page, r) && (r.last.Some? ==> ShowsBury(page, r.last.value))
            && r.progress.looks <= p.looks + 60
            && |r.progress.clicks| <= |p.clicks| + 1
            && (|r.progress.clicks| > |p.clicks| ==> |p.clicks| < maxClicks)
  {
    hide Ambiguous, Candidates, ShowsBury, WaitFor;
    assert s in p.snapshots;
    NoFinalAction(page, s);
    if !ShowsBury(page, s) {
      if s.shareStep {
        WaitForSound(page, Bury, p, 0);
        ReachedBury(page, WaitFor(page, Bury, p, 0));
      } else if s.nextVisible && |p.clicks| < maxClicks {
        PressKeeps(page, p, s);
        var (p', moved) := PressNext(page, p);
        if moved {
          WaitForSound(page, Bury, p', 0);
          ReachedBury(page, WaitFor(page, Bury, p', 0));
        }
      }
    }
  }

  lemma ReachedBury(page: Page, r: Result)
    ensures r.last.Some? ==> Reached(page, Bury, r.last.value) == ShowsBury(page, r.last.value)
  {
  }

  lemma FirstLook(page: Page)
    ensures Sound(page, Result(Look(page, Progress(0, [], [])), None))
    ensures !Ambiguous(page, page.snapshot(0)) ==>
              Sound(page, Result(Look(page, Progress(0, [], [])), Some(page.snapshot(0))))
  {
    LookKeeps(page, Progress(0, [], []));
  }

  /**
   * Against any page: Next is pressed at most min(2, maxClicks) times, each time while the last recorded state shows
   * no final action; there are at most 121 looks; and success means that the last recorded state shows Bury as its
   * only final action, that no recorded state was ambiguous, and that no two neighbours are equal.
   */
  lemma ShareReadySound(page: Page, maxClicks: int)
    ensures var r := ShareReady(page, maxClicks);
            && |r.progress.clicks| <= 2 && (r.progress.clicks != [] ==> |r.progress.clicks| <= maxClicks)
            && QuietClicks(page, r.progress) && NoAdjacentRepeats(r.progress.snapshots)
            && r.progress.looks <= 121
            && (r.last.Some? ==>
                  && Clean(page, r.progress) && Held(r.progress, r.last.value)
                  && |Candidates(page, r.last.value)| == 1 && Lower(Candidates(page, r.last.value)[0]) == "bury")
  {
    hide Ambiguous, Candidates, ShowsBury, WaitFor, ToShare;
    var p := Look(page, Progress(0, [], []));
    var s := page.snapshot(0);
    FirstLook(page);
    if !Ambiguous(page, s) {
      NoFinalAction(page, s);
      if !ShowsBury(page, s) {
        ToShareSound(page, p, s, maxClicks);
        PressKeeps(page, p, s);
        var (p', moved) := PressNext(page, p);
        if moved {
          WaitForSound(page, MediaContent, p', 0);
          var media := WaitFor(page, MediaContent, p', 0);
          if media.last.Some? {
            ToShareSound(page, media.progress, media.last.value, maxClicks);
          }
        }
      }
    }
    BuryAlone(page, ShareReady(page, maxClicks));
  }

  lemma BuryAlone(page: Page, r: Result)
    requires r.last.Some? ==> Clean(page, r.progress) && Held(r.progress, r.last.value) && ShowsBury(page, r.last.value)
    ensures r.last.Some? ==>
              |Candidates(page, r.last.value)| == 1 && Lower(Candidates(page, r.last.value)[0]) == "bury"
  {
    if r.last.Some? {
      assert r.last.value in r.progress.snapshots;
      NoFinalAction(page, r.last.value);
    }
  }

  // ---------------------------------------------------------------- the controller as it runs

  // ---------------------------------------------------------------- exactly when it succeeds

  /** Bury is the page's only final action. */
  predicate BuryOnly(page: Page, s: Snapshot) {
    |Candidates(page, s)| == 1 && Lower(Candidates(page, s)[0]) == "bury"
  }

  predicate Wanted(page: Page, goal: Goal, s: Snapshot) {
    match goal
    case MediaContent => s.mediaControls != [] || (s.mediaStep && s.mediaSummary !in {None, Some("")})
    case Bury => BuryOnly(page, s)
  }

  /** The j-th look of a wait that begins with look `from`: in time, and with Bury or nothing as final action. */
  predicate GoodLook(page: Page, from: nat, j: nat) {
    250 * j + page.drift(from + j) < 15_000
    && (BuryOnly(page, page.snapshot(from + j)) || Candidates(page, page.snapshot(from + j)) == [])
  }

  /** Of a wait that begins with look `from` and has `done` looks behind it, the k-th is the first to show the goal. */
  ghost predicate Arrives(page: Page, goal: Goal, from: nat, done: nat, k: nat) {
    && done <= k
    && (forall j: nat :: done <= j <= k ==> GoodLook(page, from, j))
    && (forall j: nat :: done <= j < k ==> !WantedAt(page, goal, from, j))
    && WantedAt(page, goal, from, k)
  }

  predicate WantedAt(page: Page, goal: Goal, from: nat, j: nat) {
    Wanted(page, goal, page.snapshot(from + j))
  }

  lemma WantedIsReached(page: Page, goal: Goal, s: Snapshot)
    ensures !Ambiguous(page, s) <==> BuryOnly(page, s) || Candidates(page, s) == []
    ensures !Ambiguous(page, s) ==> (Reached(page, goal, s) <==> Wanted(page, goal, s))
    ensures !Ambiguous(page, s) ==> (ShowsBury(page, s) <==> BuryOnly(page, s))
  {
    BuryIsShown(page, s);
    MediaIsReady(s);
    hide Ambiguous, BuryOnly, ShowsBury, MediaReady;
  }

  lemma BuryIsShown(page: Page, s: Snapshot)
    ensures !Ambiguous(page, s) <==> BuryOnly(page, s) || Candidates(page, s) == []
    ensures !Ambiguous(page, s) ==> (ShowsBury(page, s) <==> BuryOnly(page, s))
  {
    if |Candidates(page, s)| == 1 {
      FinalActionTrimmed(page, s);
    }
    assert Lower("") != "bury" && Trim("") == "";
    hide Candidates, Lower, Trim;
  }

  lemma MediaIsReady(s: Snapshot)
    ensures MediaReady(s) <==> s.mediaControls != [] || (s.mediaStep && s.mediaSummary !in {None, Some("")})
  {
    if s.mediaSummary.Some? {
      assert s.mediaSummary == Some(s.mediaSummary.value);
    }
  }

  lemma LaterArrival(page: Page, goal: Goal, from: nat, done: nat, k: nat)
    requires GoodLook(page, from, done) && !WantedAt(page, goal, from, done)
    ensures Arrives(page, goal, from, done, k) <==> Arrives(page, goal, from, done + 1, k)
  {
    hide GoodLook, WantedAt;
  }

  /** A wait succeeds iff some look is the first to show the goal, and then with that look. */
  lemma {:induction false} WaitForIff(page: Page, goal: Goal, p: Progress, from: nat, done: nat)
    requires p.looks == from + done
    ensures var r := WaitFor(page, goal, p, done);
            && (r.last.Some? <==> exists k: nat :: Arrives(page, goal, from, done, k))
            && (forall k: nat :: Arrives(page, goal, from, done, k) ==>
                  r.last == Some(page.snapshot(from + k)) && r.progress.looks == from + k + 1)
            && r.progress.clicks == p.clicks
    decreases TIMEOUT_MS - PAUSE_MS * done
  {
    hide BuryOnly, Candidates, Ambiguous, Reached, ShowsBury, Wanted;
    var s := page.snapshot(p.looks);
    WantedIsReached(page, goal, s);
    if 250 * done + page.drift(p.looks) < 15_000 && !Ambiguous(page, s) {
      assert GoodLook(page, from, done);
      if Reached(page, goal, s) {
        assert Arrives(page, goal, from, done, done);
      } else {
        WaitForIff(page, goal, Look(page, p), from, done + 1);
        forall k: nat ensures Arrives(page, goal, from, done, k) <==> Arrives(page, goal, from, done + 1, k) {
          LaterArrival(page, goal, from, done, k);
        }
        assert WaitFor(page, goal, p, done) == WaitFor(page, goal, Look(page, p), done + 1);
        var later := WaitFor(page, goal, Look(page, p), done + 1);
        hide Arrives, GoodLook, WaitFor;
        if later.last.Some? {
          var k: nat :| Arrives(page, goal, from, done + 1, k);
          assert Arrives(page, goal, from, done, k);
        }
      }
    } else {
      assert !GoodLook(page, from, done);
    }
  }

  /** From this Media or Share snapshot, after so many looks and clicks, the share step is reached. */
  ghost predicate Finishes(page: Page, s: Snapshot, looks: nat, clicks: nat, maxClicks: int) {
    || BuryOnly(page, s)
    || ((s.shareStep || (s.nextVisible && clicks < maxClicks && page.next(clicks).Changes?))
        && exists k: nat :: Arrives(page, Bury, looks, 0, k))
  }

  lemma FinishesIff(page: Page, p: Progress, s: Snapshot, maxClicks: int)
    requires !Ambiguous(page, s)
    ensures ToShare(page, p, s, maxClicks).last.Some? <==> Finishes(page, s, p.looks, |p.clicks|, maxClicks)
  {
    hide BuryOnly, Candidates, Ambiguous, ShowsBury, WaitFor, Arrives;
    WantedIsReached(page, Bury, s);
    WaitForIff(page, Bury, p, p.looks, 0);
    WaitForIff(page, Bury, PressNext(page, p).0, p.looks, 0);
  }

  /** The first look is on Compose, pressing Next shows the media in time, and they lead to the share step. */
  ghost predicate AdvancesFromCompose(page: Page, maxClicks: int) {
    var s := page.snapshot(0);
    && s.composeStep && s.nextVisible && maxClicks > 0 && page.next(0).Changes?
    && exists k: nat ::
         Arrives(page, MediaContent, 1, 0, k) && Finishes(page, page.snapshot(1 + k), k + 2, 1, maxClicks)
  }

  /** The controller succeeds iff the page's first look shows Bury alone, or nothing final and it gets there. */
  lemma SucceedsIff(page: Page, maxClicks: int)
    ensures var s := page.snapshot(0);
            ShareReady(page, maxClicks).last.Some? <==>
              && (BuryOnly(page, s) || Candidates(page, s) == [])
              && (|| BuryOnly(page, s)
                  || if s.shareStep || Wanted(page, MediaContent, s) then Finishes(page, s, 1, 0, maxClicks)
                     else AdvancesFromCompose(page, maxClicks))
  {
    var s := page.snapshot(0);
    var p := Look(page, Progress(0, [], []));
    WantedIsReached(page, MediaContent, s);
    if !Ambiguous(page, s) && !ShowsBury(page, s) {
      FinishesIff(page, p, s, maxClicks);
      if !MediaReady(s) && !s.shareStep && s.composeStep && s.nextVisible && maxClicks > 0 {
        ComposeIff(page, p, maxClicks);
      }
    }
    hide Ambiguous, ShowsBury, BuryOnly, Candidates, WaitFor, ToShare, Arrives, Finishes;
  }

  lemma ComposeIff(page: Page, p: Progress, maxClicks: int)
    requires p.looks == 1 && p.clicks == [] && maxClicks > 0
    requires page.snapshot(0).composeStep && page.snapshot(0).nextVisible
    ensures var (p', moved) := PressNext(page, p);
            var media := WaitFor(page, MediaContent, p', 0);
            AdvancesFromCompose(page, maxClicks) <==>
              moved && media.last.Some? && ToShare(page, media.progress, media.last.value, maxClicks).last.Some?
  {
    hide BuryOnly, Candidates, Ambiguous, ShowsBury, WaitFor, ToShare, Arrives, Finishes, Wanted;
    var (p', moved) := PressNext(page, p);
    WaitForIff(page, MediaContent, p', 1, 0);
    if moved {
      forall k: nat | Arrives(page, MediaContent, 1, 0, k)
        ensures var media := WaitFor(page, MediaContent, p', 0);
                && media.last == Some(page.snapshot(1 + k))
                && (ToShare(page, media.progress, media.last.value, maxClicks).last.Some?
                    <==> Finishes(page, page.snapshot(1 + k), k + 2, 1, maxClicks))
      {
        ArrivalIsClean(page, MediaContent, 1, k);
        FinishesIff(page, WaitFor(page, MediaContent, p', 0).progress, page.snapshot(1 + k), maxClicks);
      }
    }
  }

  lemma ArrivalIsClean(page: Page, goal: Goal, from: nat, k: nat)
    requires Arrives(page, goal, from, 0, k)
    ensures !Ambiguous(page, page.snapshot(from + k))
  {
    hide Ambiguous, BuryOnly, Candidates, Wanted;
    assert GoodLook(page, from, k);
    WantedIsReached(page, goal, page.snapshot(from + k));
  }

  /** The arrays and counters that `waitForShareStepReady` and its helpers share. */
  class Advance {
    const page: Page
    var looks: nat
    var snapshots: seq<Snapshot>
    var advanceClicks: nat
    ghost var clicks: seq<seq<Snapshot>>

    ghost function Model(): Progress
      reads this
    {
      Progress(looks, snapshots, clicks)
    }

    ghost predicate Valid()
      reads this
    {
      advanceClicks == |clicks|
    }

    constructor (page: Page)
      ensures Valid() && this.page == page && Model() == Progress(0, [], [])
    {
      this.page := page;
      looks, snapshots, advanceClicks, clicks := 0, [], 0, [];
    }

    method Observe() returns (s: Snapshot)
      requires Valid()
      modifies this`looks, this`snapshots
      ensures Valid() && Model() == Look(page, old(Model())) && s == page.snapshot(old(looks))
    {
      s := page.snapshot(looks);
      snapshots := PushIfChanged(snapshots, s);
      looks := looks + 1;
    }

    method WaitUntil(goal: Goal) returns (found: Option<Snapshot>)
      requires Valid()
      modifies this`looks, this`snapshots
      ensures Valid() && Result(Model(), found) == WaitFor(page, goal, old(Model()), 0)
    {
      hide Ambiguous, Reached, Look, PushIfChanged;
      var pauses := 0;
      while PAUSE_MS * pauses + page.drift(looks) < TIMEOUT_MS
        invariant Valid() && clicks == old(clicks)
        invariant WaitFor(page, goal, Model(), pauses) == WaitFor(page, goal, old(Model()), 0)
        decreases TIMEOUT_MS - PAUSE_MS * pauses
      {
        var s := Observe();
        if Ambiguous(page, s) {
          return None;
        }
        if Reached(page, goal, s) {
          return Some(s);
        }
        pauses := pauses + 1;
      }
      return None;
    }

    method Press() returns (moved: bool)
      requires Valid()
      modifies this`advanceClicks, this`clicks
      ensures Valid() && (Model(), moved) == PressNext(page, old(Model()))
    {
      var answer := page.next(advanceClicks);
      if answer.NotVisible? {
        return false;
      }
      clicks := clicks + [snapshots];
      advanceClicks := advanceClicks + 1;
      return answer.Changes?;
    }

    method GoToShare(s: Snapshot, maxClicks: int) returns (found: Option<Snapshot>)
      requires Valid()
      modifies this
      ensures Valid() && Result(Model(), found) == ToShare(page, old(Model()), s, maxClicks)
    {
      hide WaitFor, ShowsBury;
      if ShowsBury(page, s) {
        return Some(s);
      }
      if !s.shareStep {
        if !s.nextVisible || advanceClicks >= maxClicks {
          return None;
        }
        var moved := Press();
        if !moved {
          return None;
        }
      }
      found := WaitUntil(Bury);
    }

    method Run(maxClicks: int) returns (found: Option<Snapshot>)
      requires Valid() && Model() == Progress(0, [], [])
      modifies this
      ensures Valid() && Result(Model(), found) == ShareReady(page, maxClicks)
      ensures |clicks| <= 2 && (clicks != [] ==> |clicks| <= maxClicks) && NoAdjacentRepeats(snapshots)
      ensures found.Some? ==> |Candidates(page, found.value)| == 1 && Lower(Candidates(page, found.value)[0]) == "bury"
    {
      ShareReadySound(page, maxClicks);
      hide WaitFor, ShowsBury, Ambiguous, ToShare, MediaReady;
      var s := Observe();
      if Ambiguous(page, s) {
        return None;
      }
      if ShowsBury(page, s) {
        return Some(s);
      }
      if !MediaReady(s) && !s.shareStep {
        if !s.composeStep || !s.nextVisible || advanceClicks >= maxClicks {
          return None;
        }
        var moved := Press();
        if !moved {
          return None;
        }
        var media := WaitUntil(MediaContent);
        if media.None? {
          return None;
        }
        s := media.value;
      }
      found := GoToShare(s, maxClicks);
    }
  }
}
