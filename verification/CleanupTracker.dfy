/** The tracker of artifacts a test run has created, and its summary. */
module CleanupTracker {
  import opened Json
  import opened Sequences

  datatype Kind = Capsule | Draft

  datatype Status = CleanupSkipped | Created | DetectedStale | Discarded | Opened | Published

  datatype Artifact = Artifact(
    verified: bool, id: Option<string>, kind: Kind, key: string, status: Status, subject: string, note: string)

  /** A call of one of the `mark*` methods, with its optional arguments. */
  datatype Mark =
    | CapsuleCreated(subject: string, id: Option<string>, key: Option<string>, note: string)
    | SkippedCleanup(subject: string, kind: Kind, key: Option<string>, note: string)
    | DraftDiscarded(subject: string, key: Option<string>, note: string)
    | DraftOpened(subject: string, key: Option<string>, note: string)
    | PublishedCapsule(subject: string, id: Option<string>, key: Option<string>, note: string)
    | StaleArtifact(subject: string, id: Option<string>, staleKind: Option<Kind>, note: string)

  function KeyOr(key: Option<string>, runKey: string): string {
    if key.Some? then key.value else runKey
  }

  /** The artifact a mark stores; a stale artifact always goes under the run's own key. */
  function ArtifactOf(mark: Mark, runKey: string): Artifact {
    match mark
    case CapsuleCreated(s, id, key, note) => Artifact(false, id, Capsule, KeyOr(key, runKey), Created, s, note)
    case SkippedCleanup(s, kind, key, note) => Artifact(false, None, kind, KeyOr(key, runKey), CleanupSkipped, s, note)
    case DraftDiscarded(s, key, note) => Artifact(true, None, Draft, KeyOr(key, runKey), Discarded, s, note)
    case DraftOpened(s, key, note) => Artifact(false, None, Draft, KeyOr(key, runKey), Opened, s, note)
    case PublishedCapsule(s, id, key, note) => Artifact(false, id, Capsule, KeyOr(key, runKey), Published, s, note)
    case StaleArtifact(s, id, kind, note) =>
      Artifact(false, id, if kind.Some? then kind.value else Capsule, runKey, DetectedStale, s, note)
  }

  type Slot = (Kind, string)

  function SlotOf(a: Artifact): Slot {
    (a.kind, a.key)
  }

  /** `findIndex`, or the length when nothing matches. */
  function FindSlot(list: seq<Artifact>, slot: Slot): (i: nat)
    ensures i <= |list| && (i < |list| ==> SlotOf(list[i]) == slot)
    ensures forall j :: 0 <= j < i ==> SlotOf(list[j]) != slot
  {
    if list == [] || SlotOf(list[0]) == slot then 0 else 1 + FindSlot(list[1..], slot)
  }

  function Upsert(list: seq<Artifact>, a: Artifact): seq<Artifact> {
    var i := FindSlot(list, SlotOf(a));
    if i < |list| then list[i := a] else list + [a]
  }

  function Replay(stored: seq<Artifact>): seq<Artifact> {
    if stored == [] then [] else Upsert(Replay(stored[..|stored| - 1]), stored[|stored| - 1])
  }

  // ---------------------------------------------------------------- last write wins, first insertion orders

  /** The slots in the order of their first occurrence. */
  function FirstSlots(stored: seq<Artifact>): seq<Slot> {
    FirstSeen(seq(|stored|, i requires 0 <= i < |stored| => SlotOf(stored[i])))
  }

  /** The artifact stored last in a slot. */
  function LastIn(stored: seq<Artifact>, slot: Slot): Option<Artifact> {
    if stored == [] then None
    else if SlotOf(stored[|stored| - 1]) == slot then Some(stored[|stored| - 1])
    else LastIn(stored[..|stored| - 1], slot)
  }

  ghost predicate LastWriteWins(list: seq<Artifact>, stored: seq<Artifact>) {
    && |list| == |FirstSlots(stored)|
    && (forall i :: 0 <= i < |list| ==>
        SlotOf(list[i]) == FirstSlots(stored)[i] && LastIn(stored, SlotOf(list[i])) == Some(list[i]))
    && (forall i, j :: 0 <= i < j < |list| ==> SlotOf(list[i]) != SlotOf(list[j]))
  }

  /** After any sequence of stores the list is the last-write-wins map, in first-insertion order. */
  lemma {:induction false} ReplayIsLastWriteWins(stored: seq<Artifact>)
    ensures LastWriteWins(Replay(stored), stored)
  {
    if stored != [] {
      var before, a := stored[..|stored| - 1], stored[|stored| - 1];
      var list := Replay(before);
      ReplayIsLastWriteWins(before);
      var slots := seq(|stored|, i requires 0 <= i < |stored| => SlotOf(stored[i]));
      assert slots[..|stored| - 1] == seq(|before|, i requires 0 <= i < |before| => SlotOf(before[i]));
      var i := FindSlot(list, SlotOf(a));
      if i < |list| {
        assert FirstSlots(before)[i] == SlotOf(a);
      } else {
        forall slot | slot in FirstSlots(before) ensures slot != SlotOf(a) {
          var j :| 0 <= j < |list| && FirstSlots(before)[j] == slot;
          assert SlotOf(list[j]) == slot;
        }
      }
    }
  }

  // ---------------------------------------------------------------- the tracker

  class Tracker {
    const runKey: string
    var artifacts: seq<Artifact>
    ghost var stored: seq<Artifact>

    ghost predicate Valid()
      reads this
    {
      artifacts == Replay(stored)
    }

    constructor (runKey: string)
      ensures Valid() && this.runKey == runKey && stored == []
    {
      this.runKey, artifacts, stored := runKey, [], [];
    }

    method UpsertArtifact(a: Artifact)
      requires Valid()
      modifies this
      ensures Valid() && stored == old(stored) + [a]
    {
      ghost var more := stored + [a];
      assert more[..|more| - 1] == stored;
      var i := 0;
      while i < |artifacts| && SlotOf(artifacts[i]) != SlotOf(a)
        invariant 0 <= i <= |artifacts|
        invariant forall j :: 0 <= j < i ==> SlotOf(artifacts[j]) != SlotOf(a)
      {
        i := i + 1;
      }
      assert i == FindSlot(artifacts, SlotOf(a));
      if i < |artifacts| {
        artifacts := artifacts[i := a];
      } else {
        artifacts := artifacts + [a];
      }
      stored := more;
    }

    method Apply(mark: Mark)
      requires Valid()
      modifies this
      ensures Valid() && stored == old(stored) + [ArtifactOf(mark, runKey)]
    {
      UpsertArtifact(ArtifactOf(mark, runKey));
    }
  }

  // ---------------------------------------------------------------- the summary

  datatype Report = Report(discardedDrafts: nat, deletedCapsules: nat, stale: nat, pending: nat)

  function Summarize(list: seq<Artifact>): Report {
    Report(
      Count(list, (a: Artifact) => a.kind.Draft? && a.status.Discarded?),
      Count(list, (a: Artifact) => a.kind.Capsule? && a.verified),
      Count(list, (a: Artifact) => a.status.DetectedStale?),
      Count(list, (a: Artifact) => (a.kind.Capsule? && !a.verified)
          || (a.kind.Draft? && a.status.Opened? && !a.verified)))
  }

  /** Only a discarded draft is verified, and a discarded artifact is a draft. */
  predicate HonestArtifact(a: Artifact) {
    (a.verified <==> a.kind.Draft? && a.status.Discarded?) && (a.status.Discarded? ==> a.kind.Draft?)
  }

  function StoredBy(marks: seq<Mark>, runKey: string): seq<Artifact> {
    seq(|marks|, i requires 0 <= i < |marks| => ArtifactOf(marks[i], runKey))
  }

  lemma {:induction false} LastIsStored(stored: seq<Artifact>, slot: Slot)
    ensures LastIn(stored, slot).Some? ==> LastIn(stored, slot).value in stored
  {
    if stored != [] {
      LastIsStored(stored[..|stored| - 1], slot);
    }
  }

  /** The status a mark stands for. */
  predicate Says(mark: Mark, status: Status) {
    match status
    case Created => mark.CapsuleCreated?
    case CleanupSkipped => mark.SkippedCleanup?
    case Discarded => mark.DraftDiscarded?
    case Opened => mark.DraftOpened?
    case Published => mark.PublishedCapsule?
    case DetectedStale => mark.StaleArtifact?
  }

  /**
   * The kind and the key a mark is about; a stale artifact is under the run's own key, a capsule unless said
   * otherwise.
   */
  predicate IsAbout(mark: Mark, runKey: string, kind: Kind, key: string) {
    match mark
    case CapsuleCreated(_, _, k, _) => kind == Capsule && k in {None, Some(key)} && (k == None ==> key == runKey)
    case PublishedCapsule(_, _, k, _) => kind == Capsule && k in {None, Some(key)} && (k == None ==> key == runKey)
    case DraftDiscarded(_, k, _) => kind == Draft && k in {None, Some(key)} && (k == None ==> key == runKey)
    case DraftOpened(_, k, _) => kind == Draft && k in {None, Some(key)} && (k == None ==> key == runKey)
    case SkippedCleanup(_, m, k, _) => kind == m && k in {None, Some(key)} && (k == None ==> key == runKey)
    case StaleArtifact(_, _, m, _) => key == runKey && (m == Some(kind) || (m == None && kind == Capsule))
  }

  lemma MarkStores(mark: Mark, runKey: string)
    ensures var a := ArtifactOf(mark, runKey);
            && a.subject == mark.subject && a.note == mark.note
            && (forall status :: a.status == status <==> Says(mark, status))
            && (forall kind, key :: IsAbout(mark, runKey, kind, key) <==> a.kind == kind && a.key == key)
            && (a.verified <==> mark.DraftDiscarded?)
  {
  }

  lemma {:induction false} LastPlace(stored: seq<Artifact>, slot: Slot) returns (k: nat)
    requires LastIn(stored, slot).Some?
    ensures k < |stored| && LastIn(stored, slot) == Some(stored[k]) && SlotOf(stored[k]) == slot
    ensures forall j :: k < j < |stored| ==> SlotOf(stored[j]) != slot
  {
    k := |stored| - 1;
    if SlotOf(stored[k]) != slot {
      k := LastPlace(stored[..k], slot);
    }
  }

  /** The artifact at this place shows what the last mark about its kind and key says. */
  lemma LastMarkDecides(marks: seq<Mark>, runKey: string, i: nat) returns (k: nat)
    requires i < |Replay(StoredBy(marks, runKey))|
    ensures k < |marks|
    ensures var a := Replay(StoredBy(marks, runKey))[i];
            && IsAbout(marks[k], runKey, a.kind, a.key) && Says(marks[k], a.status) && a.subject == marks[k].subject
            && forall j :: k < j < |marks| ==> !IsAbout(marks[j], runKey, a.kind, a.key)
  {
    hide IsAbout, Says, ArtifactOf;
    var stored := StoredBy(marks, runKey);
    ReplayIsLastWriteWins(stored);
    var a := Replay(stored)[i];
    hide Replay, LastWriteWins;
    k := LastPlace(stored, SlotOf(a));
    MarkStores(marks[k], runKey);
    forall j | k < j < |marks| ensures !IsAbout(marks[j], runKey, a.kind, a.key) {
      assert SlotOf(stored[j]) != SlotOf(a);
      MarkStores(marks[j], runKey);
    }
  }

  /** What the summary counts. */
  lemma SummaryCounts(list: seq<Artifact>)
    ensures Summarize(list).discardedDrafts == Count(list, (a: Artifact) => a.kind == Draft && a.status == Discarded)
    ensures Summarize(list).stale == Count(list, (a: Artifact) => a.status == DetectedStale)
    ensures Summarize(list).deletedCapsules == Count(list, (a: Artifact) => a.kind == Capsule && a.verified)
  {
    CountSame(list, (a: Artifact) => a.kind.Draft? && a.status.Discarded?,
              (a: Artifact) => a.kind == Draft && a.status == Discarded);
    CountSame(list, (a: Artifact) => a.status.DetectedStale?, (a: Artifact) => a.status == DetectedStale);
    CountSame(list, (a: Artifact) => a.kind.Capsule? && a.verified, (a: Artifact) => a.kind == Capsule && a.verified);
  }

  lemma ReplayIsStored(stored: seq<Artifact>)
    ensures forall a :: a in Replay(stored) ==> a in stored
  {
    ReplayIsLastWriteWins(stored);
    forall a | a in Replay(stored) ensures a in stored {
      var i :| 0 <= i < |Replay(stored)| && Replay(stored)[i] == a;
      LastIsStored(stored, SlotOf(a));
    }
  }

  /**
   * After any sequence of marks: an artifact is verified iff it is a discarded draft, so no capsule ever counts as
   * deleted, and what is pending is every capsule slot and every draft slot last marked opened.
   */
  lemma SummaryAfterMarks(marks: seq<Mark>, runKey: string)
    ensures var list := Replay(StoredBy(marks, runKey));
            && (forall a :: a in list ==> HonestArtifact(a))
            && Summarize(list).deletedCapsules == 0
            && Summarize(list).pending == Count(list, (a: Artifact) => a.kind.Capsule?)
                + Count(list, (a: Artifact) => a.kind.Draft? && a.status.Opened?)
  {
    var stored := StoredBy(marks, runKey);
    var list := Replay(stored);
    ReplayIsStored(stored);
    forall a | a in list ensures HonestArtifact(a) {
      var k :| 0 <= k < |stored| && stored[k] == a;
      assert a == ArtifactOf(marks[k], runKey);
    }
    hide Replay, StoredBy;
    CountNone(list, (a: Artifact) => a.kind.Capsule? && a.verified);
    CountSplit(list, (a: Artifact) => a.kind.Capsule?, (a: Artifact) => a.kind.Draft? && a.status.Opened?,
               (a: Artifact) => (a.kind.Capsule? && !a.verified) || (a.kind.Draft? && a.status.Opened? && !a.verified));
  }
}
