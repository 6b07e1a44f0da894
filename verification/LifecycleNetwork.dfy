/** The lifecycle network log: what is recorded for an event, and the summary of a log. */
module LifecycleNetwork {
  import opened Sequences

  datatype Event = Request | RequestFailed | Response

  datatype Phase = BuryClick | PostCreate | PreCreate | RevealContinue

  datatype Ids = Ids(capsules: seq<string>, documents: seq<string>, tokens: seq<string>)

  /** What one event carries; a status of a request or of a failure is absent. */
  datatype Observation = Observation(
    event: Event, verb: string, phase: Phase, url: string, status: int, hasStatus: bool, paths: seq<string>,
    ids: Ids, debug: bool)

  /** The URL and method tests the summary makes, kept as predicates on the text. */
  datatype Tests = Tests(
    finalizeLike: string -> bool, firestore: string -> bool, lifecycleApi: string -> bool, storage: string -> bool,
    write: string -> bool)

  // ---------------------------------------------------------------- recording

  function BeforeQuery(url: string): (path: string)
    ensures '?' !in path && path <= url && (path == url || url[|path|] == '?')
  {
    if url == [] || url[0] == '?' then [] else [url[0]] + BeforeQuery(url[1..])
  }

  predicate SeparatelyAccounted(endpoints: set<string>, o: Observation) {
    BeforeQuery(o.url) in endpoints
  }

  function Stored(endpoints: set<string>, o: Observation): Observation {
    if SeparatelyAccounted(endpoints, o) then o.(ids := Ids([], [], []), debug := false) else o
  }

  function Log(endpoints: set<string>, events: seq<Observation>): (log: seq<Observation>)
    ensures |log| == |events|
  {
    seq(|events|, i requires 0 <= i < |events| => Stored(endpoints, events[i]))
  }

  function Documents(log: seq<Observation>): seq<string> {
    Flat(log, (o: Observation) => o.ids.documents)
  }

  class Monitor {
    const endpoints: set<string>
    var observations: seq<Observation>
    /** The document ids handed to the callback, in order. */
    var announced: seq<string>
    ghost var events: seq<Observation>

    ghost predicate Valid()
      reads this
    {
      observations == Log(endpoints, events) && announced == Documents(observations)
    }

    constructor (endpoints: set<string>)
      ensures Valid() && this.endpoints == endpoints && events == []
    {
      this.endpoints, observations, announced, events := endpoints, [], [], [];
    }

    method RecordObservation(observation: Observation)
      requires Valid()
      modifies this
      ensures Valid() && events == old(events) + [observation]
    {
      var o := observation;
      if SeparatelyAccounted(endpoints, o) {
        o := o.(ids := Ids([], [], []));
        o := o.(debug := false);
      }
      ghost var was := observations;
      observations := observations + [o];
      for i := 0 to |o.ids.documents|
        invariant announced == old(announced) + o.ids.documents[..i]
        invariant observations == was + [o] && events == old(events)
      {
        announced := announced + [o.ids.documents[i]];
      }
      FlatConcat(was, [o], (x: Observation) => x.ids.documents);
      assert o.ids.documents[..|o.ids.documents|] == o.ids.documents;
      assert Flat([o], (x: Observation) => x.ids.documents) == o.ids.documents;
      events := events + [observation];
    }
  }

  // ---------------------------------------------------------------- flatMap and uniqueStrings

  function Flat<T>(list: seq<T>, f: T -> seq<string>): seq<string> {
    if list == [] then [] else f(list[0]) + Flat(list[1..], f)
  }

  lemma {:induction false} FlatConcat<T>(a: seq<T>, b: seq<T>, f: T -> seq<string>)
    ensures Flat(a + b, f) == Flat(a, f) + Flat(b, f)
  {
    if a == [] {
      assert a + b == b;
    } else {
      assert (a + b)[1..] == a[1..] + b;
      FlatConcat(a[1..], b, f);
    }
  }

  lemma {:induction false} FlatMembers<T>(list: seq<T>, f: T -> seq<string>, x: string)
    ensures x in Flat(list, f) <==> exists i :: 0 <= i < |list| && x in f(list[i])
  {
    if list != [] {
      FlatMembers(list[1..], f, x);
      if i :| 0 <= i < |list| && x in f(list[i]) {
        if i > 0 {
          assert list[1..][i - 1] == list[i];
        }
      }
      if i :| 0 <= i < |list| - 1 && x in f(list[1..][i]) {
        assert list[i + 1] == list[1..][i];
      }
    }
  }

  // ---------------------------------------------------------------- the order of `sort()` without a comparator

  /** The UTF-16 code units of a character: one, or a surrogate pair. */
  function UnitsOf(c: char): seq<nat> {
    var n := c as nat;
    if n < 0x1_0000 then [n] else [0xd800 + (n - 0x1_0000) / 0x400, 0xdc00 + (n - 0x1_0000) % 0x400]
  }

  function Units(s: string): seq<nat> {
    if s == "" then [] else UnitsOf(s[0]) + Units(s[1..])
  }

  predicate UnitsLeq(a: seq<nat>, b: seq<nat>) {
    a == [] || (b != [] && (a[0] < b[0] || (a[0] == b[0] && UnitsLeq(a[1..], b[1..]))))
  }

  /** Code unit by code unit, so that a surrogate pair comes before U+E000. */
  predicate LexLeq(a: string, b: string) {
    UnitsLeq(Units(a), Units(b))
  }

  lemma {:induction false} UnitsOrder(a: seq<nat>, b: seq<nat>, c: seq<nat>)
    ensures UnitsLeq(a, b) || UnitsLeq(b, a)
    ensures UnitsLeq(a, b) && UnitsLeq(b, a) ==> a == b
    ensures UnitsLeq(a, b) && UnitsLeq(b, c) ==> UnitsLeq(a, c)
  {
    if a != [] && b != [] {
      UnitsOrder(a[1..], b[1..], if c == [] then [] else c[1..]);
      assert a == [a[0]] + a[1..] && b == [b[0]] + b[1..];
    }
  }

  lemma PairsDiffer(m: nat, n: nat)
    requires m / 0x400 == n / 0x400 && m % 0x400 == n % 0x400
    ensures m == n
  {
  }

  /** The first units tell the first characters apart, since no character is a surrogate. */
  lemma UnitsOfFirst(c: char, d: char, x: seq<nat>, y: seq<nat>)
    requires UnitsOf(c) + x == UnitsOf(d) + y
    ensures c == d && x == y
  {
    var p, q := UnitsOf(c), UnitsOf(d);
    assert p[0] == (p + x)[0] == (q + y)[0] == q[0];
    assert |p| == |q|;
    assert forall k :: 0 <= k < |p| ==> p[k] == (p + x)[k] && q[k] == (q + y)[k];
    if |p| == 2 {
      var m, n := c as nat - 0x1_0000, d as nat - 0x1_0000;
      assert p[0] == 0xd800 + m / 0x400 && q[0] == 0xd800 + n / 0x400;
      assert p[1] == 0xdc00 + m % 0x400 && q[1] == 0xdc00 + n % 0x400;
      PairsDiffer(m, n);
    }
    assert x == (p + x)[|p|..] && y == (q + y)[|q|..];
  }

  lemma {:induction false} UnitsInjective(a: string, b: string)
    requires Units(a) == Units(b)
    ensures a == b
  {
    if a != "" && b != "" {
      UnitsOfFirst(a[0], b[0], Units(a[1..]), Units(b[1..]));
      UnitsInjective(a[1..], b[1..]);
      assert a == [a[0]] + a[1..] && b == [b[0]] + b[1..];
    }
  }

  lemma LexOrder(a: string, b: string, c: string)
    ensures LexLeq(a, b) || LexLeq(b, a)
    ensures LexLeq(a, b) && LexLeq(b, a) ==> a == b
    ensures LexLeq(a, b) && LexLeq(b, c) ==> LexLeq(a, c)
  {
    UnitsOrder(Units(a), Units(b), Units(c));
    if Units(a) == Units(b) {
      UnitsInjective(a, b);
    }
  }

  lemma LexIsPreorder()
    ensures TotalPreorder(LexLeq)
  {
    forall a, b ensures LexLeq(a, b) || LexLeq(b, a) {
      LexOrder(a, b, []);
    }
    forall a, b, c ensures LexLeq(a, b) && LexLeq(b, c) ==> LexLeq(a, c) {
      LexOrder(a, b, c);
    }
  }

  function UniqueStrings(values: seq<string>): seq<string> {
    Sort(FirstSeen(Keep(values, (value: string) => |value| > 0)), LexLeq)
  }

  ghost predicate Ascending(list: seq<string>) {
    forall i, j :: 0 <= i < j < |list| ==> list[i] != list[j] && LexLeq(list[i], list[j])
  }

  /** The list of a set of strings: ascending, with no repetition and no empty string. */
  ghost predicate ListsSet(list: seq<string>, values: seq<string>) {
    && (forall x :: x in list <==> x in values && x != "")
    && Ascending(list)
  }

  lemma SortDistinct(list: seq<string>)
    requires forall i, j :: 0 <= i < j < |list| ==> list[i] != list[j]
    ensures forall i, j :: 0 <= i < j < |Sort(list, LexLeq)| ==> Sort(list, LexLeq)[i] != Sort(list, LexLeq)[j]
  {
    LexIsPreorder();
    SortSorts(list, LexLeq);
    var sorted := Sort(list, LexLeq);
    forall i, j | 0 <= i < j < |sorted| ensures sorted[i] != sorted[j] {
      if sorted[i] == sorted[j] {
        DistinctOnce(list, sorted[i]);
        RepeatedTwice(sorted, i, j);
      }
    }
  }

  lemma {:induction false} DistinctOnce(list: seq<string>, x: string)
    requires forall i, j :: 0 <= i < j < |list| ==> list[i] != list[j]
    ensures multiset(list)[x] <= 1
  {
    if list != [] {
      assert list == [list[0]] + list[1..];
      DistinctOnce(list[1..], x);
    }
  }

  lemma RepeatedTwice(list: seq<string>, i: nat, j: nat)
    requires i < j < |list| && list[i] == list[j]
    ensures multiset(list)[list[i]] >= 2
  {
    assert list == list[..j] + [list[j]] + list[j + 1..];
    assert list[..j][i] == list[i];
    assert list[i] in multiset(list[..j]);
  }

  lemma UniqueListsSet(values: seq<string>)
    ensures ListsSet(UniqueStrings(values), values)
  {
    var kept := Keep(values, (value: string) => |value| > 0);
    KeepMembers(values, (value: string) => |value| > 0);
    LexIsPreorder();
    SortSorts(FirstSeen(kept), LexLeq);
    SortDistinct(FirstSeen(kept));
  }

  /** A set has only one such list. */
  lemma {:induction false} ListIsUnique(a: seq<string>, b: seq<string>, values: seq<string>, more: seq<string>)
    requires ListsSet(a, values) && ListsSet(b, more)
    requires forall x :: x != "" ==> (x in values <==> x in more)
    ensures a == b
  {
    assert forall x :: x in a <==> x in b;
    SameAscending(a, b);
  }

  lemma {:induction false} SameAscending(a: seq<string>, b: seq<string>)
    requires Ascending(a) && Ascending(b)
    requires forall x :: x in a <==> x in b
    ensures a == b
  {
    assert b != [] ==> b[0] in b;
    if a != [] {
      assert a[0] in b;
      assert b[0] in a;
      LexOrder(a[0], b[0], []);
      assert a[0] == b[0];
      assert forall x :: x in a <==> x == a[0] || x in a[1..];
      assert forall x :: x in b <==> x == b[0] || x in b[1..];
      SameAscending(a[1..], b[1..]);
      assert a == [a[0]] + a[1..] && b == [b[0]] + b[1..];
    }
  }

  /** The list of a concatenation is the list of the lists: a sorted union. */
  lemma UniqueOfConcat(a: seq<string>, b: seq<string>)
    ensures UniqueStrings(a + b) == UniqueStrings(UniqueStrings(a) + UniqueStrings(b))
  {
    UniqueListsSet(a);
    UniqueListsSet(b);
    UniqueListsSet(a + b);
    UniqueListsSet(UniqueStrings(a) + UniqueStrings(b));
    var both := UniqueStrings(a) + UniqueStrings(b);
    ListIsUnique(UniqueStrings(a + b), UniqueStrings(both), a + b, both);
  }

  // ---------------------------------------------------------------- the summary

  datatype Counts = Counts(
    requests: nat, responses: nat, failed: nat, finalizeLike: nat, firestoreWrites: nat, lifecycleApi: nat,
    postBury: nat, postContinueApi: nat, postContinue: nat, storage: nat, postContinueWrites: nat)

  datatype Summary = Summary(counts: Counts, paths: seq<string>, ids: Ids)

  predicate AfterContinue(phase: Phase) {
    phase.RevealContinue? || phase.PostCreate?
  }

  predicate Below400(o: Observation) {
    (if o.hasStatus then o.status else 0) < 400
  }

  function CountsOf(log: seq<Observation>, t: Tests): Counts {
    var requests := Keep(log, (o: Observation) => o.event.Request?);
    var responses := Keep(log, (o: Observation) => o.event.Response?);
    Counts(
      |requests|,
      |responses|,
      Count(log, (o: Observation) => o.event.RequestFailed?),
      Count(log, (o: Observation) => t.finalizeLike(o.url)),
      Count(responses, (o: Observation) => t.firestore(o.url) && t.write(o.verb) && Below400(o)),
      Count(responses, (o: Observation) => t.lifecycleApi(o.url) && Below400(o)),
      Count(requests, (o: Observation) => o.phase.BuryClick?),
      Count(responses, (o: Observation) => AfterContinue(o.phase) && t.lifecycleApi(o.url) && Below400(o)),
      Count(requests, (o: Observation) => AfterContinue(o.phase)),
      Count(log, (o: Observation) => t.storage(o.url)),
      Count(responses, (o: Observation) => AfterContinue(o.phase) && t.write(o.verb) && o.hasStatus && o.status < 400))
  }

  function Summarize(log: seq<Observation>, t: Tests): Summary {
    Summary(
      CountsOf(log, t),
      UniqueStrings(Flat(log, (o: Observation) => o.paths)),
      Ids(UniqueStrings(Flat(log, (o: Observation) => o.ids.capsules)),
          UniqueStrings(Documents(log)),
          UniqueStrings(Flat(log, (o: Observation) => o.ids.tokens))))
  }

  function Plus(a: Counts, b: Counts): Counts {
    Counts(a.requests + b.requests, a.responses + b.responses, a.failed + b.failed, a.finalizeLike + b.finalizeLike,
           a.firestoreWrites + b.firestoreWrites, a.lifecycleApi + b.lifecycleApi, a.postBury + b.postBury,
           a.postContinueApi + b.postContinueApi, a.postContinue + b.postContinue, a.storage + b.storage,
           a.postContinueWrites + b.postContinueWrites)
  }

  function Union(a: seq<string>, b: seq<string>): seq<string> {
    UniqueStrings(a + b)
  }

  lemma {:induction false} KeepConcat<T>(a: seq<T>, b: seq<T>, test: T -> bool)
    ensures Keep(a + b, test) == Keep(a, test) + Keep(b, test)
  {
    if a == [] {
      assert a + b == b;
    } else {
      assert (a + b)[1..] == a[1..] + b;
      KeepConcat(a[1..], b, test);
    }
  }

  lemma CountsAdd(a: seq<Observation>, b: seq<Observation>, t: Tests)
    ensures CountsOf(a + b, t) == Plus(CountsOf(a, t), CountsOf(b, t))
  {
    var isRequest, isResponse := (o: Observation) => o.event.Request?, (o: Observation) => o.event.Response?;
    KeepConcat(a, b, isRequest);
    KeepConcat(a, b, isResponse);
    hide Count, Keep, AfterContinue, Below400;
    forall test ensures Count(a + b, test) == Count(a, test) + Count(b, test) {
      CountConcat(a, b, test);
    }
    forall test
      ensures Count(Keep(a, isRequest) + Keep(b, isRequest), test)
           == Count(Keep(a, isRequest), test) + Count(Keep(b, isRequest), test)
    {
      CountConcat(Keep(a, isRequest), Keep(b, isRequest), test);
    }
    forall test
      ensures Count(Keep(a, isResponse) + Keep(b, isResponse), test)
           == Count(Keep(a, isResponse), test) + Count(Keep(b, isResponse), test)
    {
      CountConcat(Keep(a, isResponse), Keep(b, isResponse), test);
    }
  }

  lemma UnionOfFlat(a: seq<Observation>, b: seq<Observation>, f: Observation -> seq<string>)
    ensures UniqueStrings(Flat(a + b, f)) == Union(UniqueStrings(Flat(a, f)), UniqueStrings(Flat(b, f)))
  {
    FlatConcat(a, b, f);
    UniqueOfConcat(Flat(a, f), Flat(b, f));
  }

  /** Summaries compose: two logs in a row give the sum of the counts and the sorted union of each list. */
  lemma SummaryOfConcat(a: seq<Observation>, b: seq<Observation>, t: Tests)
    ensures Summarize(a + b, t).counts == Plus(Summarize(a, t).counts, Summarize(b, t).counts)
    ensures Summarize(a + b, t).paths == Union(Summarize(a, t).paths, Summarize(b, t).paths)
    ensures Summarize(a + b, t).ids.capsules == Union(Summarize(a, t).ids.capsules, Summarize(b, t).ids.capsules)
    ensures Summarize(a + b, t).ids.documents == Union(Summarize(a, t).ids.documents, Summarize(b, t).ids.documents)
    ensures Summarize(a + b, t).ids.tokens == Union(Summarize(a, t).ids.tokens, Summarize(b, t).ids.tokens)
  {
    CountsAdd(a, b, t);
    UnionOfFlat(a, b, (o: Observation) => o.paths);
    UnionOfFlat(a, b, (o: Observation) => o.ids.capsules);
    UnionOfFlat(a, b, (o: Observation) => o.ids.documents);
    UnionOfFlat(a, b, (o: Observation) => o.ids.tokens);
  }

  function One(b: bool): nat {
    if b then 1 else 0
  }

  /** Which event counts where; with `SummaryOfConcat` this decides the counts of every log. */
  lemma CountsOfOne(o: Observation, t: Tests)
    ensures var c := CountsOf([o], t);
            var after := o.phase == RevealContinue || o.phase == PostCreate;
            var good := !o.hasStatus || o.status < 400;
            && c.requests == One(o.event == Request) && c.responses == One(o.event == Response)
            && c.failed == One(o.event == RequestFailed)
            && c.finalizeLike == One(t.finalizeLike(o.url)) && c.storage == One(t.storage(o.url))
            && c.firestoreWrites == One(o.event == Response && t.firestore(o.url) && t.write(o.verb) && good)
            && c.lifecycleApi == One(o.event == Response && t.lifecycleApi(o.url) && good)
            && c.postBury == One(o.event == Request && o.phase == BuryClick)
            && c.postContinue == One(o.event == Request && after)
            && c.postContinueApi == One(o.event == Response && after && t.lifecycleApi(o.url) && good)
            && c.postContinueWrites
               == One(o.event == Response && after && t.write(o.verb) && o.hasStatus && o.status < 400)
    ensures CountsOf([], t) == Counts(0, 0, 0, 0, 0, 0, 0, 0, 0, 0, 0)
  {
    var isRequest, isResponse := (x: Observation) => x.event.Request?, (x: Observation) => x.event.Response?;
    forall test ensures KeptOnce(o, isRequest, test) {
      KeptOne(o, isRequest, test);
    }
    forall test ensures KeptOnce(o, isResponse, test) {
      KeptOne(o, isResponse, test);
    }
    NothingCounts(t);
    hide Count, Keep;
  }

  lemma NothingCounts(t: Tests)
    ensures CountsOf([], t) == Counts(0, 0, 0, 0, 0, 0, 0, 0, 0, 0, 0)
  {
  }

  ghost predicate KeptOnce(o: Observation, kind: Observation -> bool, test: Observation -> bool) {
    Count(Keep([o], kind), test) == One(kind(o) && test(o)) && |Keep([o], kind)| == One(kind(o))
    && Count([o], test) == One(test(o))
  }

  lemma KeptOne(o: Observation, kind: Observation -> bool, test: Observation -> bool)
    ensures KeptOnce(o, kind, test)
  {
  }

  lemma {:induction false} EventsPartition(log: seq<Observation>, t: Tests)
    ensures CountsOf(log, t).requests + CountsOf(log, t).responses + CountsOf(log, t).failed == |log|
  {
    if log != [] {
      EventsPartition(log[1..], t);
    }
  }

  // ---------------------------------------------------------------- separately accounted endpoints

  /** The ids of the events of other endpoints only. */
  ghost predicate FromOthers(endpoints: set<string>, events: seq<Observation>, f: Ids -> seq<string>, x: string) {
    exists i :: 0 <= i < |events| && !SeparatelyAccounted(endpoints, events[i]) && x in f(events[i].ids)
  }

  lemma RecordedIds(endpoints: set<string>, events: seq<Observation>, f: Ids -> seq<string>,
                    g: Observation -> seq<string>, x: string)
    requires f(Ids([], [], [])) == [] && forall o :: g(o) == f(o.ids)
    ensures x in Flat(Log(endpoints, events), g) <==> FromOthers(endpoints, events, f, x)
    ensures x in UniqueStrings(Flat(Log(endpoints, events), g)) <==> x != "" && FromOthers(endpoints, events, f, x)
  {
    var log := Log(endpoints, events);
    UniqueListsSet(Flat(log, g));
    FlatMembers(log, g, x);
    if FromOthers(endpoints, events, f, x) {
      var i :| 0 <= i < |events| && !SeparatelyAccounted(endpoints, events[i]) && x in f(events[i].ids);
      assert x in f(log[i].ids);
      assert x in g(log[i]);
    }
  }

  /** An id is in the summary iff an event of another endpoint carried it; so too for what the callback receives. */
  lemma SeparateIdsStayOut(endpoints: set<string>, events: seq<Observation>, t: Tests, x: string)
    ensures var ids := Summarize(Log(endpoints, events), t).ids;
            && (x in ids.capsules <==> x != "" && FromOthers(endpoints, events, (ids: Ids) => ids.capsules, x))
            && (x in ids.documents <==> x != "" && FromOthers(endpoints, events, (ids: Ids) => ids.documents, x))
            && (x in ids.tokens <==> x != "" && FromOthers(endpoints, events, (ids: Ids) => ids.tokens, x))
    ensures x in Documents(Log(endpoints, events)) <==> FromOthers(endpoints, events, (ids: Ids) => ids.documents, x)
  {
    hide FromOthers, Log, UniqueStrings, Flat, CountsOf;
    RecordedIds(endpoints, events, (ids: Ids) => ids.capsules, (o: Observation) => o.ids.capsules, x);
    RecordedIds(endpoints, events, (ids: Ids) => ids.documents, (o: Observation) => o.ids.documents, x);
    RecordedIds(endpoints, events, (ids: Ids) => ids.tokens, (o: Observation) => o.ids.tokens, x);
  }
}
