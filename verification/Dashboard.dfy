/** The results dashboard: the latest result of each test, flaky tests, status counts and feature scores. */
module Dashboard {
  import opened Json
  import opened Sequences

  datatype Status = Fail | Slow | Pass

  datatype Feature = Admin | Api | Discovery | MapView | Ui

  /** A stored result; `stamp` is the place of its timestamp in the order `localeCompare` gives. */
  datatype Result = Result(test: string, feature: Feature, status: Status, stamp: int)

  datatype Row = Row(result: Result, flaky: bool)

  // ---------------------------------------------------------------- the latest result of each test

  function Tests(history: seq<Result>): (names: seq<string>)
    ensures |names| == |history| && forall i :: 0 <= i < |history| ==> names[i] == history[i].test
  {
    seq(|history|, i requires 0 <= i < |history| => history[i].test)
  }

  /** What the map holds for a test after the history: replaced only by a strictly later result. */
  function LatestOf(history: seq<Result>, test: string): (latest: Option<Result>)
    ensures latest.Some? <==> test in Tests(history)
    ensures latest.Some? ==> latest.value.test == test
  {
    if history == [] then None
    else
      var r, before := history[|history| - 1], LatestOf(history[..|history| - 1], test);
      assert Tests(history) == Tests(history[..|history| - 1]) + [r.test];
      if r.test == test && (before.None? || before.value.stamp < r.stamp) then Some(r) else before
  }

  /** The results in the order in which their tests were first seen. */
  function Latest(history: seq<Result>): (rows: seq<Result>)
    ensures |rows| == |FirstSeen(Tests(history))|
    ensures forall i :: 0 <= i < |rows| ==> rows[i].test == FirstSeen(Tests(history))[i]
  {
    var order := FirstSeen(Tests(history));
    seq(|order|, i requires 0 <= i < |order| => LatestOf(history, order[i]).value)
  }

  /** Position i holds the first of the latest results of its test. */
  ghost predicate FirstLatest(history: seq<Result>, i: nat)
    requires i < |history|
  {
    forall j :: 0 <= j < |history| && history[j].test == history[i].test ==>
        if j < i then history[j].stamp < history[i].stamp else history[j].stamp <= history[i].stamp
  }

  /** One more result leaves the first latest in place, or takes it. */
  lemma FirstLatestGrows(history: seq<Result>, i: nat)
    requires i < |history| - 1 && FirstLatest(history[..|history| - 1], i)
    ensures var n := |history| - 1;
            if history[n].test == history[i].test && history[i].stamp < history[n].stamp
            then FirstLatest(history, n) else FirstLatest(history, i)
  {
    var n := |history| - 1;
    var before := history[..n];
    assert forall j :: 0 <= j < n && history[j].test == history[i].test ==>
        before[j] == history[j] && before[j].stamp <= before[i].stamp;
  }

  lemma {:induction false} LatestIsFirstLatest(history: seq<Result>, test: string)
    requires test in Tests(history)
    ensures exists i ::
            0 <= i < |history| && LatestOf(history, test) == Some(history[i]) && history[i].test == test
            && FirstLatest(history, i)
  {
    var n := |history| - 1;
    var before := history[..n];
    if test in Tests(before) {
      LatestIsFirstLatest(before, test);
      var i :| 0 <= i < n && LatestOf(before, test) == Some(before[i]) && before[i].test == test
          && FirstLatest(before, i);
      FirstLatestGrows(history, i);
      hide FirstLatest;
      if history[n].test == test && history[i].stamp < history[n].stamp {
        assert FirstLatest(history, n);
      } else {
        assert FirstLatest(history, i);
      }
    } else {
      assert Tests(history) == Tests(before) + [history[n].test];
      assert forall j :: 0 <= j < n ==> Tests(before)[j] == history[j].test;
      assert FirstLatest(history, n);
    }
  }

  /** One row for each test, holding the first among the latest of its results. */
  lemma RowsAreFirstLatest(history: seq<Result>, k: nat)
    requires k < |Latest(history)|
    ensures exists i :: 0 <= i < |history| && Latest(history)[k] == history[i] && FirstLatest(history, i)
    ensures forall m :: 0 <= m < |Latest(history)| && m != k ==> Latest(history)[m].test != Latest(history)[k].test
  {
    var order := FirstSeen(Tests(history));
    assert order[k] in order;
    LatestIsFirstLatest(history, order[k]);
  }

  method LatestResultsByTest(history: seq<Result>) returns (rows: seq<Result>)
    ensures rows == Latest(history)
  {
    var byTest: map<string, Result>, order: seq<string> := map[], [];
    for n := 0 to |history|
      invariant order == FirstSeen(Tests(history[..n]))
      invariant forall t :: t in byTest <==> t in order
      invariant forall t :: t in byTest ==> LatestOf(history[..n], t) == Some(byTest[t])
    {
      var result := history[n];
      ghost var more := history[..n + 1];
      assert more[..|more| - 1] == history[..n];
      assert Tests(more)[..|more| - 1] == Tests(history[..n]);
      if result.test !in byTest {
        order := order + [result.test];
        byTest := byTest[result.test := result];
      } else if byTest[result.test].stamp < result.stamp {
        byTest := byTest[result.test := result];
      }
    }
    assert history[..|history|] == history;
    rows := seq(|order|, i requires 0 <= i < |order| && forall t :: t in order ==> t in byTest => byTest[order[i]]);
    assert forall i :: 0 <= i < |order| ==> order[i] in byTest;
  }

  // ---------------------------------------------------------------- flaky tests

  ghost predicate Ended(history: seq<Result>, test: string, status: Status) {
    exists i :: 0 <= i < |history| && history[i].test == test && history[i].status == status
  }

  ghost predicate Flaky(history: seq<Result>, test: string) {
    Ended(history, test, Fail) && exists status :: status != Fail && Ended(history, test, status)
  }

  ghost function FlakySet(history: seq<Result>): set<string> {
    set r | r in history && Flaky(history, r.test) :: r.test
  }

  /** A test is flaky iff it has both failed and not failed. */
  method FlakyTests(history: seq<Result>) returns (flaky: set<string>)
    ensures forall test :: test in flaky <==> Flaky(history, test)
  {
    var statuses: map<string, set<Status>> := map[];
    for n := 0 to |history|
      invariant forall t :: t in statuses <==> exists i :: 0 <= i < n && history[i].test == t
      invariant forall t, status :: t in statuses ==> (status in statuses[t] <==> Ended(history[..n], t, status))
    {
      var r := history[n];
      var seen := if r.test in statuses then statuses[r.test] else {};
      ghost var was := statuses;
      assert forall i :: 0 <= i < n ==> history[..n + 1][i] == history[..n][i];
      forall t, status | t in was || t == r.test
        ensures Ended(history[..n + 1], t, status)
            <==> Ended(history[..n], t, status) || (t == r.test && status == r.status)
      {
        if t == r.test && status == r.status {
          assert history[..n + 1][n] == r;
        } else if Ended(history[..n], t, status) {
          var i :| 0 <= i < n && history[..n][i].test == t && history[..n][i].status == status;
          assert history[..n + 1][i].test == t;
        }
      }
      statuses := statuses[r.test := seen + {r.status}];
    }
    assert history[..|history|] == history;
    flaky := set t | t in statuses && Fail in statuses[t] && (Pass in statuses[t] || Slow in statuses[t]);
    forall t ensures t in flaky <==> Flaky(history, t) {
      if Flaky(history, t) {
        var i :| 0 <= i < |history| && history[i].test == t;
        var status: Status :| status != Fail && Ended(history, t, status);
        assert status == Pass || status == Slow;
      }
    }
  }

  // ---------------------------------------------------------------- scores

  function ScoreStatus(status: Status): int {
    match status
    case Pass => 100
    case Slow => 70
    case Fail => 0
  }

  function TotalScore(rows: seq<Row>): int {
    if rows == [] then 0 else ScoreStatus(rows[0].result.status) + TotalScore(rows[1..])
  }

  /** `Math.round(total / n)`: the floor of the quotient plus a half. */
  function RoundedQuotient(total: int, n: nat): (r: int)
    requires n > 0
    ensures 2 * n * r <= 2 * total + n < 2 * n * (r + 1)
  {
    (2 * total + n) / (2 * n)
  }

  function ScoreFeature(rows: seq<Row>): int {
    if rows == [] then 0 else RoundedQuotient(TotalScore(rows), |rows|)
  }

  predicate HasStatus(row: Row, status: Status) {
    row.result.status == status
  }

  function Tally(rows: seq<Row>, status: Status): nat {
    Count(rows, (row: Row) => HasStatus(row, status))
  }

  function SummarizeFeatureStatus(rows: seq<Row>): Option<Status> {
    if rows == [] then None
    else if exists row :: row in rows && row.result.status == Fail then Some(Fail)
    else if exists row :: row in rows && row.result.status == Slow then Some(Slow)
    else Some(Pass)
  }

  lemma {:induction false} TotalByTally(rows: seq<Row>)
    ensures Tally(rows, Pass) + Tally(rows, Slow) + Tally(rows, Fail) == |rows|
    ensures TotalScore(rows) == 100 * |rows| - 30 * Tally(rows, Slow) - 100 * Tally(rows, Fail)
  {
    if rows != [] {
      TotalByTally(rows[1..]);
    }
  }

  lemma MulAtLeast(n: nat, a: int, b: int)
    requires a <= b
    ensures 2 * n * a <= 2 * n * b
  {
  }

  lemma RoundedHundred(n: nat, lost: nat)
    requires n > 0
    ensures RoundedQuotient(100 * n - lost, n) <= 100
    ensures RoundedQuotient(100 * n - lost, n) == 100 <==> n >= 2 * lost
  {
    var r := RoundedQuotient(100 * n - lost, n);
    MulAtLeast(n, if r > 100 then 101 else 0, if r > 100 then r else 0);
    MulAtLeast(n, if r < 100 then r + 1 else 0, if r < 100 then 100 else 0);
  }

  /**
   * A feature with rows scores a full 100 exactly when they number at least 60 for each slow and 200 for each
   * failed one.
   */
  lemma FullScoreIff(rows: seq<Row>)
    requires rows != []
    ensures ScoreFeature(rows) <= 100
    ensures ScoreFeature(rows) == 100 <==> |rows| >= 60 * Tally(rows, Slow) + 200 * Tally(rows, Fail)
  {
    TotalByTally(rows);
    RoundedHundred(|rows|, 30 * Tally(rows, Slow) + 100 * Tally(rows, Fail));
  }

  lemma {:induction false} TallyZero(rows: seq<Row>, status: Status)
    ensures Tally(rows, status) == 0 <==> !exists row :: row in rows && row.result.status == status
  {
    if rows != [] {
      TallyZero(rows[1..], status);
      if rows[0].result.status == status {
        assert rows[0] in rows;
      }
      assert forall row :: row in rows <==> row == rows[0] || row in rows[1..];
    }
  }

  /** So a full score shows a passing feature only below 60 rows; with a slow row and 60 of them the two disagree. */
  lemma FullScoreIsPassing(rows: seq<Row>)
    requires rows != []
    ensures SummarizeFeatureStatus(rows) == Some(Pass) ==> ScoreFeature(rows) == 100
    ensures |rows| < 60 && ScoreFeature(rows) == 100 ==> SummarizeFeatureStatus(rows) == Some(Pass)
  {
    FullScoreIff(rows);
    TallyZero(rows, Slow);
    TallyZero(rows, Fail);
  }

  // ---------------------------------------------------------------- the payload

  datatype Overview = Overview(total: nat, fail: nat, slow: nat, pass: nat, flaky: nat)

  datatype Health = Health(count: nat, flaky: nat, score: int, status: Option<Status>)

  datatype Payload = Payload(rows: seq<Row>, overview: Overview, health: map<Feature, Health>)

  function Rank(status: Status): nat {
    match status
    case Fail => 3
    case Slow => 2
    case Pass => 1
  }

  /** The rows' comparator: worst status first, then latest first. */
  predicate Before(a: Row, b: Row) {
    Rank(b.result.status) < Rank(a.result.status)
        || (a.result.status == b.result.status && b.result.stamp <= a.result.stamp)
  }

  function RowsOf(history: seq<Result>, flaky: set<string>): (rows: seq<Row>)
    ensures |rows| == |Latest(history)|
  {
    var latest := Latest(history);
    seq(|latest|, i requires 0 <= i < |latest| => Row(latest[i], latest[i].test in flaky))
  }

  function OfFeature(rows: seq<Row>, f: Feature): seq<Row> {
    Keep(rows, (row: Row) => row.result.feature == f)
  }

  function HealthOf(rows: seq<Row>): Health {
    Health(|rows|, Count(rows, (row: Row) => row.flaky), ScoreFeature(rows), SummarizeFeatureStatus(rows))
  }

  function PayloadOf(history: seq<Result>, flaky: set<string>): Payload {
    var rows := Sort(RowsOf(history, flaky), Before);
    Payload(rows,
            Overview(|rows|, Tally(rows, Fail), Tally(rows, Slow), Tally(rows, Pass),
                Count(rows, (row: Row) => row.flaky)),
            map f: Feature :: HealthOf(OfFeature(rows, f)))
  }

  method GetPayload(history: seq<Result>) returns (payload: Payload)
    ensures payload == PayloadOf(history, FlakySet(history))
  {
    var latest := LatestResultsByTest(history);
    var flakies := FlakyTests(history);
    assert flakies == FlakySet(history) by {
      forall test | test in flakies ensures test in FlakySet(history) {
        var i :| 0 <= i < |history| && history[i].test == test && history[i].status == Fail;
      }
    }
    var rows := Sort(seq(|latest|, i requires 0 <= i < |latest| => Row(latest[i], latest[i].test in flakies)), Before);
    payload := Payload(rows,
      Overview(|rows|, Tally(rows, Fail), Tally(rows, Slow), Tally(rows, Pass), Count(rows, (row: Row) => row.flaky)),
      map f: Feature :: HealthOf(OfFeature(rows, f)));
  }

  function Sum5(g: Feature -> int): int {
    g(Admin) + g(Api) + g(Discovery) + g(MapView) + g(Ui)
  }

  lemma {:induction false} FeaturesPartition(rows: seq<Row>, test: Row -> bool)
    ensures Count(rows, test) == Sum5(f => Count(OfFeature(rows, f), test))
  {
    if rows != [] {
      FeaturesPartition(rows[1..], test);
      forall f
        ensures Count(OfFeature(rows, f), test)
             == (if rows[0].result.feature == f && test(rows[0]) then 1 else 0) + Count(OfFeature(rows[1..], f), test)
      {
        FeatureOfFirst(rows, f, test);
      }
      assert Count(rows, test) == (if test(rows[0]) then 1 else 0) + Count(rows[1..], test);
      hide OfFeature, Count;
    }
  }

  lemma FeatureOfFirst(rows: seq<Row>, f: Feature, test: Row -> bool)
    requires rows != []
    ensures Count(OfFeature(rows, f), test)
         == (if rows[0].result.feature == f && test(rows[0]) then 1 else 0) + Count(OfFeature(rows[1..], f), test)
  {
    CountConcat(if rows[0].result.feature == f then [rows[0]] else [], OfFeature(rows[1..], f), test);
  }

  lemma {:induction false} SortLength<T>(list: seq<T>, leq: (T, T) -> bool)
    ensures |Sort(list, leq)| == |list|
  {
    SortCount(list, leq, x => true);
    CountAll(list, x => true);
    CountAll(Sort(list, leq), x => true);
  }

  /** One row a test; the status counts, the feature counts and the flaky counts each add up. */
  lemma PayloadTotals(history: seq<Result>, flaky: set<string>)
    ensures var p := PayloadOf(history, flaky);
            && p.overview.total == |p.rows| == |FirstSeen(Tests(history))|
            && p.overview.fail + p.overview.slow + p.overview.pass == p.overview.total
            && Sum5(f => p.health[f].count) == p.overview.total
            && Sum5(f => p.health[f].flaky) == p.overview.flaky
  {
    var p := PayloadOf(history, flaky);
    SortLength(RowsOf(history, flaky), Before);
    TotalByTally(p.rows);
    FeaturesPartition(p.rows, (row: Row) => row.flaky);
    FeaturesPartition(p.rows, row => true);
    CountAll(p.rows, row => true);
    forall f ensures |OfFeature(p.rows, f)| == Count(OfFeature(p.rows, f), row => true) {
      CountAll(OfFeature(p.rows, f), row => true);
    }
  }

  /** Which count is which. */
  lemma CountsMean(history: seq<Result>, flaky: set<string>)
    ensures var p := PayloadOf(history, flaky);
            && p.overview.fail == Count(p.rows, (row: Row) => row.result.status == Fail)
            && p.overview.slow == Count(p.rows, (row: Row) => row.result.status == Slow)
            && p.overview.pass == Count(p.rows, (row: Row) => row.result.status == Pass)
            && p.overview.flaky == Count(p.rows, (row: Row) => row.flaky)
  {
    hide Count, Sort, RowsOf, HealthOf;
    var p := PayloadOf(history, flaky);
    CountSame(p.rows, (row: Row) => HasStatus(row, Fail), (row: Row) => row.result.status == Fail);
    CountSame(p.rows, (row: Row) => HasStatus(row, Slow), (row: Row) => row.result.status == Slow);
    CountSame(p.rows, (row: Row) => HasStatus(row, Pass), (row: Row) => row.result.status == Pass);
  }

  /** What a feature's health says of its own rows. */
  lemma HealthMeans(history: seq<Result>, flaky: set<string>, f: Feature)
    ensures var p := PayloadOf(history, flaky);
            && p.health[f].count == Count(p.rows, (row: Row) => row.result.feature == f)
            && p.health[f].flaky == Count(OfFeature(p.rows, f), (row: Row) => row.flaky)
            && p.health[f].score == ScoreFeature(OfFeature(p.rows, f))
            && (p.health[f].status == None <==> forall row :: row in p.rows ==> row.result.feature != f)
            && (p.health[f].status == Some(Fail) <==> Shows(p.rows, f, Fail))
            && (p.health[f].status == Some(Slow) <==> !Shows(p.rows, f, Fail) && Shows(p.rows, f, Slow))
  {
    hide Count, Sort, RowsOf, Tally, ScoreFeature, SummarizeFeatureStatus;
    var p := PayloadOf(history, flaky);
    assert p.health[f] == HealthOf(OfFeature(p.rows, f));
    StatusMeans(p.rows, f);
    hide Keep;
  }

  lemma StatusMeans(rows: seq<Row>, f: Feature)
    ensures var status := SummarizeFeatureStatus(OfFeature(rows, f));
            && (status == None <==> forall row :: row in rows ==> row.result.feature != f)
            && (status == Some(Fail) <==> Shows(rows, f, Fail))
            && (status == Some(Slow) <==> !Shows(rows, f, Fail) && Shows(rows, f, Slow))
  {
    KeepMembers(rows, (row: Row) => row.result.feature == f);
    hide Keep;
    assert OfFeature(rows, f) == [] || OfFeature(rows, f)[0] in OfFeature(rows, f);
  }

  /** Some row of the feature ended so. */
  ghost predicate Shows(rows: seq<Row>, f: Feature, status: Status) {
    exists row :: row in rows && row.result.feature == f && row.result.status == status
  }

  lemma BeforeIsPreorder()
    ensures TotalPreorder(Before)
  {
  }

  /** Of two rows, an earlier one has the worse status, or the same and no earlier timestamp. */
  lemma RowsWorstFirst(history: seq<Result>, flaky: set<string>, i: nat, j: nat)
    requires i < j < |PayloadOf(history, flaky).rows|
    ensures var a, b := PayloadOf(history, flaky).rows[i].result, PayloadOf(history, flaky).rows[j].result;
            && (b.status == Fail ==> a.status == Fail) && (b.status == Slow ==> a.status != Pass)
            && (a.status == b.status ==> a.stamp >= b.stamp)
  {
    hide Sort;
    BeforeIsPreorder();
    SortSorts(RowsOf(history, flaky), Before);
    assert Before(PayloadOf(history, flaky).rows[i], PayloadOf(history, flaky).rows[j]);
  }

  predicate Ties(row: Row, status: Status, stamp: int) {
    row.result.status == status && row.result.stamp == stamp
  }

  /** The rows are the latest results put in order: failures first, newer first, ties in first-seen order. */
  lemma RowsInOrder(history: seq<Result>, flaky: set<string>, status: Status, stamp: int)
    ensures var p := PayloadOf(history, flaky);
            && Sorted(p.rows, Before)
            && multiset(p.rows) == multiset(RowsOf(history, flaky))
            && Keep(p.rows, (row: Row) => Ties(row, status, stamp))
               == Keep(RowsOf(history, flaky), (row: Row) => Ties(row, status, stamp))
  {
    BeforeIsPreorder();
    SortSorts(RowsOf(history, flaky), Before);
    SortStable(RowsOf(history, flaky), Before, (row: Row) => Ties(row, status, stamp));
  }
}
