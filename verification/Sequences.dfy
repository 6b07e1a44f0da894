/** List functions shared by the folds: counting, first occurrences and a stable sort. */
module Sequences {

  // ---------------------------------------------------------------- counting and filtering

  function Count<T>(list: seq<T>, test: T -> bool): nat {
    if list == [] then 0 else (if test(list[0]) then 1 else 0) + Count(list[1..], test)
  }

  function Keep<T>(list: seq<T>, test: T -> bool): (kept: seq<T>)
    ensures |kept| == Count(list, test)
  {
    if list == [] then [] else (if test(list[0]) then [list[0]] else []) + Keep(list[1..], test)
  }

  lemma {:induction false} KeepMembers<T>(list: seq<T>, test: T -> bool)
    ensures forall x :: x in Keep(list, test) <==> x in list && test(x)
  {
    if list != [] {
      KeepMembers(list[1..], test);
    }
  }

  lemma {:induction false} CountConcat<T>(a: seq<T>, b: seq<T>, test: T -> bool)
    ensures Count(a + b, test) == Count(a, test) + Count(b, test)
  {
    if a == [] {
      assert a + b == b;
    } else {
      assert (a + b)[1..] == a[1..] + b;
      CountConcat(a[1..], b, test);
    }
  }

  lemma {:induction false} CountSame<T>(list: seq<T>, f: T -> bool, g: T -> bool)
    requires forall x :: x in list ==> f(x) == g(x)
    ensures Count(list, f) == Count(list, g)
  {
    if list != [] {
      CountSame(list[1..], f, g);
    }
  }

  lemma {:induction false} CountSplit<T>(list: seq<T>, f: T -> bool, g: T -> bool, both: T -> bool)
    requires forall x :: x in list ==> both(x) == (f(x) || g(x)) && !(f(x) && g(x))
    ensures Count(list, both) == Count(list, f) + Count(list, g)
  {
    if list != [] {
      CountSplit(list[1..], f, g, both);
    }
  }

  lemma {:induction false} CountNone<T>(list: seq<T>, f: T -> bool)
    requires forall x :: x in list ==> !f(x)
    ensures Count(list, f) == 0
  {
    if list != [] {
      CountNone(list[1..], f);
    }
  }

  lemma {:induction false} CountAll<T>(list: seq<T>, f: T -> bool)
    requires forall x :: x in list ==> f(x)
    ensures Count(list, f) == |list|
  {
    if list != [] {
      CountAll(list[1..], f);
    }
  }

  lemma {:induction false} KeepCount<T>(list: seq<T>, f: T -> bool, g: T -> bool)
    ensures Count(Keep(list, f), g) == Count(list, x => f(x) && g(x))
  {
    if list != [] {
      KeepCount(list[1..], f, g);
      CountConcat(if f(list[0]) then [list[0]] else [], Keep(list[1..], f), g);
    }
  }

  // ---------------------------------------------------------------- first occurrences, as in a Set or Map

  function FirstSeen<T(==,!new)>(list: seq<T>): (first: seq<T>)
    ensures forall x :: x in first <==> x in list
    ensures forall i, j :: 0 <= i < j < |first| ==> first[i] != first[j]
  {
    if list == [] then []
    else
      var before, x := FirstSeen(list[..|list| - 1]), list[|list| - 1];
      if x in before then before else before + [x]
  }

  // ---------------------------------------------------------------- a log of changes

  function PushIfChanged<T(==)>(list: seq<T>, item: T): seq<T> {
    if list == [] || list[|list| - 1] != item then list + [item] else list
  }

  ghost predicate NoAdjacentRepeats<T>(list: seq<T>) {
    forall i :: 0 < i < |list| ==> list[i - 1] != list[i]
  }

  lemma PushKeeps<T>(list: seq<T>, item: T)
    requires NoAdjacentRepeats(list)
    ensures NoAdjacentRepeats(PushIfChanged(list, item))
  {
  }

  // ---------------------------------------------------------------- a stable sort

  ghost predicate TotalPreorder<T(!new)>(leq: (T, T) -> bool) {
    (forall a, b :: leq(a, b) || leq(b, a)) && (forall a, b, c :: leq(a, b) && leq(b, c) ==> leq(a, c))
  }

  ghost predicate Sorted<T>(list: seq<T>, leq: (T, T) -> bool) {
    forall i, j :: 0 <= i < j < |list| ==> leq(list[i], list[j])
  }

  function Insert<T>(x: T, list: seq<T>, leq: (T, T) -> bool): seq<T> {
    if list == [] || leq(x, list[0]) then [x] + list else [list[0]] + Insert(x, list[1..], leq)
  }

  function Sort<T>(list: seq<T>, leq: (T, T) -> bool): seq<T> {
    if list == [] then [] else Insert(list[0], Sort(list[1..], leq), leq)
  }

  lemma {:induction false} InsertKeeps<T>(x: T, list: seq<T>, leq: (T, T) -> bool)
    ensures multiset(Insert(x, list, leq)) == multiset(list) + multiset{x}
  {
    if list != [] && !leq(x, list[0]) {
      assert list == [list[0]] + list[1..];
      InsertKeeps(x, list[1..], leq);
    }
  }

  lemma {:induction false} InsertSorted<T(!new)>(x: T, list: seq<T>, leq: (T, T) -> bool)
    requires TotalPreorder(leq) && Sorted(list, leq)
    ensures Sorted(Insert(x, list, leq), leq)
  {
    if list == [] {
    } else if leq(x, list[0]) {
      forall i | 0 <= i < |list| ensures leq(x, list[i]) {
        assert leq(list[0], list[i]);
      }
    } else {
      var rest := Insert(x, list[1..], leq);
      InsertSorted(x, list[1..], leq);
      InsertKeeps(x, list[1..], leq);
      forall i | 0 <= i < |rest| ensures leq(list[0], rest[i]) {
        assert rest[i] in multiset(rest);
        if rest[i] != x {
          assert rest[i] in multiset(list[1..]);
        }
      }
    }
  }

  lemma {:induction false} SortPermutes<T>(list: seq<T>, leq: (T, T) -> bool)
    ensures multiset(Sort(list, leq)) == multiset(list)
  {
    if list != [] {
      SortPermutes(list[1..], leq);
      InsertKeeps(list[0], Sort(list[1..], leq), leq);
      assert list == [list[0]] + list[1..];
    }
  }

  lemma {:induction false} SortOrders<T(!new)>(list: seq<T>, leq: (T, T) -> bool)
    requires TotalPreorder(leq)
    ensures Sorted(Sort(list, leq), leq)
  {
    if list != [] {
      SortOrders(list[1..], leq);
      InsertSorted(list[0], Sort(list[1..], leq), leq);
    }
  }

  lemma SameMembers<T(!new)>(a: seq<T>, b: seq<T>)
    requires multiset(a) == multiset(b)
    ensures forall x :: x in a <==> x in b
  {
    forall x ensures x in a <==> x in b {
      assert x in multiset(a) <==> x in multiset(b);
    }
  }

  /** Sorting reorders: the result is in order and holds each element as often as the input. */
  lemma SortSorts<T(!new)>(list: seq<T>, leq: (T, T) -> bool)
    requires TotalPreorder(leq)
    ensures Sorted(Sort(list, leq), leq)
    ensures multiset(Sort(list, leq)) == multiset(list)
    ensures forall x :: x in Sort(list, leq) <==> x in list
  {
    hide Sort, TotalPreorder, Sorted;
    SortOrders(list, leq);
    SortPermutes(list, leq);
    SameMembers(Sort(list, leq), list);
  }

  lemma {:induction false} InsertStable<T(!new)>(x: T, list: seq<T>, leq: (T, T) -> bool, tie: T -> bool)
    requires forall a, b :: tie(a) && tie(b) ==> leq(a, b)
    ensures Keep(Insert(x, list, leq), tie) == Keep([x] + list, tie)
  {
    assert ([x] + list)[1..] == list;
    if list != [] && !leq(x, list[0]) {
      InsertStable(x, list[1..], leq, tie);
      assert ([list[0]] + Insert(x, list[1..], leq))[1..] == Insert(x, list[1..], leq);
      assert ([x] + list[1..])[1..] == list[1..];
    }
  }

  /** Elements that tie keep their order. */
  lemma {:induction false} SortStable<T(!new)>(list: seq<T>, leq: (T, T) -> bool, tie: T -> bool)
    requires forall a, b :: tie(a) && tie(b) ==> leq(a, b)
    ensures Keep(Sort(list, leq), tie) == Keep(list, tie)
  {
    if list != [] {
      SortStable(list[1..], leq, tie);
      InsertStable(list[0], Sort(list[1..], leq), leq, tie);
      assert ([list[0]] + Sort(list[1..], leq))[1..] == Sort(list[1..], leq);
    }
  }

  lemma {:induction false} InsertCount<T>(x: T, list: seq<T>, leq: (T, T) -> bool, test: T -> bool)
    ensures Count(Insert(x, list, leq), test) == (if test(x) then 1 else 0) + Count(list, test)
  {
    assert ([x] + list)[1..] == list;
    if list != [] && !leq(x, list[0]) {
      assert ([list[0]] + Insert(x, list[1..], leq))[1..] == Insert(x, list[1..], leq);
      InsertCount(x, list[1..], leq, test);
    }
  }

  lemma {:induction false} SortCount<T>(list: seq<T>, leq: (T, T) -> bool, test: T -> bool)
    ensures Count(Sort(list, leq), test) == Count(list, test)
  {
    if list != [] {
      SortCount(list[1..], leq, test);
      InsertCount(list[0], Sort(list[1..], leq), leq, test);
    }
  }
}
