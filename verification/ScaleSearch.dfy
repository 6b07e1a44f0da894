/** The generated vendor data set: zero-padded numbers as ids, slugs and search keys. */
module ScaleSearch {
  import opened Text

  const NEIGHBORHOODS: seq<string> := ["Deep Ellum", "Downtown", "Oak Lawn", "Bishop Arts", "Lower Greenville"]
  const CUISINES: seq<string> := ["BBQ", "Tacos", "Coffee", "Soul Food", "Vegan"]

  function Zeros(n: nat): string {
    seq(n, _ => '0')
  }

  /** `String(n).padStart(width, "0")`. */
  function Padded(n: nat, width: nat): string {
    var digits := Decimal(n);
    if |digits| < width then Zeros(width - |digits|) + digits else digits
  }

  datatype Vendor = Vendor(
    id: string, slug: string, name: string, description: string, area: string, cuisine: string, dish: string)

  /** `createLocalManScaleVendor` with the default prefix and no version tag, for index 1 and up. */
  function MakeVendor(index: nat): Vendor
    requires index >= 1
  {
    var number := Padded(index, 5);
    var area, cuisine := NEIGHBORHOODS[(index - 1) % 5], CUISINES[(index - 1) % 5];
    Vendor("00000000-0000-4000-8000-" + Padded(index, 12), "qa-scale-vendor-" + number,
           "QA_TEST_Scale Vendor " + number,
           cuisine + " vendor in " + area + " for deterministic Local Man scale QA.", area, cuisine,
           cuisine + " Feature " + number)
  }

  /** `parts.join(" ")`. */
  function Join(parts: seq<string>): string {
    if parts == [] then "" else if |parts| == 1 then parts[0] else parts[0] + (" " + Join(parts[1..]))
  }

  /** `searchableVendorText`: the short and the long description are the same, and category is the cuisine. */
  function SearchText(v: Vendor): string {
    Join([Lower(v.name), Lower(v.slug)] + Rest(v, Lower(v.dish)))
  }

  function Rest(v: Vendor, last: string): seq<string> {
    [Lower(v.description), Lower(v.description), Lower(v.area), Lower(v.cuisine), Lower(v.cuisine), last]
  }

  predicate OccursAt(text: string, query: string, i: nat) {
    i + |query| <= |text| && text[i..i + |query|] == query
  }

  predicate Includes(text: string, query: string) {
    exists i: nat :: i <= |text| && OccursAt(text, query, i)
  }

  /** `filterVendorsByQuery` over vendors first..last, returned as their indices. */
  function Search(first: nat, last: nat, query: string): seq<nat>
    requires first >= 1
    decreases last + 1 - first
  {
    if first > last then []
    else
      var normalized := Lower(Trim(query));
      (if normalized == "" || Includes(SearchText(MakeVendor(first)), normalized) then [first] else [])
      + Search(first + 1, last, query)
  }

  // ---------------------------------------------------------------- numbers as text

  function ValueOf(digits: string): nat
    requires forall i :: 0 <= i < |digits| ==> IsDigit(digits[i])
  {
    if digits == "" then 0
    else ValueOf(digits[..|digits| - 1]) * 10 + DigitOf(digits[|digits| - 1])
  }

  function DigitOf(c: char): nat
    requires IsDigit(c)
  {
    c as int - '0' as int
  }

  lemma {:induction false} DecimalValue(n: nat)
    ensures forall i :: 0 <= i < |Decimal(n)| ==> IsDigit(Decimal(n)[i])
    ensures ValueOf(Decimal(n)) == n
  {
    DecimalIsDigits(n);
    if n >= 10 {
      DecimalValue(n / 10);
      assert Decimal(n)[..|Decimal(n)| - 1] == Decimal(n / 10);
    } else {
      assert Decimal(n)[..0] == "";
    }
  }

  lemma {:induction false} ZerosValue(k: nat, digits: string)
    requires forall i :: 0 <= i < |digits| ==> IsDigit(digits[i])
    ensures forall i :: 0 <= i < |Zeros(k) + digits| ==> IsDigit((Zeros(k) + digits)[i])
    ensures ValueOf(Zeros(k) + digits) == ValueOf(digits)
  {
    var text := Zeros(k) + digits;
    if digits != "" {
      ZerosValue(k, digits[..|digits| - 1]);
      assert text[..|text| - 1] == Zeros(k) + digits[..|digits| - 1];
    } else if k > 0 {
      ZerosValue(k - 1, "");
      assert text[..|text| - 1] == Zeros(k - 1) + "";
      assert text == Zeros(k);
    } else {
      assert text == "";
    }
  }

  lemma PaddedValue(n: nat, width: nat)
    ensures forall i :: 0 <= i < |Padded(n, width)| ==> IsDigit(Padded(n, width)[i])
    ensures ValueOf(Padded(n, width)) == n && |Padded(n, width)| >= width
  {
    DecimalValue(n);
    if |Decimal(n)| < width {
      ZerosValue(width - |Decimal(n)|, Decimal(n));
    }
  }

  lemma PaddedInjective(m: nat, n: nat, width: nat)
    requires Padded(m, width) == Padded(n, width)
    ensures m == n
  {
    PaddedValue(m, width);
    PaddedValue(n, width);
  }

  /** Vendor ids and slugs are pairwise distinct, at every size. */
  lemma IdsAndSlugsDistinct(m: nat, n: nat)
    requires m >= 1 && n >= 1
    ensures MakeVendor(m).id == MakeVendor(n).id ==> m == n
    ensures MakeVendor(m).slug == MakeVendor(n).slug ==> m == n
  {
    var a, b := MakeVendor(m), MakeVendor(n);
    if a.id == b.id {
      assert a.id[24..] == Padded(m, 12) && b.id[24..] == Padded(n, 12);
      PaddedInjective(m, n, 12);
    }
    if a.slug == b.slug {
      assert a.slug[16..] == Padded(m, 5) && b.slug[16..] == Padded(n, 5);
      PaddedInjective(m, n, 5);
    }
  }

  lemma FiveDigits(n: nat)
    requires n <= 99_999
    ensures |Padded(n, 5)| == 5
  {
    assert |Decimal(n / 10_000)| == 1;
    assert n / 10 / 10 == n / 100 && n / 100 / 10 == n / 1_000 && n / 1_000 / 10 == n / 10_000;
    DecimalGrows(n / 1_000);
    DecimalGrows(n / 100);
    DecimalGrows(n / 10);
    DecimalGrows(n);
  }

  lemma DecimalGrows(n: nat)
    ensures |Decimal(n)| <= |Decimal(n / 10)| + 1
  {
  }

  // ---------------------------------------------------------------- digit runs

  predicate NoDigits(s: string) {
    forall i :: 0 <= i < |s| ==> !IsDigit(s[i])
  }

  predicate AllDigits(s: string) {
    forall i :: 0 <= i < |s| ==> IsDigit(s[i])
  }

  /** A number can only occur inside one run of digits, and two numbers of one length only coincide when equal. */
  lemma OccursInRun(before: string, run: string, after: string, query: string, i: nat)
    requires NoDigits(before) && AllDigits(run) && AllDigits(query) && |run| == |query| > 0
    requires after == "" || !IsDigit(after[0])
    requires OccursAt(before + run + after, query, i)
    ensures query == run || (i >= |before + run| && OccursAt(after, query, i - |before + run|))
  {
    var text := before + run + after;
    var end := |before + run|;
    assert forall k :: i <= k < i + |query| ==> text[k] == query[k - i];
    assert forall k :: i <= k < i + |query| ==> IsDigit(text[k]);
    assert forall k :: 0 <= k < |before| ==> !IsDigit(text[k]);
    assert after != "" ==> !IsDigit(text[end]);
    assert IsDigit(text[i]);
    if i == |before| {
      assert text[i..i + |query|] == run;
    } else {
      assert i >= end;
      assert text[i..i + |query|] == after[i - end..i - end + |query|];
    }
  }

  // ---------------------------------------------------------------- the text of a vendor

  /** What lies between the second and the third number of a vendor's text. */
  function Middle(index: nat): string
    requires index >= 1
  {
    var v := MakeVendor(index);
    " " + Join(Rest(v, Lower(v.cuisine + " Feature ")))
  }

  const NAME_PREFIX := "QA_TEST_Scale Vendor "
  const SLUG_PREFIX := "qa-scale-vendor-"

  lemma LowerConcat(x: string, y: string)
    ensures Lower(x + y) == Lower(x) + Lower(y)
  {
  }

  lemma LowerDigits(s: string)
    requires AllDigits(s)
    ensures Lower(s) == s
  {
  }

  lemma NoDigitsConcat(x: string, y: string)
    ensures NoDigits(x + y) <==> NoDigits(x) && NoDigits(y)
  {
    assert NoDigits(x + y) ==> forall i :: 0 <= i < |x| ==> x[i] == (x + y)[i];
    assert NoDigits(x + y) ==> forall i :: 0 <= i < |y| ==> y[i] == (x + y)[|x| + i];
  }

  lemma LowerNoDigits(s: string)
    requires NoDigits(s)
    ensures NoDigits(Lower(s))
  {
  }

  lemma {:induction false} JoinEnd(parts: seq<string>, last: string, suffix: string)
    ensures Join(parts + [last + suffix]) == Join(parts + [last]) + suffix
  {
    if parts != [] {
      JoinEnd(parts[1..], last, suffix);
      assert (parts + [last])[1..] == parts[1..] + [last]
          && (parts + [last + suffix])[1..] == parts[1..] + [last + suffix];
    }
  }

  lemma JoinTwo(x: string, y: string, rest: seq<string>)
    requires rest != []
    ensures Join([x, y] + rest) == x + (" " + (y + (" " + Join(rest))))
  {
    assert ([x, y] + rest)[1..] == [y] + rest && ([y] + rest)[1..] == rest;
  }

  lemma Regroup(a: string, p: string, b: string, m: string)
    ensures (a + p) + (" " + ((b + p) + (m + p))) == a + p + (" " + b + p + (m + p + ""))
  {
  }

  /** The text of a vendor: its number three times, with other text around it. */
  lemma TextHasThreeNumbers(index: nat, number: string)
    requires index >= 1 && number == Padded(index, 5)
    ensures SearchText(MakeVendor(index))
         == Lower(NAME_PREFIX) + number + (" " + Lower(SLUG_PREFIX) + number + (Middle(index) + number + ""))
  {
    hide Join, Lower, Padded, MakeVendor, Rest, Middle;
    var v := MakeVendor(index);
    NameParts(index, number);
    RestEnds(index, number);
    JoinTwo(Lower(v.name), Lower(v.slug), Rest(v, Lower(v.dish)));
    Regroup(Lower(NAME_PREFIX), number, Lower(SLUG_PREFIX), Middle(index));
  }

  /** What follows the slug ends in the number of the dish. */
  lemma RestEnds(index: nat, number: string)
    requires index >= 1 && number == Padded(index, 5)
    ensures var v := MakeVendor(index);
            Rest(v, Lower(v.dish)) != [] && " " + Join(Rest(v, Lower(v.dish))) == Middle(index) + number
  {
    hide Lower, Padded, MakeVendor, Join;
    var v := MakeVendor(index);
    NameParts(index, number);
    var head := Lower(v.cuisine + " Feature ");
    var front := [Lower(v.description), Lower(v.description), Lower(v.area), Lower(v.cuisine), Lower(v.cuisine)];
    JoinEnd(front, head, number);
    assert Rest(v, head) == front + [head] && Rest(v, Lower(v.dish)) == front + [head + number];
    assert " " + (Join(front + [head]) + number) == (" " + Join(front + [head])) + number;
  }

  lemma NameParts(index: nat, number: string)
    requires index >= 1 && number == Padded(index, 5)
    ensures var v := MakeVendor(index);
            && Lower(v.name) == Lower(NAME_PREFIX) + number && Lower(v.slug) == Lower(SLUG_PREFIX) + number
            && Lower(v.dish) == Lower(v.cuisine + " Feature ") + number
  {
    var v := MakeVendor(index);
    PaddedValue(index, 5);
    LowerDigits(number);
    LowerConcat(NAME_PREFIX, number);
    LowerConcat(SLUG_PREFIX, number);
    LowerConcat(v.cuisine + " Feature ", number);
    assert v.name == NAME_PREFIX + number && v.slug == SLUG_PREFIX + number;
  }

  lemma PrefixesHaveNoDigits()
    ensures NoDigits(NAME_PREFIX) && NoDigits(SLUG_PREFIX) && NoDigits(" vendor in ") && NoDigits(" Feature ")
    ensures NoDigits(" ")
  {
  }

  lemma ClosingHasNoDigits()
    ensures NoDigits(" for deterministic Local Man scale QA.")
  {
  }

  lemma ListsHaveNoDigits()
    ensures forall k :: 0 <= k < 5 ==> NoDigits(NEIGHBORHOODS[k]) && NoDigits(CUISINES[k])
  {
  }

  lemma {:induction false} JoinNoDigits(parts: seq<string>)
    requires forall p :: p in parts ==> NoDigits(p)
    ensures NoDigits(Join(parts))
  {
    if |parts| > 1 {
      JoinNoDigits(parts[1..]);
      assert NoDigits(parts[0]);
    }
  }

  lemma MiddleNoDigits(index: nat)
    requires index >= 1
    ensures NoDigits(Middle(index)) && NoDigits(Lower(NAME_PREFIX)) && NoDigits(" " + Lower(SLUG_PREFIX))
  {
    PrefixesHaveNoDigits();
    ClosingHasNoDigits();
    ListsHaveNoDigits();
    var v := MakeVendor(index);
    var k := (index - 1) % 5;
    assert v.area == NEIGHBORHOODS[k] && v.cuisine == CUISINES[k];
    NoDigitsConcat(v.cuisine, " vendor in ");
    NoDigitsConcat(v.cuisine + " vendor in ", v.area);
    NoDigitsConcat(v.cuisine + " vendor in " + v.area, " for deterministic Local Man scale QA.");
    NoDigitsConcat(v.cuisine, " Feature ");
    hide Lower;
    LowerNoDigits(v.description);
    LowerNoDigits(v.area);
    LowerNoDigits(v.cuisine);
    LowerNoDigits(v.cuisine + " Feature ");
    LowerNoDigits(NAME_PREFIX);
    LowerNoDigits(SLUG_PREFIX);
    JoinNoDigits(Rest(v, Lower(v.cuisine + " Feature ")));
  }

  /** A five-digit number occurs in a vendor's text, up to number 99,999, only as that vendor's own number. */
  lemma OnlyOwnNumber(index: nat, query: string)
    requires 1 <= index <= 99_999 && |query| == 5 && AllDigits(query)
    ensures Includes(SearchText(MakeVendor(index)), query) <==> query == Padded(index, 5)
  {
    hide Padded, Middle, SearchText, Lower;
    var number := Padded(index, 5);
    var first, second, third := Lower(NAME_PREFIX), " " + Lower(SLUG_PREFIX), Middle(index);
    FiveDigits(index);
    PaddedValue(index, 5);
    TextHasThreeNumbers(index, number);
    MiddleNoDigits(index);
    var text := SearchText(MakeVendor(index));
    var tail := third + number + "";
    var middle := second + number + tail;
    assert third[0] == ' ' by { MiddleStarts(index); }
    if Includes(text, query) {
      var i: nat :| i <= |text| && OccursAt(text, query, i);
      OccursInRun(first, number, middle, query, i);
      if query != number {
        var j := i - |first + number|;
        OccursInRun(second, number, tail, query, j);
        OccursInRun(third, number, "", query, j - |second + number|);
      }
    }
    if query == number {
      assert OccursAt(text, query, |first|);
    }
  }

  lemma MiddleStarts(index: nat)
    requires index >= 1
    ensures Middle(index) != "" && Middle(index)[0] == ' '
  {
  }

  // ---------------------------------------------------------------- the search

  lemma DigitsNormalize(query: string)
    requires AllDigits(query) && query != ""
    ensures Lower(Trim(query)) == query
  {
    TrimStartFirst(query);
    assert IsDigit(query[|query| - 1]);
    assert TrimStart(query) == query && TrimEnd(query) == query;
    LowerDigits(query);
  }

  lemma {:induction false} SearchMatches(first: nat, last: nat, query: string, index: nat)
    requires first >= 1 && AllDigits(query) && query != ""
    ensures index in Search(first, last, query)
        <==> first <= index <= last && Includes(SearchText(MakeVendor(index)), query)
    decreases last + 1 - first
  {
    hide SearchText, MakeVendor, Includes;
    DigitsNormalize(query);
    if first <= last {
      SearchMatches(first + 1, last, query, index);
    }
  }

  lemma {:induction false} SearchFinds(first: nat, last: nat, index: nat, query: string)
    requires 1 <= first <= last + 1 <= 100_000 && 1 <= index <= 99_999 && query == Padded(index, 5)
    ensures Search(first, last, query) == if first <= index <= last then [index] else []
    decreases last + 1 - first
  {
    hide SearchText, MakeVendor, Includes;
    PaddedValue(index, 5);
    FiveDigits(index);
    DigitsNormalize(query);
    if first <= last {
      SearchFinds(first + 1, last, index, query);
      OnlyOwnNumber(first, query);
      if query == Padded(first, 5) {
        PaddedInjective(first, index, 5);
      }
    }
  }

  /** Vendor 100,000 is also found by the number of vendor 10,000. */
  lemma SixDigitsContainFive()
    ensures Includes(SearchText(MakeVendor(100_000)), Padded(10_000, 5))
  {
    hide Middle, SearchText, Lower;
    var number, query := Padded(100_000, 5), Padded(10_000, 5);
    FiveDigits(10_000);
    PaddedValue(100_000, 5);
    DecimalValue(10_000);
    assert Decimal(100_000) == Decimal(10_000) + "0";
    assert |Decimal(10_000)| == 5 && query == Decimal(10_000) && number == query + "0" by {
      TenThousandHasFiveDigits();
    }
    TextHasThreeNumbers(100_000, number);
    var before := Lower(NAME_PREFIX);
    assert OccursAt(SearchText(MakeVendor(100_000)), query, |before|);
  }

  lemma TenThousandHasFiveDigits()
    ensures |Decimal(10_000)| == 5
  {
    assert |Decimal(1)| == 1 && |Decimal(10)| == 2 && |Decimal(100)| == 3 && |Decimal(1_000)| == 4;
  }

  /** Searching any vendor's five-digit number finds exactly that vendor iff the data set has at most 99,999 vendors. */
  lemma SearchIsExactIff(size: nat)
    ensures (forall index :: 1 <= index <= size && |Padded(index, 5)| == 5 ==>
        Search(1, size, Padded(index, 5)) == [index])
       <==> size <= 99_999
  {
    hide SearchText, Includes, Search;
    if size <= 99_999 {
      forall index | 1 <= index <= size ensures Search(1, size, Padded(index, 5)) == [index] {
        SearchFinds(1, size, index, Padded(index, 5));
      }
    } else {
      var query := Padded(10_000, 5);
      FiveDigits(10_000);
      PaddedValue(10_000, 5);
      SixDigitsContainFive();
      SearchMatches(1, size, query, 100_000);
      assert 100_000 in Search(1, size, query) && 100_000 !in [10_000 as nat];
      assert Search(1, size, Padded(10_000, 5)) != [10_000];
    }
  }
}
