/** What the admin report and the user page both do with payments: the
    descending-timestamp sort, sums of amounts, the calendar test behind the
    "today" figures, and the date-range and text predicates of the filters. */
module Payments {
  import opened Wrappers
  import opened Text
  import opened Seqs
  import opened Records

  /** `p.timestamp || 0`. */
  function Time(p: Payment): int {
    p.timestamp.GetOr(0)
  }

  /** `parseFloat(p.amount) || 0`. */
  function Amount(p: Payment): int {
    p.amount.GetOr(0)
  }

  /** The comparator `(a, b) => (b.timestamp || 0) - (a.timestamp || 0)`. */
  function CompareByTime(a: Payment, b: Payment): (r: int)
    ensures r < 0 <==> Time(a) > Time(b)
    ensures r == 0 <==> Time(a) == Time(b)
  {
    Time(b) - Time(a)
  }

  /** Ordered as that comparator asks: newest first. */
  predicate SortedByTime(s: seq<Payment>) {
    forall i, j :: 0 <= i < j < |s| ==> Time(s[i]) >= Time(s[j])
  }

  /** Newest first is exactly the order the comparator asks for. */
  lemma SortedByTimeFollowsComparator(s: seq<Payment>)
    ensures SortedByTime(s) <==> forall i, j :: 0 <= i < j < |s| ==> CompareByTime(s[i], s[j]) <= 0
  {
  }

  /** Whatever the insertion into `tail` yields is no newer than `top`, when
      `x` and all of `tail` are not. */
  lemma InsertedNotNewer(top: Payment, x: Payment, tail: seq<Payment>, rest: seq<Payment>)
    requires Time(x) <= Time(top)
    requires forall j :: 0 <= j < |tail| ==> Time(tail[j]) <= Time(top)
    requires multiset(rest) == multiset(tail) + multiset{x}
    ensures forall j :: 0 <= j < |rest| ==> Time(rest[j]) <= Time(top)
  {
    forall j | 0 <= j < |rest| ensures Time(rest[j]) <= Time(top) {
      var y := rest[j];
      assert y in multiset(rest);
      if y != x {
        assert y in multiset(tail);
        var k :| 0 <= k < |tail| && tail[k] == y;
      }
    }
  }

  /** A payment no older than any of a newest-first list can head it. */
  lemma PrependByTime(x: Payment, s: seq<Payment>)
    requires SortedByTime(s)
    requires forall j :: 0 <= j < |s| ==> Time(s[j]) <= Time(x)
    ensures SortedByTime([x] + s)
  {
    var r := [x] + s;
    forall i, j | 0 <= i < j < |r| ensures Time(r[i]) >= Time(r[j]) {
      if i == 0 {
        assert r[j] == s[j - 1];
      } else {
        assert r[i] == s[i - 1] && r[j] == s[j - 1];
      }
    }
  }

  function InsertByTime(x: Payment, s: seq<Payment>): (r: seq<Payment>)
    requires SortedByTime(s)
    ensures SortedByTime(r)
    ensures multiset(r) == multiset(s) + multiset{x}
  {
    if s == [] || Time(x) >= Time(s[0]) then
      PrependByTime(x, s);
      [x] + s
    else
      var tail := s[1..];
      var rest := InsertByTime(x, tail);
      assert s == [s[0]] + tail;
      assert forall j :: 0 <= j < |tail| ==> tail[j] == s[j + 1];
      InsertedNotNewer(s[0], x, tail, rest);
      PrependByTime(s[0], rest);
      [s[0]] + rest
  }

  /** `payments.sort(CompareByTime)`: the same payments, newest first (the
      order among equal timestamps is left open, as JavaScript leaves it). */
  function SortByTime(s: seq<Payment>): (r: seq<Payment>)
    ensures SortedByTime(r)
    ensures multiset(r) == multiset(s)
    ensures |r| == |s|
  {
    if s == [] then []
    else
      assert s == [s[0]] + s[1..];
      InsertByTime(s[0], SortByTime(s[1..]))
  }

  /** Sorting loses no payment. */
  lemma SortedKeepsMembers(payments: seq<Payment>)
    ensures forall p | p in payments :: p in SortByTime(payments)
  {
    var s := SortByTime(payments);
    forall p | p in payments ensures p in s {
      assert p in multiset(s);
    }
  }

  /** Filtering keeps the newest-first order. */
  lemma {:induction false} FilterKeepsOrder(s: seq<Payment>, f: Payment -> bool)
    requires SortedByTime(s)
    ensures SortedByTime(Filter(s, f))
  {
    if s != [] {
      var init, last := s[..|s| - 1], s[|s| - 1];
      FilterKeepsOrder(init, f);
      FilterMembers(init, f);
      var a := Filter(init, f);
      if f(last) {
        var r := a + [last];
        forall i, j | 0 <= i < j < |r| ensures CompareByTime(r[i], r[j]) <= 0 {
          if j == |r| - 1 {
            assert r[i] in init;
            var k :| 0 <= k < |init| && init[k] == r[i];
            assert s[k] == r[i];
          } else {
            assert r[i] == a[i] && r[j] == a[j];
          }
        }
      }
    }
  }

  /** In a newest-first list, every copy of a payment newer than the `n`-th
      one is among the first `n`. */
  lemma NewerIsAmongFirst(s: seq<Payment>, n: nat, p: Payment)
    requires SortedByTime(s) && 0 < n <= |s|
    requires Time(p) > Time(s[n - 1])
    ensures multiset(s[..n])[p] == multiset(s)[p]
  {
    assert s == s[..n] + s[n..];
    assert multiset(s) == multiset(s[..n]) + multiset(s[n..]);
    forall j | 0 <= j < |s[n..]| ensures s[n..][j] != p {
      assert s[n..][j] == s[n + j];
    }
    assert p !in s[n..];
  }

  /** The first `n` of a newest-first list are newest first. */
  lemma TakeNewest(s: seq<Payment>, n: nat)
    requires SortedByTime(s) && n <= |s|
    ensures SortedByTime(s[..n])
  {
  }

  lemma TakeNewestMultiset(s: seq<Payment>, n: nat)
    requires n <= |s|
    ensures multiset(s[..n]) <= multiset(s)
  {
    assert s == s[..n] + s[n..];
    assert multiset(s) == multiset(s[..n]) + multiset(s[n..]);
  }

  /** `slice(0, n)`: the first `n` payments, or all of them when there are
      fewer. Of a newest-first list it keeps the newest: every payment newer
      than the last one kept is kept, every copy of it. */
  function First(s: seq<Payment>, n: nat): (r: seq<Payment>)
    ensures |r| == if |s| < n then |s| else n
    ensures IsSubseq(r, s) && multiset(r) <= multiset(s)
    ensures SortedByTime(s) ==> SortedByTime(r)
    ensures SortedByTime(s) ==> forall p | p in s && r != [] && Time(p) > Time(r[|r| - 1]) :: p in r
    ensures SortedByTime(s) ==> forall p | r != [] && Time(p) > Time(r[|r| - 1]) :: multiset(r)[p] == multiset(s)[p]
  {
    var k := if |s| < n then |s| else n;
    PrefixIsSubseq(s, k);
    PrefixKeepsNewest(s, k);
    s[..k]
  }

  lemma PrefixKeepsNewest(s: seq<Payment>, k: nat)
    requires k <= |s|
    ensures multiset(s[..k]) <= multiset(s)
    ensures SortedByTime(s) ==> SortedByTime(s[..k])
    ensures SortedByTime(s) ==> forall p | p in s && 0 < k && Time(p) > Time(s[k - 1]) :: p in s[..k]
    ensures SortedByTime(s) ==> forall p | 0 < k && Time(p) > Time(s[k - 1]) :: multiset(s[..k])[p] == multiset(s)[p]
  {
    TakeNewestMultiset(s, k);
    if SortedByTime(s) {
      TakeNewest(s, k);
      forall p | 0 < k && Time(p) > Time(s[k - 1]) ensures multiset(s[..k])[p] == multiset(s)[p] {
        NewerIsAmongFirst(s, k, p);
      }
      forall p | p in s && 0 < k && Time(p) > Time(s[k - 1]) ensures p in s[..k] {
        assert multiset(s[..k])[p] == multiset(s)[p] > 0;
      }
    }
  }

  /** One more payment in a running tally of all payments and of those `f` keeps. */
  lemma TallyStep(ps: seq<Payment>, i: nat, f: Payment -> bool)
    requires i < |ps|
    ensures Sum(ps[..i + 1]) == Sum(ps[..i]) + Amount(ps[i])
    ensures Sum(Filter(ps[..i + 1], f)) == Sum(Filter(ps[..i], f)) + (if f(ps[i]) then Amount(ps[i]) else 0)
    ensures |Filter(ps[..i + 1], f)| == |Filter(ps[..i], f)| + (if f(ps[i]) then 1 else 0)
  {
    var s, p := ps[..i], ps[i];
    assert ps[..i + 1] == s + [p];
    SumSnoc(s, p);
    FilterSnoc(s, p, f);
    if f(p) {
      SumSnoc(Filter(s, f), p);
    } else {
      assert Filter(s + [p], f) == Filter(s, f);
    }
  }

  /** The sum of the amounts, a non-numeric amount counting as 0. */
  function Sum(s: seq<Payment>): int {
    if s == [] then 0 else Sum(s[..|s| - 1]) + Amount(s[|s| - 1])
  }

  lemma SumSnoc(s: seq<Payment>, p: Payment)
    ensures Sum(s + [p]) == Sum(s) + Amount(p)
  {
    assert (s + [p])[..|s|] == s;
  }

  predicate NonNegative(s: seq<Payment>) {
    forall i :: 0 <= i < |s| ==> Amount(s[i]) >= 0
  }

  /** With no negative amounts, the payments that pass a stricter test never
      sum to more than those that pass a looser one. */
  lemma {:induction false} SumFilterMonotone(s: seq<Payment>, f: Payment -> bool, g: Payment -> bool)
    requires NonNegative(s)
    requires forall i :: 0 <= i < |s| ==> f(s[i]) ==> g(s[i])
    ensures Sum(Filter(s, f)) <= Sum(Filter(s, g))
  {
    if s != [] {
      var init, last := s[..|s| - 1], s[|s| - 1];
      assert forall i :: 0 <= i < |init| ==> init[i] == s[i];
      SumFilterMonotone(init, f, g);
      var a, b := Filter(init, f), Filter(init, g);
      var ra, rb := Filter(s, f), Filter(s, g);
      assert f(last) ==> g(last);
      assert Amount(last) >= 0;
      if f(last) {
        assert ra == a + [last] && rb == b + [last];
        SumSnoc(a, last);
        SumSnoc(b, last);
      } else if g(last) {
        assert ra == a && rb == b + [last];
        SumSnoc(b, last);
      } else {
        assert ra == a && rb == b;
      }
    }
  }

  function Everything(): Payment -> bool {
    p => true
  }

  lemma SumOfAll(s: seq<Payment>)
    ensures Sum(Filter(s, Everything())) == Sum(s)
  {
    FilterAllPass(s, Everything());
  }

  predicate IsNumeric(p: Payment) {
    p.amount.Some?
  }

  /** Payments whose amount is not a number add nothing to a sum. */
  lemma {:induction false} NonNumericAddsNothing(s: seq<Payment>)
    ensures Sum(Filter(s, IsNumeric)) == Sum(s)
  {
    if s != [] {
      var init, last := s[..|s| - 1], s[|s| - 1];
      NonNumericAddsNothing(init);
      var a := Filter(init, IsNumeric);
      var r := Filter(s, IsNumeric);
      assert Sum(s) == Sum(init) + Amount(last);
      if IsNumeric(last) {
        assert r == a + [last];
        SumSnoc(a, last);
      } else {
        assert r == a;
      }
    }
  }

  /** A local calendar day, as `toDateString`, `getMonth` and `getFullYear` read it. */
  datatype CivilDate = CivilDate(year: int, month: int, day: int)

  /** The browser's local calendar: the day an instant falls on, and the
      last millisecond (23:59:59.999) of the day an instant falls on. */
  datatype Calendar = Calendar(dateOf: int -> CivilDate, endOfDay: int -> int)

  /** What holds of a real calendar: `endOfDay(x)` is on the same day as `x`
      and no instant of that day is later. */
  ghost predicate WellFormed(cal: Calendar) {
    && (forall x :: cal.dateOf(cal.endOfDay(x)) == cal.dateOf(x))
    && (forall t, x :: cal.dateOf(t) == cal.dateOf(x) ==> t <= cal.endOfDay(x))
  }

  /** `new Date(p.timestamp || 0).toDateString() === day`. */
  function OnDay(cal: Calendar, day: CivilDate): Payment -> bool {
    p => cal.dateOf(Time(p)) == day
  }

  datatype Range = Range(start: int, end: int)

  /** The date-range picker's `onChange`: two picked instants give a range whose
      end is moved to the end of its day; any other selection clears the range. */
  function PickRange(selected: seq<int>, cal: Calendar): (r: Option<Range>)
    ensures r.Some? <==> |selected| == 2
    ensures r.Some? ==> r.value.start == selected[0] && r.value.end == cal.endOfDay(selected[1])
  {
    if |selected| == 2 then Some(Range(selected[0], cal.endOfDay(selected[1]))) else None
  }

  /** The date filter, inclusive at both ends; no range lets everything through. */
  function InRange(range: Option<Range>): (keep: Payment -> bool)
    ensures range.None? ==> forall p :: keep(p)
    ensures range.Some? ==> forall p :: keep(p) <==> range.value.start <= Time(p) <= range.value.end
  {
    p => range.None? || (range.value.start <= Time(p) && Time(p) <= range.value.end)
  }

  /** A picked range keeps every payment of its last day that is not earlier
      than its start, however late in that day. */
  lemma PickedRangeCoversLastDay(selected: seq<int>, cal: Calendar, p: Payment)
    requires WellFormed(cal)
    requires |selected| == 2
    requires selected[0] <= Time(p) && cal.dateOf(Time(p)) == cal.dateOf(selected[1])
    ensures InRange(PickRange(selected, cal))(p)
  {
    var t, x := Time(p), selected[1];
    assert cal.dateOf(t) == cal.dateOf(x) ==> t <= cal.endOfDay(x);
  }

  /** `field && field.toLowerCase().includes(query)`. */
  predicate FieldMatches(field: Option<string>, query: string) {
    Truthy(field) && Contains(Lower(field.value), query)
  }
}
