/** The user's dashboard (js/user.js): the payments of the user's own device,
    newest first, the four running totals of `updateStats`, and the table
    that `applyFilters` narrows with the name, minimum-amount and date filters. */
module UserView {
  import opened Wrappers
  import opened Text
  import opened Seqs
  import opened Records
  import opened Payments
  import opened Auth

  // ----- Fetching -----

  /** The device whose payments the page subscribes to: only a stored user
      session (role "user") with a device code is fetched; otherwise nothing is. */
  function FetchTarget(currentUser: Option<Session>): (code: Option<string>)
    ensures code.Some? <==> currentUser.Some? && currentUser.value.role == "user" && Truthy(currentUser.value.deviceCode)
    ensures code.Some? ==> code.value != "" && currentUser.value.deviceCode == Some(code.value)
  {
    if currentUser.Some? && currentUser.value.role == "user" && Truthy(currentUser.value.deviceCode)
    then Some(currentUser.value.deviceCode.value)
    else None
  }

  /** What `orderByChild('deviceCode').equalTo(code)` selects of the `payments` table. */
  function DeviceQuery(payments: map<string, Payment>, code: string): (q: map<string, Payment>)
    ensures q.Keys <= payments.Keys
    ensures forall k | k in q :: q[k] == payments[k] && q[k].deviceCode == Some(code)
    ensures forall k | k in payments && payments[k].deviceCode == Some(code) :: k in q
  {
    map k | k in payments && payments[k].deviceCode == Some(code) :: payments[k]
  }

  /** The snapshot listener's first step: no data gives no payments, otherwise
      the snapshot's payments newest first. */
  function PaymentsOfSnapshot(val: Option<map<string, Payment>>, order: seq<string>): (r: seq<Payment>)
    requires Enumerates(order, Snapshot(val))
    ensures val.None? ==> r == []
    ensures SortedByTime(r)
    ensures multiset(r) == multiset(Values(Snapshot(val), order))
    ensures forall p | p in r :: p in Snapshot(val).Values
    ensures forall p | p in Snapshot(val).Values :: p in r
  {
    var m := Snapshot(val);
    EnumeratesSize(m, order);
    SortedValuesMembers(m, order);
    SortByTime(Values(m, order))
  }

  lemma SortedValuesMembers(m: map<string, Payment>, order: seq<string>)
    requires Enumerates(order, m)
    ensures forall p | p in SortByTime(Values(m, order)) :: p in m.Values
    ensures forall p | p in m.Values :: p in SortByTime(Values(m, order))
  {
    var vs := Values(m, order);
    var s := SortByTime(vs);
    ValuesMembers(m, order);
    forall p | p in s ensures p in m.Values {
      assert p in multiset(s);
      assert p in vs;
    }
    forall p | p in m.Values ensures p in s {
      assert p in vs;
      assert p in multiset(vs);
    }
  }

  /** The page holds only payments of the device it asked for. */
  lemma OnlyOwnDevice(payments: map<string, Payment>, code: string, order: seq<string>)
    requires Enumerates(order, DeviceQuery(payments, code))
    ensures forall p | p in PaymentsOfSnapshot(Some(DeviceQuery(payments, code)), order) ::
      p.deviceCode == Some(code) && p in payments.Values
  {
    var q := DeviceQuery(payments, code);
    forall p | p in PaymentsOfSnapshot(Some(q), order)
      ensures p.deviceCode == Some(code) && p in payments.Values
    {
      assert p in q.Values;
      var k :| k in q && q[k] == p;
      assert payments[k] == p;
    }
  }

  // ----- Totals -----

  /** The four figures of `updateStats`. */
  datatype Stats = Stats(today: int, month: int, year: int, total: int)

  /** `pDate.getFullYear() === currentYear`. */
  function InYear(cal: Calendar, day: CivilDate): Payment -> bool {
    (p: Payment) => cal.dateOf(Time(p)).year == day.year
  }

  /** The year test and then `pDate.getMonth() === currentMonth`. */
  function InMonth(cal: Calendar, day: CivilDate): Payment -> bool {
    (p: Payment) => cal.dateOf(Time(p)).year == day.year && cal.dateOf(Time(p)).month == day.month
  }

  /** The totals as sums over the payments each test keeps: those of `day`,
      of its month, of its year, and all of them. */
  function StatsOf(ps: seq<Payment>, cal: Calendar, day: CivilDate): Stats {
    Stats(Sum(Filter(ps, OnDay(cal, day))), Sum(Filter(ps, InMonth(cal, day))),
          Sum(Filter(ps, InYear(cal, day))), Sum(ps))
  }

  /** The `forEach` of `updateStats`, with its nested tests: a payment counts
      toward the month only within the year, and toward today only within the
      month as well. */
  method UpdateStats(ps: seq<Payment>, cal: Calendar, now: int) returns (stats: Stats)
    ensures stats == StatsOf(ps, cal, cal.dateOf(now))
  {
    var day := cal.dateOf(now);
    var onDay, inMonth, inYear := OnDay(cal, day), InMonth(cal, day), InYear(cal, day);
    var todaySum, monthSum, yearSum, totalSum := 0, 0, 0, 0;
    var i := 0;
    while i < |ps|
      invariant 0 <= i <= |ps|
      invariant totalSum == Sum(ps[..i])
      invariant yearSum == Sum(Filter(ps[..i], inYear))
      invariant monthSum == Sum(Filter(ps[..i], inMonth))
      invariant todaySum == Sum(Filter(ps[..i], onDay))
    {
      TallyStep(ps, i, inYear);
      TallyStep(ps, i, inMonth);
      TallyStep(ps, i, onDay);
      var amount := Amount(ps[i]);
      var pDate := cal.dateOf(Time(ps[i]));
      totalSum := totalSum + amount;
      if pDate.year == day.year {
        yearSum := yearSum + amount;
        if pDate.month == day.month {
          monthSum := monthSum + amount;
          if pDate == day {
            todaySum := todaySum + amount;
          }
        }
      }
      i := i + 1;
    }
    assert ps[..|ps|] == ps;
    stats := Stats(todaySum, monthSum, yearSum, totalSum);
  }

  /** With no negative amounts the totals nest: today, then the month, then
      the year, then everything. */
  lemma StatsNest(ps: seq<Payment>, cal: Calendar, day: CivilDate)
    requires NonNegative(ps)
    ensures var s := StatsOf(ps, cal, day);
      s.today <= s.month <= s.year <= s.total
  {
    SumFilterMonotone(ps, OnDay(cal, day), InMonth(cal, day));
    SumFilterMonotone(ps, InMonth(cal, day), InYear(cal, day));
    SumFilterMonotone(ps, InYear(cal, day), Everything());
    SumOfAll(ps);
  }

  /** A payment whose amount is not a number adds nothing to any total: every
      total is the same over the numeric payments alone. */
  lemma NonNumericInNoTotal(ps: seq<Payment>, inBucket: Payment -> bool)
    ensures Sum(Filter(ps, inBucket)) == Sum(Filter(ps, Both(inBucket, IsNumeric)))
  {
    FilterFilter(ps, inBucket, IsNumeric);
    NonNumericAddsNothing(Filter(ps, inBucket));
  }

  // ----- Filters -----

  /** Filter 1: the lower-cased name text inside the lower-cased sender (a
      payment without a sender never matches); empty text keeps every payment. */
  function NameMatch(query: string): (keep: Payment -> bool)
    ensures query == "" ==> forall p :: keep(p)
    ensures query != "" ==> forall p :: keep(p) <==> FieldMatches(p.sender, query)
  {
    (p: Payment) => query == "" || FieldMatches(p.sender, query)
  }

  /** Filter 2: at least the minimum amount (a non-numeric amount counting as
      0); a minimum that reads as no number keeps every payment. */
  function AtLeast(minAmount: Option<int>): (keep: Payment -> bool)
    ensures minAmount.None? ==> forall p :: keep(p)
    ensures minAmount.Some? ==> forall p :: keep(p) <==> Amount(p) >= minAmount.value
  {
    (p: Payment) => minAmount.None? || Amount(p) >= minAmount.value
  }

  /** What `applyFilters` keeps: the three filters at once, the third being
      the date range. */
  function UserKeeps(query: string, minAmount: Option<int>, range: Option<Range>): Payment -> bool {
    Both(Both(NameMatch(query), AtLeast(minAmount)), InRange(range))
  }

  /** A payment is kept exactly when it passes every filter that is set. */
  lemma KeptPassesEveryFilter(s: seq<Payment>, query: string, minAmount: Option<int>, range: Option<Range>)
    ensures forall p | p in Filter(s, UserKeeps(query, minAmount, range)) ::
      && p in s
      && (query != "" ==> Truthy(p.sender) && Contains(Lower(p.sender.value), query))
      && (minAmount.Some? ==> Amount(p) >= minAmount.value)
      && (range.Some? ==> range.value.start <= Time(p) <= range.value.end)
    ensures forall p | p in s
      && (query != "" ==> Truthy(p.sender) && Contains(Lower(p.sender.value), query))
      && (minAmount.Some? ==> Amount(p) >= minAmount.value)
      && (range.Some? ==> range.value.start <= Time(p) <= range.value.end) ::
      p in Filter(s, UserKeeps(query, minAmount, range))
  {
    FilterMembers(s, UserKeeps(query, minAmount, range));
  }

  /** With a name text, a payment without a sender is not shown. */
  lemma NoSenderNotShown(s: seq<Payment>, query: string, minAmount: Option<int>, range: Option<Range>, p: Payment)
    requires query != "" && !Truthy(p.sender)
    ensures p !in Filter(s, UserKeeps(query, minAmount, range))
  {
    FilterMembers(s, UserKeeps(query, minAmount, range));
  }

  /** With no filter set, every payment is shown. */
  lemma UnsetFiltersKeepAll(s: seq<Payment>)
    ensures Filter(s, UserKeeps("", None, None)) == s
  {
    FilterAllPass(s, UserKeeps("", None, None));
  }

  /** The three steps of `applyFilters`, each taken only when its filter is set,
      keep what the three filters together keep. */
  method FilterPayments(all: seq<Payment>, query: string, minAmount: Option<int>, range: Option<Range>)
    returns (r: seq<Payment>)
    ensures r == Filter(all, UserKeeps(query, minAmount, range))
  {
    var byName, byAmount, byDate := NameMatch(query), AtLeast(minAmount), InRange(range);
    r := all;
    if query != "" {
      r := Filter(r, byName);
    } else {
      FilterAllPass(all, byName);
    }
    ghost var stage1 := r;
    if minAmount.Some? {
      r := Filter(r, byAmount);
    } else {
      FilterAllPass(stage1, byAmount);
    }
    ghost var stage2 := r;
    if range.Some? {
      r := Filter(r, byDate);
    } else {
      FilterAllPass(stage2, byDate);
    }
    FilterFilter(all, byName, byAmount);
    FilterFilter(all, Both(byName, byAmount), byDate);
  }

  // ----- The table -----

  /** At most this many rows are drawn. */
  const MaxRows: nat := 100

  /** What `renderTable` shows: the number of payments, the rows it draws, and
      whether it draws the "no payments" row instead. */
  datatype TableView = TableView(count: nat, rows: seq<Payment>, placeholder: bool)

  /** `renderTable`: the count is of every payment, the rows are the first
      hundred of them, and an empty list shows the placeholder row. */
  function RenderTable(payments: seq<Payment>): (v: TableView)
    ensures v.count == |payments|
    ensures v.placeholder <==> payments == []
    ensures |v.rows| == if |payments| < MaxRows then |payments| else MaxRows
    ensures IsSubseq(v.rows, payments)
    ensures SortedByTime(payments) ==> SortedByTime(v.rows)
    ensures SortedByTime(payments) ==>
      forall p | p in payments && v.rows != [] && Time(p) > Time(v.rows[|v.rows| - 1]) :: p in v.rows
    ensures SortedByTime(payments) ==>
      forall p | v.rows != [] && Time(p) > Time(v.rows[|v.rows| - 1]) :: multiset(v.rows)[p] == multiset(payments)[p]
  {
    TableView(|payments|, First(payments, MaxRows), payments == [])
  }

  // ----- The page -----

  /** The page's state: the stored session, the payments the listener last
      stored, and the picked date range. */
  class UserDashboard {
    const currentUser: Option<Session>
    var allPayments: seq<Payment>
    var dateRange: Option<Range>

    /** The list is kept newest first. */
    ghost predicate Valid()
      reads this
    {
      SortedByTime(allPayments)
    }

    constructor (user: Option<Session>)
      ensures currentUser == user && allPayments == [] && dateRange == None
      ensures Valid()
    {
      currentUser, allPayments, dateRange := user, [], None;
    }

    /** `applyFilters`, with the two inputs as the page reads them: the
        shown payments keep the list's order, so they are newest first too. */
    method ApplyFilters(nameInput: string, minAmount: Option<int>) returns (filtered: seq<Payment>, view: TableView)
      requires Valid()
      ensures filtered == Filter(allPayments, UserKeeps(Lower(nameInput), minAmount, dateRange))
      ensures IsSubseq(filtered, allPayments)
      ensures SortedByTime(filtered)
      ensures view == RenderTable(filtered)
    {
      filtered := FilterPayments(allPayments, Lower(nameInput), minAmount, dateRange);
      FilterIsSubseq(allPayments, UserKeeps(Lower(nameInput), minAmount, dateRange));
      FilterKeepsOrder(allPayments, UserKeeps(Lower(nameInput), minAmount, dateRange));
      view := RenderTable(filtered);
    }

    /** The payments listener: it stores the snapshot's payments newest first,
        then recomputes the totals and the table. */
    method OnPaymentsSnapshot(val: Option<map<string, Payment>>, order: seq<string>, cal: Calendar, now: int,
                              nameInput: string, minAmount: Option<int>)
      returns (stats: Stats, filtered: seq<Payment>, view: TableView)
      requires Enumerates(order, Snapshot(val))
      modifies this`allPayments
      ensures allPayments == PaymentsOfSnapshot(val, order)
      ensures Valid()
      ensures stats == StatsOf(allPayments, cal, cal.dateOf(now))
      ensures filtered == Filter(allPayments, UserKeeps(Lower(nameInput), minAmount, dateRange))
      ensures SortedByTime(filtered)
      ensures view == RenderTable(filtered)
    {
      allPayments := PaymentsOfSnapshot(val, order);
      stats := UpdateStats(allPayments, cal, now);
      filtered, view := ApplyFilters(nameInput, minAmount);
    }

    /** The date picker's `onChange`: two picked days set the range (its end
        moved to the last instant of its day), anything else clears it; then
        the table is filtered again. */
    method OnDateRangeChange(selected: seq<int>, cal: Calendar, nameInput: string, minAmount: Option<int>)
      returns (filtered: seq<Payment>, view: TableView)
      requires Valid()
      modifies this`dateRange
      ensures dateRange == PickRange(selected, cal)
      ensures filtered == Filter(allPayments, UserKeeps(Lower(nameInput), minAmount, dateRange))
      ensures SortedByTime(filtered)
      ensures view == RenderTable(filtered)
    {
      dateRange := PickRange(selected, cal);
      filtered, view := ApplyFilters(nameInput, minAmount);
    }
  }
}
