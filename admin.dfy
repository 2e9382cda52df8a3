/** The admin panel (js/admin.js): the devices table with its order, badges
    and buttons, the writes those buttons make, the dashboard figures, and the
    payments report with its filters and owner column. */
module Admin {
  import opened Wrappers
  import opened Text
  import opened Seqs
  import opened Records
  import opened Payments
  import opened Accounts

  // ----- Devices table -----

  predicate IsPending(d: Device) {
    d.status == Some("pending")
  }

  /** `d.createdAt || 0`. */
  function CreatedAt(d: Device): int {
    d.createdAt.GetOr(0)
  }

  /** The comparator of the devices table: pending devices first, then the
      most recently created. */
  function CompareDevices(a: Device, b: Device): (r: int)
    ensures r < 0 <==> (IsPending(a) && !IsPending(b)) || (IsPending(a) == IsPending(b) && CreatedAt(a) > CreatedAt(b))
    ensures r == 0 <==> IsPending(a) == IsPending(b) && CreatedAt(a) == CreatedAt(b)
  {
    if IsPending(a) && !IsPending(b) then -1
    else if !IsPending(a) && IsPending(b) then 1
    else CreatedAt(b) - CreatedAt(a)
  }

  /** Ordered as that comparator asks. */
  predicate DevicesOrdered(s: seq<Device>) {
    forall i, j :: 0 <= i < j < |s| ==> CompareDevices(s[i], s[j]) <= 0
  }

  /** The devices order means: every pending device comes before every other
      device, and within each of the two groups the newer device comes first. */
  lemma DevicesOrderedMeaning(s: seq<Device>)
    ensures DevicesOrdered(s) <==>
      && (forall i, j :: 0 <= i < j < |s| && IsPending(s[j]) ==> IsPending(s[i]))
      && (forall i, j :: 0 <= i < j < |s| && IsPending(s[i]) == IsPending(s[j]) ==> CreatedAt(s[i]) >= CreatedAt(s[j]))
  {
  }

  /** Whatever the insertion into `tail` yields comes no earlier than `top`,
      when `x` and all of `tail` do not. */
  lemma InsertedAfter(top: Device, x: Device, tail: seq<Device>, rest: seq<Device>)
    requires CompareDevices(top, x) <= 0
    requires forall j :: 0 <= j < |tail| ==> CompareDevices(top, tail[j]) <= 0
    requires multiset(rest) == multiset(tail) + multiset{x}
    ensures forall j :: 0 <= j < |rest| ==> CompareDevices(top, rest[j]) <= 0
  {
    forall j | 0 <= j < |rest| ensures CompareDevices(top, rest[j]) <= 0 {
      var y := rest[j];
      assert y in multiset(rest);
      if y != x {
        assert y in multiset(tail);
        var k :| 0 <= k < |tail| && tail[k] == y;
      }
    }
  }

  /** The comparator orders consistently: it is transitive, and of two devices
      one may always come first. */
  lemma CompareDevicesOrders(a: Device, b: Device, c: Device)
    ensures CompareDevices(a, b) <= 0 && CompareDevices(b, c) <= 0 ==> CompareDevices(a, c) <= 0
    ensures CompareDevices(a, b) > 0 ==> CompareDevices(b, a) <= 0
  {
  }

  /** A device that comes no later than any device of an ordered list can
      head it. */
  lemma PrependDevice(x: Device, s: seq<Device>)
    requires DevicesOrdered(s)
    requires forall j :: 0 <= j < |s| ==> CompareDevices(x, s[j]) <= 0
    ensures DevicesOrdered([x] + s)
  {
    var r := [x] + s;
    forall i, j | 0 <= i < j < |r| ensures CompareDevices(r[i], r[j]) <= 0 {
      if i == 0 {
        assert r[j] == s[j - 1];
      } else {
        assert r[i] == s[i - 1] && r[j] == s[j - 1];
      }
    }
  }

  /** A device that comes no later than the head of an ordered list can head it. */
  lemma HeadsOrdered(x: Device, s: seq<Device>)
    requires DevicesOrdered(s)
    requires s != [] ==> CompareDevices(x, s[0]) <= 0
    ensures DevicesOrdered([x] + s)
  {
    forall j | 0 <= j < |s| ensures CompareDevices(x, s[j]) <= 0 {
      CompareDevicesOrders(x, s[0], s[j]);
    }
    PrependDevice(x, s);
  }

  /** When `x` goes after the head of `s`, the head followed by `x` inserted
      into the rest is ordered and holds the same devices. */
  lemma FollowsHead(x: Device, s: seq<Device>, rest: seq<Device>)
    requires DevicesOrdered(s) && s != [] && CompareDevices(x, s[0]) > 0
    requires DevicesOrdered(rest) && multiset(rest) == multiset(s[1..]) + multiset{x}
    ensures DevicesOrdered([s[0]] + rest)
    ensures multiset([s[0]] + rest) == multiset(s) + multiset{x}
  {
    var tail := s[1..];
    assert s == [s[0]] + tail;
    CompareDevicesOrders(x, s[0], x);
    assert forall j :: 0 <= j < |tail| ==> tail[j] == s[j + 1];
    InsertedAfter(s[0], x, tail, rest);
    PrependDevice(s[0], rest);
  }

  function InsertDevice(x: Device, s: seq<Device>): (r: seq<Device>)
    requires DevicesOrdered(s)
    ensures DevicesOrdered(r)
    ensures multiset(r) == multiset(s) + multiset{x}
  {
    if s == [] || CompareDevices(x, s[0]) <= 0 then
      HeadsOrdered(x, s);
      [x] + s
    else
      var tail := s[1..];
      var rest := InsertDevice(x, tail);
      FollowsHead(x, s, rest);
      [s[0]] + rest
  }

  /** `devices.sort(CompareDevices)`: the same devices, in the table's order
      (the order of devices the comparator ties is left open). */
  function SortDevices(s: seq<Device>): (r: seq<Device>)
    ensures DevicesOrdered(r)
    ensures multiset(r) == multiset(s)
    ensures |r| == |s|
  {
    if s == [] then []
    else
      assert s == [s[0]] + s[1..];
      InsertDevice(s[0], SortDevices(s[1..]))
  }

  datatype Badge = ApprovedBadge | RejectedBadge | PendingBadge

  /** `getStatusBadge`: approved and rejected have their own badge; any other
      status, a missing one included, shows as pending. */
  function StatusBadge(status: Option<string>): (b: Badge)
    ensures b == ApprovedBadge <==> status == Some("approved")
    ensures b == RejectedBadge <==> status == Some("rejected")
    ensures b == PendingBadge <==> status != Some("approved") && status != Some("rejected")
  {
    if status == Some("approved") then ApprovedBadge
    else if status == Some("rejected") then RejectedBadge
    else PendingBadge
  }

  /** A button of a device row: `updateDeviceStatus(code, target)` or
      `deleteDevice(code)`, with the key it writes to. */
  datatype Action = SetStatus(code: string, target: string) | Remove(code: string)

  /** The key a row's buttons write to: `'${device.code}'`, the record's own
      `code` field, which reads "undefined" when the record has none. */
  function ButtonKey(d: Device): string {
    d.code.GetOr("undefined")
  }

  /** The buttons of a device row. */
  function DeviceActions(d: Device): (r: seq<Action>)
    ensures |r| >= 2 && r[|r| - 1] == Remove(ButtonKey(d))
    ensures forall i :: 0 <= i < |r| - 1 ==> r[i].SetStatus?
    ensures forall a | a in r :: a.code == ButtonKey(d)
    ensures SetStatus(ButtonKey(d), "approved") in r <==> d.status != Some("approved")
    ensures SetStatus(ButtonKey(d), "rejected") in r <==> d.status == Some("pending") || d.status == Some("approved")
    ensures forall a | a in r :: a.Remove? || a.target == "approved" || a.target == "rejected"
    ensures forall a | a in r && a.SetStatus? :: d.status != Some(a.target)
  {
    var key := ButtonKey(d);
    if d.status == Some("pending") then [SetStatus(key, "approved"), SetStatus(key, "rejected"), Remove(key)]
    else if d.status == Some("approved") then [SetStatus(key, "rejected"), Remove(key)]
    else [SetStatus(key, "approved"), Remove(key)]
  }

  /** Badge and buttons side by side: an approved device can be suspended, a
      rejected one activated, a pending one approved or rejected; a device whose
      status is none of the three shows the pending badge yet offers only
      activation. */
  lemma BadgeAndActions(d: Device)
    ensures var key := ButtonKey(d);
      && (StatusBadge(d.status) == ApprovedBadge ==> DeviceActions(d) == [SetStatus(key, "rejected"), Remove(key)])
      && (StatusBadge(d.status) == RejectedBadge ==> DeviceActions(d) == [SetStatus(key, "approved"), Remove(key)])
      && (StatusBadge(d.status) == PendingBadge ==>
            DeviceActions(d) == if d.status == Some("pending") then [SetStatus(key, "approved"), SetStatus(key, "rejected"), Remove(key)]
                                else [SetStatus(key, "approved"), Remove(key)])
  {
  }

  /** The buttons of a row act on the key the device is stored under only when
      the record's `code` field repeats that key; a record without `code` sends
      every write to the key "undefined". */
  lemma ButtonsTargetStoredKey(devices: map<string, Device>, key: string)
    requires key in devices
    ensures devices[key].code == Some(key) ==> forall a | a in DeviceActions(devices[key]) :: a.code == key
    ensures devices[key].code.None? ==> forall a | a in DeviceActions(devices[key]) :: a.code == "undefined"
  {
  }

  // ----- Writes to the devices table -----

  /** `devicesRef.child(code).update({status, updatedAt})`, with `updatedAt`
      the store's timestamp of the write: only those two fields of the one
      device change. Under a key that holds nothing the update stores a record
      with just those two fields. */
  function SetDeviceStatus(devices: map<string, Device>, code: string, status: string, t: int): (r: map<string, Device>)
    ensures r.Keys == devices.Keys + {code}
    ensures forall k | k in devices && k != code :: r[k] == devices[k]
    ensures r[code].status == Some(status) && r[code].updatedAt == Some(t)
    ensures code in devices ==>
      var d := devices[code];
      && r[code].code == d.code && r[code].model == d.model
      && r[code].manufacturer == d.manufacturer && r[code].createdAt == d.createdAt
    ensures code !in devices ==>
      r[code].code.None? && r[code].model.None? && r[code].manufacturer.None? && r[code].createdAt.None?
  {
    var prior := if code in devices then devices[code] else Device(None, None, None, None, None, None);
    devices[code := prior.(status := Some(status), updatedAt := Some(t))]
  }

  /** Pressing the same status button twice leaves what pressing it once does,
      up to the timestamp of the last write. */
  lemma SetDeviceStatusTwice(devices: map<string, Device>, code: string, status: string, t1: int, t2: int)
    ensures SetDeviceStatus(SetDeviceStatus(devices, code, status, t1), code, status, t2)
         == SetDeviceStatus(devices, code, status, t2)
  {
    var once := SetDeviceStatus(devices, code, status, t2);
    var twice := SetDeviceStatus(SetDeviceStatus(devices, code, status, t1), code, status, t2);
    assert twice.Keys == once.Keys;
  }

  /** The keys of the devices awaiting a decision. */
  function PendingKeys(devices: map<string, Device>): set<string> {
    KeysWhere(devices, IsPending)
  }

  /** The badge's count of pending devices, taken over `Object.values`, is the
      number of keys whose device is pending. */
  lemma PendingCountOfTable(devices: map<string, Device>, order: seq<string>)
    requires Enumerates(order, devices)
    ensures |Filter(Values(devices, order), IsPending)| == |PendingKeys(devices)|
  {
    CountMatching(devices, order, IsPending);
  }

  /** Approving or rejecting a device takes it, and only it, off the pending list. */
  lemma DecisionLeavesPending(devices: map<string, Device>, code: string, status: string, t: int)
    requires status != "pending"
    ensures PendingKeys(SetDeviceStatus(devices, code, status, t)) == PendingKeys(devices) - {code}
  {
    var r := SetDeviceStatus(devices, code, status, t);
    assert !IsPending(r[code]);
  }

  /** Deleting a device takes it, and only it, off the pending list. */
  lemma RemoveLeavesPending(devices: map<string, Device>, code: string)
    ensures PendingKeys(RemoveKey(devices, code)) == PendingKeys(devices) - {code}
  {
  }

  /** Once approved, a device is offered to new users exactly when no user holds
      its code; once rejected, it is not offered. */
  lemma DecisionAndAvailability(devices: map<string, Device>, users: map<string, User>, code: string, t: int)
    ensures var d := SetDeviceStatus(devices, code, "approved", t)[code];
      IsAvailable(d, users) <==> forall k | k in users :: users[k].deviceCode != d.code
    ensures !IsAvailable(SetDeviceStatus(devices, code, "rejected", t)[code], users)
  {
  }

  // ----- Dashboard -----

  /** The five newest payments of the dashboard's list: `payments.sort(...)`
      then `slice(0, 5)`. */
  function Recent(payments: seq<Payment>): (r: seq<Payment>)
    ensures |r| == if |payments| < 5 then |payments| else 5
    ensures SortedByTime(r)
    ensures multiset(r) <= multiset(payments)
    ensures forall p | p in payments && r != [] && Time(p) > Time(r[|r| - 1]) :: p in r
    ensures forall p | r != [] && Time(p) > Time(r[|r| - 1]) :: multiset(r)[p] == multiset(payments)[p]
  {
    var s := SortByTime(payments);
    SortedKeepsMembers(payments);
    First(s, 5)
  }

  /** The `forEach` of `renderDashboard`: the sum of all amounts, and the sum
      and number of the payments dated `today`. */
  method TallyPayments(ps: seq<Payment>, cal: Calendar, today: CivilDate)
    returns (totalSum: int, todaySum: int, todayCount: nat)
    ensures totalSum == Sum(ps)
    ensures todaySum == Sum(Filter(ps, OnDay(cal, today)))
    ensures todayCount == |Filter(ps, OnDay(cal, today))|
  {
    var onToday := OnDay(cal, today);
    totalSum, todaySum, todayCount := 0, 0, 0;
    var i := 0;
    while i < |ps|
      invariant 0 <= i <= |ps|
      invariant totalSum == Sum(ps[..i])
      invariant todaySum == Sum(Filter(ps[..i], onToday))
      invariant todayCount == |Filter(ps[..i], onToday)|
    {
      TallyStep(ps, i, onToday);
      var amt := Amount(ps[i]);
      totalSum := totalSum + amt;
      if cal.dateOf(Time(ps[i])) == today {
        todaySum := todaySum + amt;
        todayCount := todayCount + 1;
      }
      i := i + 1;
    }
    assert ps[..|ps|] == ps;
  }

  /** The figures `renderDashboard` writes into the page. */
  datatype Dashboard = Dashboard(
    totalDevices: nat,
    pendingDevices: nat,
    todaySum: int,
    todayCount: nat,
    totalSum: int,
    recent: seq<Payment>)

  /** With no negative amounts, today's takings never exceed the total. */
  lemma TodayAtMostTotal(payments: seq<Payment>, cal: Calendar, today: CivilDate)
    requires NonNegative(payments)
    ensures Sum(Filter(payments, OnDay(cal, today))) <= Sum(payments)
    ensures |Filter(payments, OnDay(cal, today))| <= |payments|
  {
    SumFilterMonotone(payments, OnDay(cal, today), Everything());
    SumOfAll(payments);
  }

  // ----- Payments report -----

  /** Filter 1 of the report: the chosen device code, or every payment when
      none is chosen. */
  function DeviceIs(selected: string): (keep: Payment -> bool)
    ensures selected == "" ==> forall p :: keep(p)
    ensures selected != "" ==> forall p :: keep(p) <==> p.deviceCode == Some(selected)
  {
    (p: Payment) => selected == "" || p.deviceCode == Some(selected)
  }

  /** Filter 3 of the report: the lower-cased search text inside the
      lower-cased sender or content, or every payment when the text is empty. */
  function TextMatch(query: string): (keep: Payment -> bool)
    ensures query == "" ==> forall p :: keep(p)
    ensures query != "" ==> forall p :: keep(p) <==> FieldMatches(p.sender, query) || FieldMatches(p.content, query)
  {
    (p: Payment) => query == "" || FieldMatches(p.sender, query) || FieldMatches(p.content, query)
  }

  /** What the report keeps: all three filters at once. */
  function ReportKeeps(selected: string, range: Option<Range>, query: string): (keep: Payment -> bool)
    ensures forall p :: keep(p) <==> DeviceIs(selected)(p) && InRange(range)(p) && TextMatch(query)(p)
  {
    Both(Both(DeviceIs(selected), InRange(range)), TextMatch(query))
  }

  /** With no device chosen, no range picked and no search text, the report
      keeps every payment. */
  lemma UnsetFiltersKeepAll(s: seq<Payment>)
    ensures Filter(s, ReportKeeps("", None, "")) == s
  {
    FilterAllPass(s, ReportKeeps("", None, ""));
  }

  /** A payment whose sender spells out the search text (typed in lower case)
      is found. */
  lemma SenderMentionFound(p: Payment, query: string)
    requires Lower(query) == query
    requires Truthy(p.sender) && Contains(p.sender.value, query)
    ensures TextMatch(query)(p)
  {
    ContainsLower(p.sender.value, query);
  }

  /** `Object.values(usersData).find(u => u.deviceCode === code)`, as an index. */
  function FindByDevice(users: seq<User>, code: Option<string>): (r: Option<nat>)
    ensures r.Some? ==> r.value < |users| && users[r.value].deviceCode == code
    ensures r.Some? ==> forall j :: 0 <= j < r.value ==> users[j].deviceCode != code
    ensures r.None? ==> forall j :: 0 <= j < |users| ==> users[j].deviceCode != code
  {
    if users == [] then None
    else if users[0].deviceCode == code then Some(0)
    else match FindByDevice(users[1..], code)
      case None => None
      case Some(i) => Some(i + 1)
  }

  /** `${user.username}` of a found user: its name, or "undefined" when the
      record has none. */
  function ShownName(u: User): string {
    u.username.GetOr("undefined")
  }

  /** The owner column of a report row. */
  function OwnerName(users: seq<User>, p: Payment): (r: string)
    ensures forall i | 0 <= i < |users| && users[i].deviceCode == p.deviceCode &&
                       (forall j :: 0 <= j < i ==> users[j].deviceCode != p.deviceCode) ::
      r == ShownName(users[i])
    ensures (forall i :: 0 <= i < |users| ==> users[i].deviceCode != p.deviceCode) ==>
      r == if Truthy(p.deviceCode) then p.deviceCode.value else "N/A"
  {
    match FindByDevice(users, p.deviceCode)
    case Some(i) => ShownName(users[i])
    case None => if Truthy(p.deviceCode) then p.deviceCode.value else "N/A"
  }

  /** When exactly one user of the table holds a payment's device, the report
      names that user, whatever the order of the table. */
  lemma SoleHolderIsOwner(users: map<string, User>, order: seq<string>, k: string, p: Payment)
    requires Enumerates(order, users)
    requires k in users && users[k].deviceCode == p.deviceCode
    requires forall k' | k' in users && k' != k :: users[k'].deviceCode != p.deviceCode
    ensures OwnerName(Values(users, order), p) == ShownName(users[k])
  {
    var us := Values(users, order);
    var i :| 0 <= i < |order| && order[i] == k;
    forall j | 0 <= j < i ensures us[j].deviceCode != p.deviceCode {
      assert order[j] != k;
    }
  }

  /** The three filters of `applyReportFilters`, each applied only when it is
      set, keep what the three together keep. */
  method ReportFilter(all: seq<Payment>, selected: string, range: Option<Range>, query: string)
    returns (r: seq<Payment>)
    ensures r == Filter(all, ReportKeeps(selected, range, query))
  {
    var byDevice, byRange, byText := DeviceIs(selected), InRange(range), TextMatch(query);
    r := all;
    if selected != "" {
      r := Filter(r, byDevice);
    } else {
      FilterAllPass(all, byDevice);
    }
    ghost var stage1 := r;
    if range.Some? {
      r := Filter(r, byRange);
    } else {
      FilterAllPass(stage1, byRange);
    }
    ghost var stage2 := r;
    if query != "" {
      r := Filter(r, byText);
    } else {
      FilterAllPass(stage2, byText);
    }
    FilterFilter(all, byDevice, byRange);
    FilterFilter(all, Both(byDevice, byRange), byText);
  }

  /** Sorting what a filter keeps of `Object.values` of a table gives exactly
      the stored payments that pass. */
  lemma SortedTableMembers(m: map<string, Payment>, order: seq<string>, f: Payment -> bool)
    requires Enumerates(order, m)
    ensures forall p | p in SortByTime(Filter(Values(m, order), f)) :: p in m.Values && f(p)
    ensures forall p | p in m.Values && f(p) :: p in SortByTime(Filter(Values(m, order), f))
  {
    var kept := Filter(Values(m, order), f);
    var sorted := SortByTime(kept);
    ValuesMembers(m, order);
    FilterMembers(Values(m, order), f);
    forall p | p in sorted ensures p in kept {
      assert p in multiset(sorted);
    }
    forall p | p in kept ensures p in sorted {
      assert p in multiset(kept);
    }
  }

  /** The owner column of the report, row by row. */
  method OwnerColumn(users: seq<User>, results: seq<Payment>) returns (owners: seq<string>)
    ensures |owners| == |results|
    ensures forall i :: 0 <= i < |results| ==> owners[i] == OwnerName(users, results[i])
  {
    owners := [];
    var i := 0;
    while i < |results|
      invariant 0 <= i <= |results|
      invariant |owners| == i
      invariant forall j :: 0 <= j < i ==> owners[j] == OwnerName(users, results[j])
    {
      var owner := OwnerName(users, results[i]);
      ghost var before := owners;
      owners := owners + [owner];
      assert forall j :: 0 <= j < i ==> owners[j] == before[j];
      i := i + 1;
    }
  }

  // ----- The page -----

  /** The page's state: the three tables as their listeners last stored them,
      and the report's date range. */
  class AdminPanel {
    var devices: map<string, Device>
    var users: map<string, User>
    var payments: map<string, Payment>
    var reportRange: Option<Range>

    constructor ()
      ensures devices == map[] && users == map[] && payments == map[] && reportRange == None
    {
      devices, users, payments, reportRange := map[], map[], map[], None;
    }

    /** `devicesRef.on('value', ...)`. */
    method OnDevicesValue(val: Option<map<string, Device>>)
      modifies this`devices
      ensures devices == Snapshot(val)
    {
      devices := Snapshot(val);
    }

    /** `usersRef.on('value', ...)`. */
    method OnUsersValue(val: Option<map<string, User>>)
      modifies this`users
      ensures users == Snapshot(val)
    {
      users := Snapshot(val);
    }

    /** `paymentsRef.on('value', ...)`. */
    method OnPaymentsValue(val: Option<map<string, Payment>>)
      modifies this`payments
      ensures payments == Snapshot(val)
    {
      payments := Snapshot(val);
    }

    /** The report's date picker. */
    method OnReportRangeChange(selected: seq<int>, cal: Calendar)
      modifies this`reportRange
      ensures reportRange == PickRange(selected, cal)
    {
      reportRange := PickRange(selected, cal);
    }

    /** `renderDashboard`: the device counts, the sums over every payment and
        over those of today's date, and the five newest payments. */
    method RenderDashboard(deviceOrder: seq<string>, paymentOrder: seq<string>, now: int, cal: Calendar)
      returns (view: Dashboard)
      requires Enumerates(deviceOrder, devices) && Enumerates(paymentOrder, payments)
      ensures var ps := Values(payments, paymentOrder);
        var today := Filter(ps, OnDay(cal, cal.dateOf(now)));
        && view.totalDevices == |devices|
        && view.pendingDevices == |PendingKeys(devices)|
        && view.totalSum == Sum(ps)
        && view.todaySum == Sum(today)
        && view.todayCount == |today|
        && view.recent == Recent(ps)
    {
      var ps := Values(payments, paymentOrder);
      var totalSum, todaySum, todayCount := TallyPayments(ps, cal, cal.dateOf(now));
      var ds := Values(devices, deviceOrder);
      EnumeratesSize(devices, deviceOrder);
      PendingCountOfTable(devices, deviceOrder);
      var pending := |Filter(ds, IsPending)|;
      view := Dashboard(|ds|, pending, todaySum, todayCount, totalSum, Recent(ps));
    }

    /** `updateDeviceStatus` once confirmed: users and payments are not touched. */
    method UpdateDeviceStatus(code: string, status: string, t: int)
      modifies this`devices
      ensures devices == SetDeviceStatus(old(devices), code, status, t)
      ensures users == old(users) && payments == old(payments)
    {
      devices := SetDeviceStatus(devices, code, status, t);
    }

    /** `deleteDevice` once confirmed: the payments of the device are kept, and
        so are the users. */
    method DeleteDevice(code: string)
      modifies this`devices
      ensures devices == RemoveKey(old(devices), code)
      ensures users == old(users) && payments == old(payments)
    {
      devices := RemoveKey(devices, code);
    }

    /** `showCreateUserModal`: the devices offered, and whether the form opens
        (it does not when there is nothing to offer). */
    method ShowCreateUserModal(deviceOrder: seq<string>, userOrder: seq<string>)
      returns (options: seq<Device>, shown: bool)
      requires Enumerates(deviceOrder, devices) && Enumerates(userOrder, users)
      ensures forall d | d in options :: d in devices.Values && IsAvailable(d, users)
      ensures forall d | d in devices.Values && IsAvailable(d, users) :: d in options
      ensures IsSubseq(options, Values(devices, deviceOrder))
      ensures forall d :: multiset(options)[d] == if IsAvailable(d, users) then multiset(Values(devices, deviceOrder))[d] else 0
      ensures shown <==> options != []
    {
      options := AvailableDevices(Values(devices, deviceOrder), Values(users, userOrder));
      AvailableDevicesOfTables(devices, deviceOrder, users, userOrder);
      shown := |options| > 0;
    }

    /** The create-user form's submit handler: the error it stops at, or the
        new table. */
    method SubmitCreateUser(usernameInput: string, passwordInput: string, deviceCode: string, createdAt: int)
      returns (error: Option<CreateError>)
      modifies this`users
      ensures var outcome := CreateUser(old(users), usernameInput, passwordInput, deviceCode, createdAt);
        && (outcome.Ok? ==> error == None && users == outcome.value)
        && (outcome.Err? ==> error == Some(outcome.error) && users == old(users))
      ensures devices == old(devices) && payments == old(payments)
    {
      var outcome := CreateUser(users, usernameInput, passwordInput, deviceCode, createdAt);
      if outcome.Ok? {
        users := outcome.value;
        error := None;
      } else {
        error := Some(outcome.error);
      }
    }

    /** `deleteUser` once confirmed. */
    method DeleteUser(username: string)
      modifies this`users
      ensures users == RemoveKey(old(users), username)
      ensures devices == old(devices) && payments == old(payments)
    {
      users := RemoveKey(users, username);
    }

    /** `applyReportFilters`: the payments that pass every active filter,
        newest first, each with its owner. */
    method ApplyReportFilters(selected: string, searchInput: string, paymentOrder: seq<string>, userOrder: seq<string>)
      returns (results: seq<Payment>, owners: seq<string>)
      requires Enumerates(paymentOrder, payments) && Enumerates(userOrder, users)
      ensures var keep := ReportKeeps(selected, reportRange, Lower(searchInput));
        && SortedByTime(results)
        && multiset(results) == multiset(Filter(Values(payments, paymentOrder), keep))
        && (forall p | p in results :: p in payments.Values && keep(p))
        && (forall p | p in payments.Values && keep(p) :: p in results)
      ensures |owners| == |results|
      ensures forall i :: 0 <= i < |results| ==> owners[i] == OwnerName(Values(users, userOrder), results[i])
    {
      var query := Lower(searchInput);
      var kept := ReportFilter(Values(payments, paymentOrder), selected, reportRange, query);
      results := SortByTime(kept);
      SortedTableMembers(payments, paymentOrder, ReportKeeps(selected, reportRange, query));
      owners := OwnerColumn(Values(users, userOrder), results);
    }
  }
}
