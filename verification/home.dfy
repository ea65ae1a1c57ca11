/** The Angular `HomeComponent` dashboard. `refresh` counts the equipment,
    the schedules and the work orders per status, shows the six work orders
    with the latest planned date, and the (at most six) work orders planned
    between the start of today and seven days later. Dates are instants in
    UTC: the browser's time zone is not modelled. */
module Home {
  import opened Common
  import opened Calendar
  import Maintenance

  const MsPerDay := 86400000
  /** ECMAScript's time range: at most 10^8 days either side of the epoch. */
  const MaxTime := 8640000000000000

  datatype RawInstant = RawInstant(date: Date, msOfDay: int)

  /** Milliseconds since the epoch. */
  function EpochMs(t: RawInstant): int
    requires 1 <= t.date.month <= 12
  {
    DayNumber(t.date) * MsPerDay + t.msOfDay
  }

  predicate ValidInstant(t: RawInstant) {
    Calendar.Valid(t.date) && 0 <= t.msOfDay < MsPerDay && -MaxTime <= EpochMs(t) <= MaxTime
  }

  /** A value a JavaScript `Date` can hold, read as a UTC calendar day and a
      time of day. */
  type Instant = t: RawInstant | ValidInstant(t) witness RawInstant(Date(1970, 1, 1), 0)

  /** A `plannedDate` as the API returns it: missing (undefined, null or
      the empty string), a string `new Date` cannot read, or an instant. */
  datatype DateField = NoDate | Unparseable | At(t: Instant)

  /** A `MaintenanceDto` row of the list; only the fields the dashboard
      reads. */
  datatype MaintenanceRow = MaintenanceRow(
    id: Option<string>,
    kind: string,
    status: Option<string>,
    plannedDate: DateField,
    equipmentId: Option<string>)

  /** `dateMs(d)`: `dateObj(d).getTime() || 0`, so a missing or unreadable
      date sorts as the epoch. */
  function DateMs(f: DateField): (ms: int)
    ensures f.At? ==> ms == EpochMs(f.t)
    ensures !f.At? ==> ms == 0
  {
    match f
    case At(t) => EpochMs(t)
    case _ => 0
  }

  function PlannedMs(m: MaintenanceRow): int {
    DateMs(m.plannedDate)
  }

  // ---------------------------------------------------------------------
  // `Array.prototype.sort` with a numeric comparator: a stable sort by key.

  predicate SortedBy<T>(s: seq<T>, key: T -> int) {
    forall i, j :: 0 <= i < j < |s| ==> key(s[i]) <= key(s[j])
  }

  /** Put `x` in front of the first element whose key is not smaller. */
  function InsertBy<T>(x: T, t: seq<T>, key: T -> int): (r: seq<T>)
    ensures multiset(r) == multiset(t) + multiset{x}
    ensures |r| == |t| + 1
    decreases t
  {
    if t == [] then [x]
    else if key(x) <= key(t[0]) then [x] + t
    else
      assert t == [t[0]] + t[1..];
      [t[0]] + InsertBy(x, t[1..], key)
  }

  function SortBy<T>(s: seq<T>, key: T -> int): (r: seq<T>)
    ensures multiset(r) == multiset(s)
    ensures |r| == |s|
    decreases s
  {
    if s == [] then []
    else
      assert s == [s[0]] + s[1..];
      InsertBy(s[0], SortBy(s[1..], key), key)
  }

  /** A sorted sequence stays sorted behind an element no larger than any
      of it. */
  lemma SortedCons<T>(a: T, rest: seq<T>, key: T -> int)
    requires SortedBy(rest, key)
    requires forall i :: 0 <= i < |rest| ==> key(a) <= key(rest[i])
    ensures SortedBy([a] + rest, key)
  {
    var r := [a] + rest;
    forall i, j | 0 <= i < j < |r| ensures key(r[i]) <= key(r[j]) {
      assert r[j] == rest[j - 1];
      if i > 0 {
        assert r[i] == rest[i - 1];
      }
    }
  }

  /** Every element of a sorted sequence is at least its first. */
  lemma SortedHeadSmallest<T>(t: seq<T>, key: T -> int, y: T)
    requires |t| >= 1 && SortedBy(t, key) && y in multiset(t[1..])
    ensures key(t[0]) <= key(y)
  {
    var j :| 0 <= j < |t[1..]| && t[1..][j] == y;
    assert t[j + 1] == y;
  }

  lemma {:induction false} InsertSorted<T>(x: T, t: seq<T>, key: T -> int)
    requires SortedBy(t, key)
    ensures SortedBy(InsertBy(x, t, key), key)
    decreases t
  {
    if t == [] {
    } else if key(x) <= key(t[0]) {
      SortedCons(x, t, key);
    } else {
      var rest := InsertBy(x, t[1..], key);
      assert SortedBy(t[1..], key);
      InsertSorted(x, t[1..], key);
      forall i | 0 <= i < |rest| ensures key(t[0]) <= key(rest[i]) {
        assert rest[i] in multiset(rest);
        if rest[i] != x {
          SortedHeadSmallest(t, key, rest[i]);
        }
      }
      SortedCons(t[0], rest, key);
    }
  }

  lemma {:induction false} SortSorted<T>(s: seq<T>, key: T -> int)
    ensures SortedBy(SortBy(s, key), key)
    decreases s
  {
    if s != [] {
      SortSorted(s[1..], key);
      InsertSorted(s[0], SortBy(s[1..], key), key);
    }
  }

  /** The filter that keeps the elements whose key is `k`. */
  function KeyIs<T>(key: T -> int, k: int): T -> bool {
    (x: T) => key(x) == k
  }

  /** Inserting `x` does not move it past an element of equal key. */
  lemma {:induction false} InsertStable<T>(x: T, t: seq<T>, key: T -> int, k: int)
    ensures Select(InsertBy(x, t, key), KeyIs(key, k)) == (if key(x) == k then [x] else []) + Select(t, KeyIs(key, k))
    decreases t
  {
    var p := KeyIs(key, k);
    if t == [] {
      assert Select([x], p) == (if p(x) then [x] else []) + Select([], p);
    } else if key(x) <= key(t[0]) {
      assert ([x] + t)[0] == x && ([x] + t)[1..] == t;
    } else {
      var rest := InsertBy(x, t[1..], key);
      InsertStable(x, t[1..], key, k);
      assert ([t[0]] + rest)[0] == t[0] && ([t[0]] + rest)[1..] == rest;
    }
  }

  /** The sort is stable: the elements of any one key keep their order. */
  lemma {:induction false} SortStable<T>(s: seq<T>, key: T -> int, k: int)
    ensures Select(SortBy(s, key), KeyIs(key, k)) == Select(s, KeyIs(key, k))
    decreases s
  {
    if s != [] {
      SortStable(s[1..], key, k);
      InsertStable(s[0], SortBy(s[1..], key), key, k);
    }
  }

  function Min(a: int, b: int): int {
    if a <= b then a else b
  }

  /** The first `n` elements of a sorted sequence bound every element left
      out, however many copies of it there are. */
  lemma PrefixIsSmallest<T>(s: seq<T>, all: seq<T>, key: T -> int, n: nat, x: T)
    requires SortedBy(s, key) && multiset(s) == multiset(all) && n <= |s|
    requires multiset(all)[x] > multiset(s[..n])[x]
    ensures forall i :: 0 <= i < n ==> key(s[i]) <= key(x)
  {
    assert s == s[..n] + s[n..];
    assert multiset(s) == multiset(s[..n]) + multiset(s[n..]);
    assert x in multiset(s[n..]);
    var j :| 0 <= j < |s[n..]| && s[n..][j] == x;
    assert s[n + j] == x;
  }

  // ---------------------------------------------------------------------
  // The dashboard lists.

  /** The key of `(a, b) => dateMs(b.plannedDate) - dateMs(a.plannedDate)`. */
  function LatestFirst(m: MaintenanceRow): int {
    -PlannedMs(m)
  }

  /** `[...all].sort(latest first).slice(0, 6)`. */
  function Recent(all: seq<MaintenanceRow>): seq<MaintenanceRow> {
    var sorted := SortBy(all, LatestFirst);
    sorted[..Min(6, |sorted|)]
  }

  lemma PrefixSorted<T>(s: seq<T>, key: T -> int, n: nat)
    requires SortedBy(s, key) && n <= |s|
    ensures SortedBy(s[..n], key)
  {
    assert forall i :: 0 <= i < n ==> s[..n][i] == s[i];
  }

  /** The first `n` elements of a sort are no larger than any element left
      out. */
  lemma SortPrefixIsSmallest<T>(all: seq<T>, key: T -> int, n: nat)
    requires n <= |all|
    ensures var r := SortBy(all, key)[..n];
            SortedBy(r, key) && multiset(r) <= multiset(all)
            && forall x :: multiset(all)[x] > multiset(r)[x] ==> forall i :: 0 <= i < |r| ==> key(r[i]) <= key(x)
  {
    var sorted := SortBy(all, key);
    SortSorted(all, key);
    PrefixSorted(sorted, key, n);
    assert sorted == sorted[..n] + sorted[n..];
    assert multiset(sorted) == multiset(sorted[..n]) + multiset(sorted[n..]);
    forall x | multiset(all)[x] > multiset(sorted[..n])[x]
      ensures forall i :: 0 <= i < n ==> key(sorted[..n][i]) <= key(x)
    {
      PrefixIsSmallest(sorted, all, key, n, x);
    }
  }

  /** Six work orders, latest planned date first, taken from the list; any
      work order left out is planned no later than each one shown. */
  lemma RecentSpec(all: seq<MaintenanceRow>)
    ensures var r := Recent(all);
            |r| == Min(6, |all|)
            && (forall i, j :: 0 <= i < j < |r| ==> PlannedMs(r[i]) >= PlannedMs(r[j]))
            && multiset(r) <= multiset(all)
            && forall x :: multiset(all)[x] > multiset(r)[x] ==>
                 forall i :: 0 <= i < |r| ==> PlannedMs(x) <= PlannedMs(r[i])
  {
    SortPrefixIsSmallest(all, LatestFirst, Min(6, |all|));
    var r := Recent(all);
    assert SortedBy(r, LatestFirst);
    assert forall i :: 0 <= i < |r| ==> LatestFirst(r[i]) == -PlannedMs(r[i]);
  }

  /** Work orders with the same planned date keep their list order. */
  lemma RecentKeepsTies(all: seq<MaintenanceRow>, ms: int)
    ensures Select(SortBy(all, LatestFirst), KeyIs(LatestFirst, -ms)) == Select(all, KeyIs(LatestFirst, -ms))
  {
    SortStable(all, LatestFirst, -ms);
  }

  /** `startOfToday()` for the UTC day `today`, in milliseconds. */
  function StartOf(today: Date): int
    requires Calendar.Valid(today)
  {
    DayNumber(today) * MsPerDay
  }

  /** `d >= now && d <= plus7` with `d = dateObj(m.plannedDate)`; NaN
      compares false, so a missing or unreadable date is never in the
      window. */
  predicate InWindow(today: Date, m: MaintenanceRow)
    requires Calendar.Valid(today)
  {
    m.plannedDate.At?
    && StartOf(today) <= EpochMs(m.plannedDate.t) <= StartOf(today) + 7 * MsPerDay
  }

  /** In calendar terms: planned on one of the seven days starting today,
      or exactly at midnight on the eighth. */
  lemma InWindowMeaning(today: Date, m: MaintenanceRow)
    requires Calendar.Valid(today) && m.plannedDate.At?
    ensures var t := m.plannedDate.t;
            var d := DayNumber(t.date) - DayNumber(today);
            InWindow(today, m) <==> (0 <= d < 7 || (d == 7 && t.msOfDay == 0))
  {
    var t := m.plannedDate.t;
    var d := DayNumber(t.date) - DayNumber(today);
    assert EpochMs(t) - StartOf(today) == d * MsPerDay + t.msOfDay;
    assert d <= -1 ==> d * MsPerDay <= -MsPerDay;
    assert d >= 8 ==> d * MsPerDay >= 8 * MsPerDay;
  }

  function WindowFilter(today: Date): MaintenanceRow -> bool
    requires Calendar.Valid(today)
  {
    (m: MaintenanceRow) => InWindow(today, m)
  }

  /** `all.filter(in window).sort(earliest first).slice(0, 6)`. */
  function Next7Days(all: seq<MaintenanceRow>, today: Date): seq<MaintenanceRow>
    requires Calendar.Valid(today)
  {
    var sorted := SortBy(Select(all, WindowFilter(today)), PlannedMs);
    sorted[..Min(6, |sorted|)]
  }

  /** Six work orders, or every one in the window when there are fewer,
      drawn from those in the window, none without a date, earliest first;
      any work order in the window that is left out is planned no earlier
      than each one shown. */
  lemma Next7DaysSpec(all: seq<MaintenanceRow>, today: Date)
    requires Calendar.Valid(today)
    ensures var r := Next7Days(all, today);
            var window := Select(all, WindowFilter(today));
            |r| == Min(6, |window|)
            && multiset(r) <= multiset(window)
            && (forall i :: 0 <= i < |r| ==> r[i] in all && InWindow(today, r[i]) && r[i].plannedDate.At?)
            && (forall i, j :: 0 <= i < j < |r| ==> PlannedMs(r[i]) <= PlannedMs(r[j]))
            && forall x :: x in all && InWindow(today, x) && x !in r ==>
                 forall i :: 0 <= i < |r| ==> PlannedMs(r[i]) <= PlannedMs(x)
  {
    Next7DaysPicked(all, today);
    Next7DaysEarliest(all, today);
    var window := Select(all, WindowFilter(today));
    var sorted := SortBy(window, PlannedMs);
    var k := Min(6, |sorted|);
    assert sorted == sorted[..k] + sorted[k..];
    assert multiset(sorted) == multiset(sorted[..k]) + multiset(sorted[k..]);
  }

  /** The part of the specification about what is shown. */
  lemma Next7DaysPicked(all: seq<MaintenanceRow>, today: Date)
    requires Calendar.Valid(today)
    ensures var r := Next7Days(all, today);
            (forall i :: 0 <= i < |r| ==> r[i] in all && InWindow(today, r[i]))
            && forall i, j :: 0 <= i < j < |r| ==> PlannedMs(r[i]) <= PlannedMs(r[j])
  {
    var picked := Select(all, WindowFilter(today));
    SortPrefixIsSmallest(picked, PlannedMs, Min(6, |picked|));
    var r := Next7Days(all, today);
    forall i | 0 <= i < |r| ensures r[i] in all && InWindow(today, r[i]) {
      assert r[i] in multiset(r);
    }
  }

  /** The part of the specification about what is left out. */
  lemma Next7DaysEarliest(all: seq<MaintenanceRow>, today: Date)
    requires Calendar.Valid(today)
    ensures var r := Next7Days(all, today);
            forall x :: x in all && InWindow(today, x) && x !in r ==>
              forall i :: 0 <= i < |r| ==> PlannedMs(r[i]) <= PlannedMs(x)
  {
    var picked := Select(all, WindowFilter(today));
    SortPrefixIsSmallest(picked, PlannedMs, Min(6, |picked|));
    var r := Next7Days(all, today);
    forall x | x in all && InWindow(today, x) && x !in r
      ensures forall i :: 0 <= i < |r| ==> PlannedMs(r[i]) <= PlannedMs(x)
    {
      WindowPicked(all, today, x);
    }
  }

  /** A work order in the list and in the window is among those filtered. */
  lemma WindowPicked(all: seq<MaintenanceRow>, today: Date, x: MaintenanceRow)
    requires Calendar.Valid(today) && x in all && InWindow(today, x)
    ensures multiset(Select(all, WindowFilter(today)))[x] > 0
  {
    SelectComplete(all, WindowFilter(today), x);
  }

  // ---------------------------------------------------------------------
  // Counts.

  function HasStatus(status: string): MaintenanceRow -> bool {
    (m: MaintenanceRow) => m.status == Some(status)
  }

  /** `all.filter(m => m.status === status).length`. */
  function CountStatus(all: seq<MaintenanceRow>, status: string): nat {
    |Select(all, HasStatus(status))|
  }

  /** The two statuses the dashboard counts, as the backend stores them. */
  const Pending := Maintenance.StatusName(Maintenance.EnAttente)
  const Done := Maintenance.StatusName(Maintenance.Terminee)

  /** Two filters that exclude each other select at most the whole list
      between them. */
  lemma {:induction false} DisjointSelections<T>(s: seq<T>, p: T -> bool, q: T -> bool)
    requires forall x :: x in s ==> !(p(x) && q(x))
    ensures |Select(s, p)| + |Select(s, q)| <= |s|
    decreases s
  {
    if s != [] {
      assert s[0] in s;
      DisjointSelections(s[1..], p, q);
    }
  }

  /** A work order is counted as pending, as done, or as neither. */
  lemma StatusCountsBounded(all: seq<MaintenanceRow>)
    ensures CountStatus(all, Pending) + CountStatus(all, Done) <= |all|
  {
    DisjointSelections(all, HasStatus(Pending), HasStatus(Done));
  }

  /** Counting with a status counts exactly the rows with that status. */
  lemma {:induction false} CountStatusAppend(a: seq<MaintenanceRow>, b: seq<MaintenanceRow>, status: string)
    ensures CountStatus(a + b, status) == CountStatus(a, status) + CountStatus(b, status)
  {
    SelectAppend(a, b, HasStatus(status));
  }

  /** `(rows || []).length`. */
  function LengthOrZero<T>(rows: Option<seq<T>>): (n: nat)
    ensures rows.None? ==> n == 0
    ensures rows.Some? ==> n == |rows.value|
  {
    if rows.None? then 0 else |rows.value|
  }

  // ---------------------------------------------------------------------
  // Display helpers.

  /** `short(id)`: the first eight characters and an ellipsis, or a dash. */
  function Short(id: Option<string>): (s: string)
    ensures !Truthy(id) ==> s == "—"
    ensures Truthy(id) ==>
              |s| == Min(8, |id.value|) + 1 && s[|s| - 1] == '…' && s[..|s| - 1] <= id.value
  {
    if Truthy(id) then id.value[..Min(8, |id.value|)] + "…" else "—"
  }

  /** Two ids look the same exactly when both are missing or they agree on
      their first eight characters. */
  lemma ShortCollides(a: Option<string>, b: Option<string>)
    ensures Short(a) == Short(b) <==>
              (!Truthy(a) && !Truthy(b))
              || (Truthy(a) && Truthy(b) && a.value[..Min(8, |a.value|)] == b.value[..Min(8, |b.value|)])
  {
    if Short(a) == Short(b) && Truthy(a) && Truthy(b) {
      var sa, sb := Short(a), Short(b);
      assert sa[..|sa| - 1] == a.value[..Min(8, |a.value|)];
      assert sb[..|sb| - 1] == b.value[..Min(8, |b.value|)];
    }
    if Truthy(a) != Truthy(b) {
      var s := if Truthy(a) then Short(a) else Short(b);
      assert s[|s| - 1] == '…';
      assert "—"[0] != '…';
    }
  }

  /** The value of a string of decimal digits. */
  function DigitsValue(s: string): nat
    requires forall i :: 0 <= i < |s| ==> '0' <= s[i] <= '9'
    decreases |s|
  {
    if s == [] then 0 else DigitsValue(s[..|s| - 1]) * 10 + (s[|s| - 1] as int - '0' as int)
  }

  function Pow10(w: nat): (p: nat)
    ensures p >= 1
  {
    if w == 0 then 1 else 10 * Pow10(w - 1)
  }

  function Zeros(k: nat): (z: string)
    ensures |z| == k && forall i :: 0 <= i < k ==> z[i] == '0'
  {
    seq(k, i => '0')
  }

  /** `String(n).padStart(w, '0')`. */
  function Pad(n: nat, w: nat): (s: string)
    ensures |s| >= w && |s| >= 1
    ensures forall i :: 0 <= i < |s| ==> '0' <= s[i] <= '9'
  {
    var digits := Decimal(n);
    if |digits| < w then Zeros(w - |digits|) + digits else digits
  }

  lemma {:induction false} DecimalValue(n: nat)
    ensures DigitsValue(Decimal(n)) == n
    decreases n
  {
    if n >= 10 {
      DecimalValue(n / 10);
      var s := Decimal(n);
      assert s[..|s| - 1] == Decimal(n / 10);
    }
  }

  lemma {:induction false} DecimalLength(n: nat, w: nat)
    requires w >= 1 && n < Pow10(w)
    ensures |Decimal(n)| <= w
    decreases n
  {
    assert Pow10(w) == 10 * Pow10(w - 1);
    assert w == 1 ==> Pow10(w) == 10;
    if n >= 10 {
      DecimalLength(n / 10, w - 1);
    }
  }

  lemma {:induction false} LeadingZeros(k: nat, s: string)
    requires forall i :: 0 <= i < |s| ==> '0' <= s[i] <= '9'
    ensures DigitsValue(Zeros(k) + s) == DigitsValue(s)
    decreases |s|, k
  {
    if s == [] {
      if k > 0 {
        assert (Zeros(k) + s)[..k - 1] == Zeros(k - 1) + [];
        LeadingZeros(k - 1, []);
      } else {
        assert Zeros(k) + s == [];
      }
    } else {
      var t := Zeros(k) + s;
      assert t[..|t| - 1] == Zeros(k) + s[..|s| - 1];
      LeadingZeros(k, s[..|s| - 1]);
    }
  }

  /** A padded number reads back as the number, in exactly `w` digits when
      it fits. */
  lemma PadValue(n: nat, w: nat)
    requires w >= 1 && n < Pow10(w)
    ensures |Pad(n, w)| == w && DigitsValue(Pad(n, w)) == n
  {
    DecimalLength(n, w);
    DecimalValue(n);
    if |Decimal(n)| < w {
      LeadingZeros(w - |Decimal(n)|, Decimal(n));
    }
  }

  /** The year of `toISOString()`: four digits, or a sign and six digits
      outside 0..9999. */
  function IsoYear(y: int): string {
    if 0 <= y <= 9999 then Pad(y, 4)
    else (if y < 0 then "-" else "+") + Pad(if y < 0 then -y else y, 6)
  }

  /** The date part of `toISOString()`, before the `T`. */
  function IsoDatePart(d: Date): (s: string)
    requires Calendar.Valid(d)
    ensures |s| >= 10
  {
    IsoYear(d.year) + "-" + Pad(d.month, 2) + "-" + Pad(d.day, 2)
  }

  /** `toDate(d)`: "" for a missing or unreadable date, else
      `toISOString().slice(0, 10)`. */
  function ToDate(f: DateField): (s: string)
    ensures !f.At? ==> s == ""
    ensures f.At? ==> |s| == 10
  {
    if f.At? then IsoDatePart(f.t.date)[..10] else ""
  }

  predicate IsDigit(c: char) {
    '0' <= c <= '9'
  }

  /** Reading a `yyyy-mm-dd` string back. */
  function ParseIsoDate(s: string): (d: Option<Date>)
    ensures d.Some? ==> 0 <= d.value.year <= 9999
  {
    if |s| == 10 && s[4] == '-' && s[7] == '-'
       && (forall i :: 0 <= i < 10 && i != 4 && i != 7 ==> IsDigit(s[i]))
    then
      assert forall i :: 0 <= i < 4 ==> s[..4][i] == s[i];
      var year := DigitsValue(s[..4]);
      DigitsBound(s[..4]);
      Some(Date(year, DigitsValue(s[5..7]), DigitsValue(s[8..10])))
    else None
  }

  lemma {:induction false} DigitsBound(s: string)
    requires forall i :: 0 <= i < |s| ==> '0' <= s[i] <= '9'
    ensures DigitsValue(s) < Pow10(|s|)
    decreases |s|
  {
    if s != [] {
      DigitsBound(s[..|s| - 1]);
    }
  }

  /** A date written as four, two and two digits reads back. */
  lemma ParseParts(y: string, m: string, dd: string)
    requires |y| == 4 && |m| == 2 && |dd| == 2
    requires forall i :: 0 <= i < 4 ==> '0' <= y[i] <= '9'
    requires forall i :: 0 <= i < 2 ==> '0' <= m[i] <= '9' && '0' <= dd[i] <= '9'
    ensures ParseIsoDate(y + "-" + m + "-" + dd) == Some(Date(DigitsValue(y), DigitsValue(m), DigitsValue(dd)))
  {
    var s := y + "-" + m + "-" + dd;
    assert s[..4] == y && s[5..7] == m && s[8..10] == dd;
    forall i | 0 <= i < 10 && i != 4 && i != 7 ensures IsDigit(s[i]) {
      if i < 4 {
        assert s[i] == y[i];
      } else if i < 7 {
        assert s[i] == m[i - 5];
      } else {
        assert s[i] == dd[i - 8];
      }
    }
  }

  /** For the years 0 to 9999 the shown date is the instant's calendar day,
      and reading it back gives that day. */
  lemma ToDateRoundTrip(t: Instant)
    requires 0 <= t.date.year <= 9999
    ensures ParseIsoDate(ToDate(At(t))) == Some(t.date)
  {
    var d := t.date;
    assert Pow10(2) == 100 && Pow10(4) == 10000;
    PadValue(d.year, 4);
    PadValue(d.month, 2);
    PadValue(d.day, 2);
    var y, m, dd := Pad(d.year, 4), Pad(d.month, 2), Pad(d.day, 2);
    var s := y + "-" + m + "-" + dd;
    assert IsoDatePart(d) == s;
    assert s[..10] == s;
    ParseParts(y, m, dd);
  }

  lemma PaddedExamples()
    ensures Pad(10000, 6) == "010000" && Pad(1, 2) == "01" && Pad(10, 2) == "10"
  {
    assert Decimal(1) == "1";
    assert Decimal(10) == "10";
    assert Decimal(100) == "100";
    assert Decimal(1000) == "1000";
    assert Decimal(10000) == "10000";
  }

  /** Past the year 9999 the ten characters kept stop inside the month:
      10 January 10000 is shown as "+010000-01". */
  lemma ToDateTruncatesExtendedYears()
    ensures IsoDatePart(Date(10000, 1, 10))[..10] == "+010000-01"
  {
    PaddedExamples();
    assert IsoDatePart(Date(10000, 1, 10)) == "+010000" + "-" + "01" + "-" + "10";
  }

  // ---------------------------------------------------------------------
  // The component.

  /** What a list request delivered: rows (possibly null) or an error. */
  datatype Response<T> = Rows(rows: Option<seq<T>>) | Failure

  const EquipmentError := "Erreur équipements"
  const SchedulingError := "Erreur planifications"
  const MaintenanceError := "Erreur maintenances"

  /** `error ||= message`: the first message stays. */
  function KeepFirst(error: string, message: string): string {
    if error == "" then message else error
  }

  /** The `counts` object behind the four tiles. */
  datatype Counts = Counts(equipments: nat, maintPending: nat, maintDone: nat, schedActive: nat)

  class HomeComponent {
    var counts: Counts
    var recentMaintenances: seq<MaintenanceRow>
    var next7Days: seq<MaintenanceRow>
    var loading: bool
    var error: string

    constructor ()
      ensures counts == Counts(0, 0, 0, 0)
      ensures recentMaintenances == [] && next7Days == [] && loading && error == ""
    {
      counts := Counts(0, 0, 0, 0);
      recentMaintenances, next7Days := [], [];
      loading, error := true, "";
    }

    /** The equipment subscriber: `(eqs || []).length`, or the first
        error message. */
    method OnEquipments<E>(response: Response<E>)
      modifies this
      ensures response.Rows? ==>
                counts == old(counts).(equipments := LengthOrZero(response.rows)) && error == old(error)
      ensures response.Failure? ==>
                counts == old(counts) && error == KeepFirst(old(error), EquipmentError)
      ensures recentMaintenances == old(recentMaintenances) && next7Days == old(next7Days) && loading == old(loading)
    {
      match response {
        case Rows(rows) => counts := counts.(equipments := LengthOrZero(rows));
        case Failure => error := KeepFirst(error, EquipmentError);
      }
    }

    /** The scheduling subscriber. */
    method OnSchedules<S>(response: Response<S>)
      modifies this
      ensures response.Rows? ==>
                counts == old(counts).(schedActive := LengthOrZero(response.rows)) && error == old(error)
      ensures response.Failure? ==>
                counts == old(counts) && error == KeepFirst(old(error), SchedulingError)
      ensures recentMaintenances == old(recentMaintenances) && next7Days == old(next7Days) && loading == old(loading)
    {
      match response {
        case Rows(rows) => counts := counts.(schedActive := LengthOrZero(rows));
        case Failure => error := KeepFirst(error, SchedulingError);
      }
    }

    /** The work-order `next` handler: both counts and both lists from
        `rows || []`. */
    method OnMaintenanceRows(today: Date, rows: Option<seq<MaintenanceRow>>)
      requires Calendar.Valid(today)
      modifies this
      ensures var all := rows.GetOr([]);
              counts == old(counts).(maintPending := CountStatus(all, Pending), maintDone := CountStatus(all, Done))
              && recentMaintenances == Recent(all) && next7Days == Next7Days(all, today)
      ensures loading == old(loading) && error == old(error)
    {
      var all := rows.GetOr([]);
      counts := counts.(maintPending := CountStatus(all, Pending), maintDone := CountStatus(all, Done));
      recentMaintenances := Recent(all);
      next7Days := Next7Days(all, today);
    }

    /** The work-order `error` handler. */
    method OnMaintenanceError()
      modifies this
      ensures error == KeepFirst(old(error), MaintenanceError)
      ensures counts == old(counts) && loading == old(loading)
      ensures recentMaintenances == old(recentMaintenances) && next7Days == old(next7Days)
    {
      error := KeepFirst(error, MaintenanceError);
    }

    /** The work-order `complete` handler. */
    method OnMaintenanceComplete()
      modifies this
      ensures !loading && error == old(error) && counts == old(counts)
      ensures recentMaintenances == old(recentMaintenances) && next7Days == old(next7Days)
    {
      loading := false;
    }

    /** `refresh()`, with the three responses delivered in subscription
        order. A failed list leaves its fields as they were; the loading
        flag is cleared only when the work-order list completes. */
    method Refresh<E, S>(today: Date, equipmentRows: Response<E>, scheduleRows: Response<S>, maintenanceRows: Response<MaintenanceRow>)
      requires Calendar.Valid(today)
      modifies this
      ensures equipmentRows.Rows? ==> counts.equipments == LengthOrZero(equipmentRows.rows)
      ensures equipmentRows.Failure? ==> counts.equipments == old(counts.equipments)
      ensures scheduleRows.Rows? ==> counts.schedActive == LengthOrZero(scheduleRows.rows)
      ensures scheduleRows.Failure? ==> counts.schedActive == old(counts.schedActive)
      ensures maintenanceRows.Rows? ==>
                var all := maintenanceRows.rows.GetOr([]);
                counts.maintPending == CountStatus(all, Pending) && counts.maintDone == CountStatus(all, Done)
                && recentMaintenances == Recent(all) && next7Days == Next7Days(all, today)
                && !loading
      ensures maintenanceRows.Failure? ==>
                counts.maintPending == old(counts.maintPending) && counts.maintDone == old(counts.maintDone)
                && recentMaintenances == old(recentMaintenances) && next7Days == old(next7Days)
                && loading
      ensures error == "" <==> equipmentRows.Rows? && scheduleRows.Rows? && maintenanceRows.Rows?
      ensures equipmentRows.Failure? ==> error == EquipmentError
      ensures equipmentRows.Rows? && scheduleRows.Failure? ==> error == SchedulingError
      ensures equipmentRows.Rows? && scheduleRows.Rows? && maintenanceRows.Failure? ==> error == MaintenanceError
    {
      loading := true;
      error := "";
      OnEquipments(equipmentRows);
      OnSchedules(scheduleRows);
      match maintenanceRows {
        case Rows(rows) =>
          OnMaintenanceRows(today, rows);
          OnMaintenanceComplete();
        case Failure =>
          OnMaintenanceError();
      }
    }
  }
}
