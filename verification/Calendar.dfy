/**
 Budget periods (`internal/billing/period.go`).

 Instants and offsets are integers in nanoseconds. A zone is the offset in force before its
 first transition followed by the transitions in time order; interval `k` of a zone lies
 between transitions `k - 1` and `k`.
 */
module Calendar {
  import opened Text

  const DAY := 86_400_000_000_000

  /** The zero `time.Time` (1 January of year 1) as nanoseconds from the Unix epoch. */
  const ZERO_TIME := -62_135_596_800_000_000_000

  datatype Cut = Cut(at: int, offset: int)
  datatype RawZone = RawZone(first: int, cuts: seq<Cut>)

  predicate Sorted(z: RawZone) {
    forall i, j :: 0 <= i < j < |z.cuts| ==> z.cuts[i].at < z.cuts[j].at
  }

  type Zone = z: RawZone | Sorted(z) witness RawZone(0, [])

  const UTC: Zone := RawZone(0, [])

  function Offset(z: Zone, k: nat): int
    requires k <= |z.cuts|
  {
    if k == 0 then z.first else z.cuts[k - 1].offset
  }

  /** Among the first `n` transitions, how many are at or before `t`. */
  function IndexUpTo(z: Zone, n: nat, t: int): (r: nat)
    requires n <= |z.cuts|
    ensures r <= n
    ensures forall i :: 0 <= i < r ==> z.cuts[i].at <= t
    ensures forall i :: r <= i < n ==> t < z.cuts[i].at
  {
    if n == 0 then 0
    else if z.cuts[n - 1].at <= t then n
    else IndexUpTo(z, n - 1, t)
  }

  /** The constant-offset interval that contains `t`. */
  function Index(z: Zone, t: int): (r: nat)
    ensures InInterval(z, r, t)
  {
    IndexUpTo(z, |z.cuts|, t)
  }

  predicate InInterval(z: Zone, k: nat, t: int) {
    && k <= |z.cuts|
    && (k > 0 ==> z.cuts[k - 1].at <= t)
    && (k < |z.cuts| ==> t < z.cuts[k].at)
  }

  lemma IntervalUnique(z: Zone, k: nat, t: int)
    requires InInterval(z, k, t)
    ensures Index(z, t) == k
  {
    if Index(z, t) < k {
      assert false;
    } else if k < Index(z, t) {
      assert false;
    }
  }

  /** Wall-clock reading at `t`, as a calendar coordinate. */
  function Local(z: Zone, t: int): int {
    t + Offset(z, Index(z, t))
  }

  /** `time.Date(y, m, d, 0, 0, 0, 0, loc)` as the Go runtime resolves it. */
  function Probe(z: Zone, date: int): (p: int)
    ensures exists k: nat :: k <= |z.cuts| && p == date - Offset(z, k)
  {
    var k := Index(z, date);
    var utc := date - Offset(z, k);
    if Offset(z, k) == 0 then assert date == date - Offset(z, k); date
    else if InInterval(z, k, utc) then utc
    else date - Offset(z, Index(z, utc))
  }

  /** The earliest instant of interval `k` whose wall clock is at or past `date`. */
  function Candidate(z: Zone, date: int, k: nat): Option<int>
    requires k <= |z.cuts|
  {
    var raw := date - Offset(z, k);
    var c := if k > 0 && raw < z.cuts[k - 1].at then z.cuts[k - 1].at else raw;
    if k < |z.cuts| && z.cuts[k].at <= c then None else Some(c)
  }

  function Earlier(a: Option<int>, b: Option<int>): Option<int> {
    if a.None? then b
    else if b.None? then a
    else if b.value < a.value then b else a
  }

  predicate Within(z: Zone, ks: seq<nat>) {
    forall i :: 0 <= i < |ks| ==> ks[i] <= |z.cuts|
  }

  /** The intervals `localDayStart` looks at: the probe's, the one before and the one after. */
  function Probed(z: Zone, j: nat): (ks: seq<nat>)
    requires j <= |z.cuts|
    ensures Within(z, ks)
    ensures forall k: nat :: k <= |z.cuts| ==> (k in ks <==> k <= j + 1 && j <= k + 1)
  {
    [j] + (if j > 0 then [j - 1] else []) + (if j < |z.cuts| then [j + 1] else [])
  }

  function BestOf(z: Zone, date: int, ks: seq<nat>): Option<int>
    requires Within(z, ks)
  {
    if |ks| == 0 then None
    else Earlier(BestOf(z, date, ks[..|ks| - 1]), Candidate(z, date, ks[|ks| - 1]))
  }

  /** `None` stands for the zero `time.Time`, returned when no probed interval has a candidate. */
  function LocalDayStart(z: Zone, date: int): Option<int> {
    BestOf(z, date, Probed(z, Index(z, Probe(z, date))))
  }

  function ProbeInstants(z: Zone, probe: int): (ps: seq<int>) {
    var j := Index(z, probe);
    [probe] + (if j > 0 then [z.cuts[j - 1].at - 1] else []) + (if j < |z.cuts| then [z.cuts[j].at] else [])
  }

  lemma ProbeInstantsCover(z: Zone, probe: int)
    ensures var ps, ks := ProbeInstants(z, probe), Probed(z, Index(z, probe));
            |ps| == |ks| && forall i :: 0 <= i < |ps| ==> Index(z, ps[i]) == ks[i]
  {
    var ps, ks := ProbeInstants(z, probe), Probed(z, Index(z, probe));
    forall i | 0 <= i < |ps| ensures Index(z, ps[i]) == ks[i] {
      IntervalUnique(z, ks[i], ps[i]);
    }
  }

  lemma BestOfStep(z: Zone, date: int, ks: seq<nat>, i: nat)
    requires Within(z, ks) && i < |ks|
    ensures BestOf(z, date, ks[..i + 1]) == Earlier(BestOf(z, date, ks[..i]), Candidate(z, date, ks[i]))
  {
    assert ks[..i + 1][..i] == ks[..i];
  }

  /** The loop of `localDayStart`: clamp each interval's midnight to the interval, keep the minimum. */
  method EarliestCandidate(z: Zone, date: int, probes: seq<int>, ghost ks: seq<nat>)
    returns (earliest: int, found: bool)
    requires |probes| == |ks| && forall i :: 0 <= i < |probes| ==> Index(z, probes[i]) == ks[i]
    ensures Within(z, ks)
    ensures BestOf(z, date, ks) == if found then Some(earliest) else None
  {
    earliest, found := 0, false;
    for i := 0 to |probes|
      invariant BestOf(z, date, ks[..i]) == if found then Some(earliest) else None
    {
      var k := Index(z, probes[i]);
      BestOfStep(z, date, ks, i);
      var candidate := date - Offset(z, k);
      if k > 0 && candidate < z.cuts[k - 1].at {
        candidate := z.cuts[k - 1].at;
      }
      if k < |z.cuts| && z.cuts[k].at <= candidate {
        continue;
      }
      if !found || candidate < earliest {
        earliest, found := candidate, true;
      }
    }
    assert ks[..|probes|] == ks;
  }

  method ComputeLocalDayStart(z: Zone, date: int) returns (earliest: int, found: bool)
    ensures LocalDayStart(z, date) == if found then Some(earliest) else None
  {
    var probe := Probe(z, date);
    ProbeInstantsCover(z, probe);
    earliest, found := EarliestCandidate(z, date, ProbeInstants(z, probe), Probed(z, Index(z, probe)));
  }

  // ---------------------------------------------------------------------------------------
  // The first instant of a local day
  // ---------------------------------------------------------------------------------------

  /** `t` is the earliest instant whose wall clock is at or past `date`. */
  ghost predicate FirstAtOrPast(z: Zone, date: int, t: int) {
    Local(z, t) >= date && forall u :: u < t ==> Local(z, u) < date
  }

  lemma CandidateMeaning(z: Zone, date: int, k: nat)
    requires k <= |z.cuts|
    ensures Candidate(z, date, k).None? ==> forall t :: InInterval(z, k, t) ==> Local(z, t) < date
    ensures Candidate(z, date, k).Some? ==>
              && InInterval(z, k, Candidate(z, date, k).value)
              && Local(z, Candidate(z, date, k).value) >= date
              && forall t :: InInterval(z, k, t) && t < Candidate(z, date, k).value ==> Local(z, t) < date
  {
    forall t | InInterval(z, k, t) ensures Local(z, t) == t + Offset(z, k) {
      IntervalUnique(z, k, t);
    }
    if k > 0 && k < |z.cuts| {
      assert z.cuts[k - 1].at < z.cuts[k].at;
    }
  }

  /** Some instant is the first: scan the intervals in time order for one that has a candidate. */
  lemma {:induction false} FirstExists(z: Zone, date: int, k: nat) returns (t: int)
    requires k <= |z.cuts|
    requires forall u :: Index(z, u) < k ==> Local(z, u) < date
    ensures FirstAtOrPast(z, date, t)
    decreases |z.cuts| - k
  {
    CandidateMeaning(z, date, k);
    var c := Candidate(z, date, k);
    if c.Some? {
      t := c.value;
    } else {
      t := FirstExists(z, date, k + 1);
    }
  }

  lemma {:induction false} BestOfMeaning(z: Zone, date: int, ks: seq<nat>)
    requires Within(z, ks)
    ensures BestOf(z, date, ks).Some? ==>
              exists k: nat :: k in ks && Candidate(z, date, k) == BestOf(z, date, ks)
    ensures forall k: nat :: k in ks && Candidate(z, date, k).Some? ==>
              BestOf(z, date, ks).Some? && BestOf(z, date, ks).value <= Candidate(z, date, k).value
  {
    if |ks| > 0 {
      var front, last := ks[..|ks| - 1], ks[|ks| - 1];
      BestOfMeaning(z, date, front);
      assert ks == front + [last];
    }
  }

  lemma FirstIsCandidate(z: Zone, date: int, t: int)
    requires FirstAtOrPast(z, date, t)
    ensures Candidate(z, date, Index(z, t)) == Some(t)
  {
    CandidateMeaning(z, date, Index(z, t));
  }

  lemma CandidateIsNotBefore(z: Zone, date: int, t: int, k: nat)
    requires FirstAtOrPast(z, date, t) && k <= |z.cuts| && Candidate(z, date, k).Some?
    ensures Index(z, Candidate(z, date, k).value) == k && t <= Candidate(z, date, k).value
  {
    CandidateMeaning(z, date, k);
    IntervalUnique(z, k, Candidate(z, date, k).value);
  }

  /** `localDayStart` is right exactly when the first instant lies in a probed interval. */
  lemma LocalDayStartExact(z: Zone, date: int, t: int)
    requires FirstAtOrPast(z, date, t)
    ensures var j, k := Index(z, Probe(z, date)), Index(z, t);
            LocalDayStart(z, date) == Some(t) <==> k <= j + 1 && j <= k + 1
  {
    hide Candidate, BestOf, Index, Probe, FirstAtOrPast;
    var j, k := Index(z, Probe(z, date)), Index(z, t);
    var ks := Probed(z, j);
    BestOfMeaning(z, date, ks);
    FirstIsCandidate(z, date, t);
    var best := LocalDayStart(z, date);
    if best.Some? {
      var m: nat :| m in ks && Candidate(z, date, m) == best;
      CandidateIsNotBefore(z, date, t, m);
    }
  }

  /** No two offsets of the zone differ by more than `w`, and every bounded constant-offset interval
      lasts at least `w`. */
  ghost predicate OutlastsSpread(z: Zone, w: int) {
    && (forall a: nat, b: nat :: a <= |z.cuts| && b <= |z.cuts| ==> Offset(z, a) - Offset(z, b) <= w)
    && (forall i, m :: 0 <= i < m < |z.cuts| ==> w <= z.cuts[m].at - z.cuts[i].at)
  }

  lemma CloseInstantsAreAdjacent(z: Zone, w: int, s: int, t: int)
    requires OutlastsSpread(z, w)
    requires s <= t <= s + w
    ensures Index(z, t) <= Index(z, s) + 1
  {
  }

  /** The probe and the first instant fall in the same or in adjacent intervals. */
  lemma ProbeIsNear(z: Zone, w: int, date: int, t: int, p: int, k: nat)
    requires OutlastsSpread(z, w) && FirstAtOrPast(z, date, t)
    requires k <= |z.cuts| && p == date - Offset(z, k)
    ensures Index(z, t) <= Index(z, p) + 1 && Index(z, p) <= Index(z, t) + 1
  {
    if t < p {
      CloseInstantsAreAdjacent(z, w, t, p);
    } else if p < t {
      // Just before `t` the wall clock still reads less than the date.
      assert Local(z, t - 1) < date;
      CloseInstantsAreAdjacent(z, w, p, t);
    }
  }

  /** `localDayStart` returns the earliest instant whose wall clock is at or past the date. */
  lemma LocalDayStartCorrect(z: Zone, w: int, date: int)
    requires OutlastsSpread(z, w)
    ensures LocalDayStart(z, date).Some? && FirstAtOrPast(z, date, LocalDayStart(z, date).value)
  {
    var t := FirstExists(z, date, 0);
    var p := Probe(z, date);
    var k: nat :| k <= |z.cuts| && p == date - Offset(z, k);
    ProbeIsNear(z, w, date, t, p, k);
    LocalDayStartExact(z, date, t);
  }

  // ---------------------------------------------------------------------------------------
  // Calendar periods
  // ---------------------------------------------------------------------------------------

  datatype Period = Daily | Weekly | Monthly | OtherPeriod

  /** Go's `%`: the remainder takes the sign of the dividend. */
  function GoMod(a: int, b: int): int
    requires b > 0
  {
    if a >= 0 then a % b else -((-a) % b)
  }

  /** `Weekday()` of day `d` counted from 1 January 1970, a Thursday; Sunday is 0. */
  function Weekday(d: int): (w: int)
    ensures 0 <= w < 7
  {
    (d + 4) % 7
  }

  predicate Leap(y: int) {
    y % 4 == 0 && (y % 100 != 0 || y % 400 == 0)
  }

  /** Length of month `m`, counted from January 1970. */
  function MonthDays(m: int): (n: int)
    ensures 28 <= n <= 31
  {
    var k := m % 12;
    if k == 1 then (if Leap(1970 + m / 12) then 29 else 28)
    else if k == 3 || k == 5 || k == 8 || k == 10 then 30
    else 31
  }

  /** First day of month `m` in the proleptic Gregorian calendar, counted from 1 January 1970. */
  function MonthStart(m: int): int
    decreases if m < 0 then -m else m
  {
    if m == 0 then 0
    else if m > 0 then MonthStart(m - 1) + MonthDays(m - 1)
    else MonthStart(m + 1) - MonthDays(m)
  }

  lemma {:induction false} MonthStartIncreasing(m: int, n: int)
    requires m < n
    ensures MonthStart(m) < MonthStart(n)
    decreases n - m
  {
    if m + 1 < n {
      MonthStartIncreasing(m + 1, n);
    }
  }

  /** The month containing day `d`, sought from month `m`. */
  function MonthFrom(m: int, d: int): (r: int)
    ensures MonthStart(r) <= d < MonthStart(r + 1)
    decreases d < MonthStart(m), if d < MonthStart(m) then MonthStart(m) - d else d - MonthStart(m)
  {
    assert MonthStart(m + 1) == MonthStart(m) + MonthDays(m);
    assert MonthStart(m - 1) == MonthStart(m) - MonthDays(m - 1);
    if MonthStart(m + 1) <= d then MonthFrom(m + 1, d)
    else if d < MonthStart(m) then MonthFrom(m - 1, d)
    else m
  }

  function MonthOf(d: int): (r: int)
    ensures MonthStart(r) <= d < MonthStart(r + 1)
  {
    MonthFrom(0, d)
  }

  /** First day of the period that contains day `d`. */
  function FirstDay(p: Period, d: int): int {
    match p
    case Weekly => d + GoMod(-(Weekday(d) + 6), 7)
    case Monthly => MonthStart(MonthOf(d))
    case _ => d
  }

  /** First day after the period that contains day `d`. */
  function NextFirstDay(p: Period, d: int): int {
    match p
    case Weekly => FirstDay(Weekly, d) + 7
    case Monthly => MonthStart(MonthOf(d) + 1)
    case _ => d + 1
  }

  function LocalDay(z: Zone, t: int): int {
    Local(z, t) / DAY
  }

  function BoundsIn(z: Zone, now: int, p: Period): (int, int) {
    var d := LocalDay(z, now);
    var s, e := LocalDayStart(z, FirstDay(p, d) * DAY), LocalDayStart(z, NextFirstDay(p, d) * DAY);
    (if s.Some? then s.value else ZERO_TIME, if e.Some? then e.value else ZERO_TIME)
  }

  const UTC_NAME: Str := [85, 84, 67]
  const LOCAL_NAME: Str := [76, 111, 99, 97, 108]

  /** `time.LoadLocation` over a given zone database. */
  function LoadLocation(zones: map<Str, Zone>, name: Str): Option<Zone> {
    if name == UTC_NAME then Some(UTC)
    else if name in zones then Some(zones[name])
    else None
  }

  /** `PeriodBounds`; `None` is `ErrInvalidPolicy`. */
  function PeriodBounds(zones: map<Str, Zone>, now: int, p: Period, timezone: Str): Option<(int, int)> {
    var name := if timezone == [] then UTC_NAME else timezone;
    if name == LOCAL_NAME || LoadLocation(zones, name).None? || p == OtherPeriod then None
    else Some(BoundsIn(LoadLocation(zones, name).value, now, p))
  }

  // ---------------------------------------------------------------------------------------
  // The Gregorian calendar in closed form
  // ---------------------------------------------------------------------------------------

  /** Leap days in the years before `y`, counted from year 1: every fourth year, without every hundredth,
      with every four-hundredth. */
  function LeapDaysBefore(y: int): int {
    (y - 1) / 4 - (y - 1) / 100 + (y - 1) / 400
  }

  /** Days of a common year before month `k`, 0 being January. */
  const DAYS_BEFORE: seq<int> := [0, 31, 59, 90, 120, 151, 181, 212, 243, 273, 304, 334]

  /** Day number of the first of month `k` of year `y`, counted from 1 January 1970. */
  function FirstOfMonth(y: int, k: nat): int
    requires k < 12
  {
    365 * (y - 1970) + LeapDaysBefore(y) - LeapDaysBefore(1970) + DAYS_BEFORE[k]
    + if k >= 2 then LeapDaysBefore(y + 1) - LeapDaysBefore(y) else 0
  }

  /** A year adds a leap day exactly when it is divisible by 4 and not by 100, or by 400. */
  lemma LeapYearCount(y: int)
    ensures LeapDaysBefore(y + 1) - LeapDaysBefore(y) == if Leap(y) then 1 else 0
  {
    MultipleStep(y, 4);
    MultipleStep(y, 100);
    MultipleStep(y, 400);
  }

  lemma MultipleStep(y: int, m: int)
    requires m == 4 || m == 100 || m == 400
    ensures y / m - (y - 1) / m == if y % m == 0 then 1 else 0
  {
  }

  lemma MonthStep(y: int, k: nat)
    requires k < 12
    ensures (if k < 11 then FirstOfMonth(y, k + 1) else FirstOfMonth(y + 1, 0))
            == FirstOfMonth(y, k) + MonthDays(12 * (y - 1970) + k)
  {
    LeapYearCount(y);
    hide LeapDaysBefore, Leap;
    var m := 12 * (y - 1970) + k;
    assert m % 12 == k && m / 12 == y - 1970;
  }

  lemma {:induction false} MonthStartFrom(m: int)
    ensures MonthStart(m) == FirstOfMonth(1970 + m / 12, m % 12)
    decreases if m < 0 then -m else m
  {
    hide FirstOfMonth;
    if m == 0 {
      assert FirstOfMonth(1970, 0) == 0 by { FirstOfAll(); }
    } else {
      var n := if m > 0 then m - 1 else m;
      MonthStartFrom(if m > 0 then m - 1 else m + 1);
      MonthStep(1970 + n / 12, n % 12);
      assert n == 12 * (n / 12) + n % 12;
      assert (n + 1) / 12 == if n % 12 < 11 then n / 12 else n / 12 + 1;
      assert (n + 1) % 12 == if n % 12 < 11 then n % 12 + 1 else 0;
    }
  }

  lemma FirstOfAll()
    ensures FirstOfMonth(1970, 0) == 0
  {
  }

  /** Months begin where the Gregorian calendar says: 365 days a year, the leap days before it, the days of
      the months before it, and the leap day itself after February. */
  lemma MonthStartExact(y: int, k: nat)
    requires k < 12
    ensures MonthStart(12 * (y - 1970) + k) == FirstOfMonth(y, k)
  {
    MonthStartFrom(12 * (y - 1970) + k);
  }

  /** The calendar repeats every 400 years, which are 146097 days. */
  lemma CalendarCycle(m: int)
    ensures MonthStart(m + 4800) == MonthStart(m) + 146097
  {
    hide MonthStart, FirstOfMonth;
    MonthStartFrom(m);
    MonthStartFrom(m + 4800);
    assert (m + 4800) / 12 == m / 12 + 400 && (m + 4800) % 12 == m % 12;
    YearCycle(1970 + m / 12, m % 12);
  }

  lemma YearCycle(y: int, k: nat)
    requires k < 12
    ensures FirstOfMonth(y + 400, k) == FirstOfMonth(y, k) + 146097
  {
    CycleOf(y - 1);
    CycleOf(y);
  }

  lemma CycleOf(x: int)
    ensures (x + 400) / 4 == x / 4 + 100 && (x + 400) / 100 == x / 100 + 4 && (x + 400) / 400 == x / 400 + 1
  {
  }

  /** Weeks run from Monday: day -3 is Monday 29 December 1969. */
  lemma WeekStart(d: int)
    ensures FirstDay(Weekly, d) == (d + 3) / 7 * 7 - 3
  {
    assert (Weekday(d) + 6) % 7 == (d + 3) % 7;
  }

  lemma WeekGrid(d: int, x: int)
    ensures FirstDay(Weekly, d) <= d < FirstDay(Weekly, d) + 7
    ensures FirstDay(Weekly, d) <= x < FirstDay(Weekly, d) + 7 ==> FirstDay(Weekly, x) == FirstDay(Weekly, d)
    ensures FirstDay(Weekly, d) + 7 <= x ==> FirstDay(Weekly, d) + 7 <= FirstDay(Weekly, x)
  {
    WeekStart(d);
    WeekStart(x);
  }

  lemma MonthGrid(d: int, x: int)
    ensures MonthStart(MonthOf(d)) <= x < MonthStart(MonthOf(d) + 1) ==> MonthOf(x) == MonthOf(d)
    ensures MonthStart(MonthOf(d) + 1) <= x ==> MonthStart(MonthOf(d) + 1) <= MonthStart(MonthOf(x))
  {
    var m, n := MonthOf(d), MonthOf(x);
    if m + 1 < n { MonthStartIncreasing(m + 1, n); }
    if n + 1 < m { MonthStartIncreasing(n + 1, m); }
  }

  /** Periods partition the days: each contains its days, is the same seen from any of them, and the
      next one begins where it ends. */
  lemma PeriodGrid(p: Period, d: int, x: int)
    ensures FirstDay(p, d) <= d < NextFirstDay(p, d)
    ensures FirstDay(p, d) <= x < NextFirstDay(p, d) ==>
              FirstDay(p, x) == FirstDay(p, d) && NextFirstDay(p, x) == NextFirstDay(p, d)
    ensures NextFirstDay(p, d) <= x ==> NextFirstDay(p, d) <= FirstDay(p, x)
  {
    match p
    case Weekly => WeekGrid(d, x);
    case Monthly => MonthGrid(d, x);
    case _ =>
  }

  /** The period that the local date falls in never runs backwards. */
  ghost predicate PeriodMonotone(z: Zone, p: Period) {
    forall s, t :: s <= t ==> FirstDay(p, LocalDay(z, s)) <= FirstDay(p, LocalDay(z, t))
  }

  lemma DayFloor(x: int, d: int)
    ensures d <= x / DAY <==> d * DAY <= x
  {
  }

  /** A first day is its own period's first day, and so is the day after a period. */
  lemma FirstDaysAreFixed(p: Period, d: int)
    ensures FirstDay(p, FirstDay(p, d)) == FirstDay(p, d) && NextFirstDay(p, FirstDay(p, d)) == NextFirstDay(p, d)
    ensures FirstDay(p, NextFirstDay(p, d)) == NextFirstDay(p, d)
  {
    hide FirstDay, NextFirstDay;
    PeriodGrid(p, d, FirstDay(p, d));
    PeriodGrid(p, d, NextFirstDay(p, d));
    PeriodGrid(p, NextFirstDay(p, d), d);
  }

  /** From a first day on, days belong to its period or a later one. */
  lemma PeriodsFollow(p: Period, first: int, d: int)
    requires FirstDay(p, first) == first
    ensures first <= FirstDay(p, d) <==> first <= d
  {
    hide FirstDay, NextFirstDay;
    PeriodGrid(p, first, d);
    PeriodGrid(p, d, d);
  }

  lemma PeriodReached(z: Zone, p: Period, first: int, s: int, t: int)
    requires PeriodMonotone(z, p) && FirstDay(p, first) == first && FirstAtOrPast(z, first * DAY, s)
    ensures first <= FirstDay(p, LocalDay(z, t)) <==> s <= t
  {
    hide FirstDay;
    DayFloor(Local(z, s), first);
    DayFloor(Local(z, t), first);
    PeriodsFollow(p, first, LocalDay(z, s));
    PeriodsFollow(p, first, LocalDay(z, t));
    if s <= t {
      assert FirstDay(p, LocalDay(z, s)) <= FirstDay(p, LocalDay(z, t));
    }
  }

  lemma BoundsAreDayStarts(z: Zone, w: int, now: int, p: Period)
    requires OutlastsSpread(z, w)
    ensures FirstAtOrPast(z, FirstDay(p, LocalDay(z, now)) * DAY, BoundsIn(z, now, p).0)
    ensures FirstAtOrPast(z, NextFirstDay(p, LocalDay(z, now)) * DAY, BoundsIn(z, now, p).1)
  {
    LocalDayStartCorrect(z, w, FirstDay(p, LocalDay(z, now)) * DAY);
    LocalDayStartCorrect(z, w, NextFirstDay(p, LocalDay(z, now)) * DAY);
  }

  ghost predicate InOwnPeriod(z: Zone, p: Period, t: int) {
    BoundsIn(z, t, p).0 <= t < BoundsIn(z, t, p).1
  }

  lemma SamePeriodSameBounds(z: Zone, p: Period, s: int, t: int)
    requires FirstDay(p, LocalDay(z, s)) == FirstDay(p, LocalDay(z, t))
    ensures BoundsIn(z, s, p) == BoundsIn(z, t, p)
  {
    hide FirstDay, NextFirstDay, LocalDayStart;
    FirstDaysAreFixed(p, LocalDay(z, s));
    FirstDaysAreFixed(p, LocalDay(z, t));
  }

  /** In a zone whose local period never runs backwards the periods tile the time line: an instant lies
      in its own period, every instant of the period has the same bounds, the next starts at its end. */
  lemma PeriodsTile(z: Zone, w: int, now: int, t: int, p: Period)
    requires OutlastsSpread(z, w) && PeriodMonotone(z, p)
    ensures InOwnPeriod(z, p, now)
    ensures var (start, end) := BoundsIn(z, now, p);
            && (start <= t < end ==> BoundsIn(z, t, p) == (start, end))
            && BoundsIn(z, end, p).0 == end
  {
    hide FirstDay, NextFirstDay, BoundsIn, FirstAtOrPast, OutlastsSpread, PeriodMonotone, LocalDay;
    var (start, end) := BoundsIn(z, now, p);
    var d := LocalDay(z, now);
    var first, next := FirstDay(p, d), NextFirstDay(p, d);
    BoundsAreDayStarts(z, w, now, p);
    FirstDaysAreFixed(p, d);
    PeriodGrid(p, d, d);
    PeriodReached(z, p, first, start, now);
    PeriodReached(z, p, next, end, now);
    PeriodReached(z, p, first, start, t);
    PeriodReached(z, p, next, end, t);
    if start <= t < end {
      var x := LocalDay(z, t);
      FirstDaysAreFixed(p, x);
      PeriodGrid(p, d, FirstDay(p, x));
      SamePeriodSameBounds(z, p, now, t);
    }
    NextStartsAtEnd(z, w, next, end, p);
  }

  /** The period that contains the first instant of a first day begins at that instant. */
  lemma NextStartsAtEnd(z: Zone, w: int, next: int, end: int, p: Period)
    requires OutlastsSpread(z, w) && PeriodMonotone(z, p)
    requires FirstDay(p, next) == next && FirstAtOrPast(z, next * DAY, end)
    ensures BoundsIn(z, end, p).0 == end
  {
    hide FirstDay, NextFirstDay, BoundsIn, FirstAtOrPast, OutlastsSpread, PeriodMonotone, LocalDay;
    var f, s := FirstDay(p, LocalDay(z, end)), BoundsIn(z, end, p).0;
    BoundsAreDayStarts(z, w, end, p);
    FirstDaysAreFixed(p, LocalDay(z, end));
    PeriodReached(z, p, next, end, end);
    PeriodReached(z, p, f, s, end);
    PeriodReached(z, p, f, s, s);
    PeriodReached(z, p, next, end, s);
  }

  lemma BackwardPeriodLeavesItself(z: Zone, w: int, p: Period, s: int, t: int)
    requires OutlastsSpread(z, w)
    requires s <= t && FirstDay(p, LocalDay(z, s)) > FirstDay(p, LocalDay(z, t))
    ensures !InOwnPeriod(z, p, t)
  {
    hide FirstDay, NextFirstDay, BoundsIn, OutlastsSpread;
    var d, x := LocalDay(z, s), LocalDay(z, t);
    BoundsAreDayStarts(z, w, t, p);
    PeriodGrid(p, d, d);
    PeriodGrid(p, x, d);
    DayFloor(Local(z, s), NextFirstDay(p, x));
    assert BoundsIn(z, t, p).1 <= s;
  }

  /** Every instant lies inside its own period exactly when the local period never runs backwards. */
  lemma ContainmentExact(z: Zone, w: int, p: Period)
    requires OutlastsSpread(z, w)
    ensures (forall t :: InOwnPeriod(z, p, t)) <==> PeriodMonotone(z, p)
  {
    hide FirstDay, NextFirstDay, BoundsIn, InOwnPeriod, OutlastsSpread;
    if PeriodMonotone(z, p) {
      forall t ensures InOwnPeriod(z, p, t) {
        PeriodsTile(z, w, t, t, p);
      }
    } else {
      var s, t :| s <= t && FirstDay(p, LocalDay(z, s)) > FirstDay(p, LocalDay(z, t));
      BackwardPeriodLeavesItself(z, w, p, s, t);
    }
  }

  /** The local date never runs backwards. */
  ghost predicate DateMonotone(z: Zone) {
    forall s, t :: s <= t ==> LocalDay(z, s) <= LocalDay(z, t)
  }

  /** For days the condition is that the local date never runs backwards, and that suffices for every
      period. */
  lemma DailyContainmentExact(z: Zone, w: int)
    requires OutlastsSpread(z, w)
    ensures (forall t :: InOwnPeriod(z, Daily, t)) <==> DateMonotone(z)
    ensures DateMonotone(z) ==> forall p :: PeriodMonotone(z, p)
  {
    hide BoundsIn, OutlastsSpread, LocalDay;
    assert PeriodMonotone(z, Daily) <==> DateMonotone(z);
    ContainmentExact(z, w, Daily);
    if DateMonotone(z) {
      forall p ensures PeriodMonotone(z, p) {
        DatesOrderPeriods(z, p);
      }
    }
  }

  lemma DatesOrderPeriods(z: Zone, p: Period)
    requires DateMonotone(z)
    ensures PeriodMonotone(z, p)
  {
    hide FirstDay, NextFirstDay, LocalDay;
    forall s, t | s <= t ensures FirstDay(p, LocalDay(z, s)) <= FirstDay(p, LocalDay(z, t)) {
      FirstDaysAreFixed(p, LocalDay(z, s));
      PeriodGrid(p, LocalDay(z, s), LocalDay(z, s));
      PeriodsFollow(p, FirstDay(p, LocalDay(z, s)), LocalDay(z, t));
    }
  }

  const MINUTE := 60_000_000_000
  const HOUR := 3_600_000_000_000

  /** A fold from 00:01 of a day back to 23:01 of the day before, as St. John's used to have. */
  function FoldAfterMidnight(day: int): Zone {
    RawZone(0, [Cut(day * DAY + MINUTE, -HOUR)])
  }

  lemma FoldedDates(day: int)
    ensures var z := FoldAfterMidnight(day);
            && OutlastsSpread(z, HOUR)
            && LocalDay(z, day * DAY) == day && LocalDay(z, day * DAY + 2 * MINUTE) == day - 1
  {
    var z := FoldAfterMidnight(day);
    IntervalUnique(z, 1, day * DAY + 2 * MINUTE);
    IntervalUnique(z, 0, day * DAY);
  }

  /** The hour before the second midnight falls outside the period it is dated in, whenever that midnight
      begins a period. */
  lemma FoldLeavesItsPeriod(p: Period, day: int)
    requires FirstDay(p, day) == day
    ensures !InOwnPeriod(FoldAfterMidnight(day), p, day * DAY + 2 * MINUTE)
  {
    hide FirstDay, NextFirstDay, InOwnPeriod, OutlastsSpread, LocalDay;
    FoldedDates(day);
    PeriodsFollow(p, day, day - 1);
    BackwardPeriodLeavesItself(FoldAfterMidnight(day), HOUR, p, day * DAY, day * DAY + 2 * MINUTE);
  }

  /** Friday 2 January, Monday 5 January and Sunday 1 February 1970. */
  lemma FoldsThatLeaveTheirPeriod()
    ensures !InOwnPeriod(FoldAfterMidnight(1), Daily, DAY + 2 * MINUTE)
    ensures !InOwnPeriod(FoldAfterMidnight(4), Weekly, 4 * DAY + 2 * MINUTE)
    ensures !InOwnPeriod(FoldAfterMidnight(31), Monthly, 31 * DAY + 2 * MINUTE)
  {
    hide InOwnPeriod;
    FoldLeavesItsPeriod(Daily, 1);
    WeekStart(4);
    FoldLeavesItsPeriod(Weekly, 4);
    assert MonthStart(1) == 31 && MonthStart(2) == 59;
    MonthGrid(31, 31);
    assert MonthOf(31) == 1;
    FoldLeavesItsPeriod(Monthly, 31);
  }

  /** At noon of Wednesday 15 January 2025 UTC: the day, the week from Monday 13 January, and January. */
  lemma January2025(zones: map<Str, Zone>)
    ensures var now := 1_736_942_400_000_000_000;
            && PeriodBounds(zones, now, Daily, []) == Some((1_736_899_200_000_000_000, 1_736_985_600_000_000_000))
            && PeriodBounds(zones, now, Weekly, []) == Some((1_736_726_400_000_000_000, 1_737_331_200_000_000_000))
            && PeriodBounds(zones, now, Monthly, []) == Some((1_735_689_600_000_000_000, 1_738_368_000_000_000_000))
            && PeriodBounds(zones, now, OtherPeriod, []) == None
            && PeriodBounds(zones, now, Daily, LOCAL_NAME) == None
  {
    var now := 1_736_942_400_000_000_000;
    UtcBounds(now, Daily);
    UtcBounds(now, Weekly);
    UtcBounds(now, Monthly);
    assert now / DAY == 20103;
    WeekStart(20103);
    JanuaryDays();
    hide BoundsIn, MonthStart, MonthOf;
  }

  lemma JanuaryDays()
    ensures FirstDay(Monthly, 20103) == 20089 && NextFirstDay(Monthly, 20103) == 20120
  {
    hide MonthStart, MonthOf;
    MonthStartExact(2025, 0);
    MonthStartExact(2025, 1);
    MonthIs(20103, 660);
  }

  /** In UTC the bounds are the midnights of the period's first day and of the next one's. */
  lemma UtcBounds(now: int, p: Period)
    ensures BoundsIn(UTC, now, p) == (FirstDay(p, now / DAY) * DAY, NextFirstDay(p, now / DAY) * DAY)
  {
    hide FirstDay, NextFirstDay, LocalDayStart;
    assert Local(UTC, now) == now;
    UtcDayStart(FirstDay(p, now / DAY));
    UtcDayStart(NextFirstDay(p, now / DAY));
  }

  lemma MonthIs(d: int, m: int)
    requires MonthStart(m) <= d < MonthStart(m + 1)
    ensures MonthOf(d) == m
  {
    var n := MonthOf(d);
    if n + 1 < m { MonthStartIncreasing(n + 1, m); }
    if m + 1 < n { MonthStartIncreasing(m + 1, n); }
  }

  /** In UTC a day starts at its midnight. */
  lemma UtcDayStart(d: int)
    ensures LocalDayStart(UTC, d * DAY) == Some(d * DAY)
  {
    LocalDayStartCorrect(UTC, 0, d * DAY);
    var t := LocalDayStart(UTC, d * DAY).value;
    assert Local(UTC, d * DAY) == d * DAY && Local(UTC, t) == t;
  }
}
