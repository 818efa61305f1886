/**
 * The reporting aggregator behind the admin dashboard: it turns reservations, menu items and
 * feedback into chart series (status breakdown, day-of-week and month series, peak-hour
 * scatter cells, top-3-plus-Others pies, the top-rated foods and the average rating per
 * feedback category).
 */
module Analytics2 {
  import opened Wrappers
  import opened Strings
  import opened Collections
  import opened Types

  const DaysOfWeek: seq<string> := ["Sun", "Mon", "Tue", "Wed", "Thu", "Fri", "Sat"]
  const Months: seq<string> := ["Jan", "Feb", "Mar", "Apr", "May", "Jun", "Jul", "Aug", "Sep", "Oct", "Nov", "Dec"]

  datatype LineGraph = LineGraph(labels: seq<string>, data: seq<int>)

  // ---------------------------------------------------------------- selection

  predicate InYearRange(r: Reservation, startYear: int, endYear: int) {
    startYear <= r.date.year <= endYear
  }

  /** `filterByDateRange`: the reservations whose year lies in `[startYear, endYear]`. */
  function FilterByDateRange(rs: seq<Reservation>, startYear: int, endYear: int): (r: seq<Reservation>)
    ensures forall x | x in r :: x in rs && InYearRange(x, startYear, endYear)
    ensures forall x | x in rs && InYearRange(x, startYear, endYear) :: x in r
  {
    FilterMembers(rs, x => InYearRange(x, startYear, endYear));
    Filter(rs, x => InYearRange(x, startYear, endYear))
  }

  /** The date filter keeps the original order: it distributes over concatenation. */
  lemma FilterByDateRangeOrder(a: seq<Reservation>, b: seq<Reservation>, startYear: int, endYear: int)
    ensures FilterByDateRange(a + b, startYear, endYear) == FilterByDateRange(a, startYear, endYear) + FilterByDateRange(b, startYear, endYear)
  {
    FilterAppend(a, b, x => InYearRange(x, startYear, endYear));
  }

  predicate IsActive(r: Reservation) { r.status == Some("active") }
  predicate IsCompleted(r: Reservation) { r.status == Some("completed") }
  predicate IsNoShow(r: Reservation) { r.status == Some("noshow") }
  predicate IsCompletedOrActive(r: Reservation) { IsCompleted(r) || IsActive(r) }

  /** The in-range reservations that were completed. */
  function CompletedInRange(rs: seq<Reservation>, startYear: int, endYear: int): seq<Reservation> {
    Filter(FilterByDateRange(rs, startYear, endYear), IsCompleted)
  }

  /** The in-range reservations that were completed or are active. */
  function HeldInRange(rs: seq<Reservation>, startYear: int, endYear: int): seq<Reservation> {
    Filter(FilterByDateRange(rs, startYear, endYear), IsCompletedOrActive)
  }

  // ---------------------------------------------------------------- status breakdown

  datatype StatusBreakdown = StatusBreakdown(total: int, active: int, completed: int, noshow: int)

  /** `getReservationStatusBreakdown`. */
  function GetReservationStatusBreakdown(rs: seq<Reservation>): (b: StatusBreakdown)
    ensures b.total == |rs|
    ensures b.active + b.completed + b.noshow <= b.total
    ensures b.active + b.completed + b.noshow == b.total <==>
      forall r | r in rs :: IsActive(r) || IsCompleted(r) || IsNoShow(r)
  {
    StatusCountsBound(rs);
    StatusBreakdown(|rs|, |Filter(rs, IsActive)|, |Filter(rs, IsCompleted)|, |Filter(rs, IsNoShow)|)
  }

  /**
   * The three statuses are exclusive, so their counts add up to at most the number of
   * reservations, with equality exactly when every reservation has one of them.
   */
  lemma {:induction false} StatusCountsBound(rs: seq<Reservation>)
    ensures |Filter(rs, IsActive)| + |Filter(rs, IsCompleted)| + |Filter(rs, IsNoShow)| <= |rs|
    ensures |Filter(rs, IsActive)| + |Filter(rs, IsCompleted)| + |Filter(rs, IsNoShow)| == |rs| <==>
      forall r | r in rs :: IsActive(r) || IsCompleted(r) || IsNoShow(r)
  {
    if rs != [] {
      var init := rs[..|rs| - 1];
      StatusCountsBound(init);
      assert rs == init + [rs[|rs| - 1]];
      assert forall r | r in init :: r in rs;
    }
  }

  // ---------------------------------------------------------------- bucket series

  function WeekdayOf(r: Reservation): nat { r.date.weekday }
  function MonthOf(r: Reservation): nat { r.date.month }
  function One(r: Reservation): int { 1 }
  function Pax(r: Reservation): int { r.pax }

  /** The total weight of the reservations that fall into bucket `b`. */
  function BucketTotal(rs: seq<Reservation>, bucket: Reservation -> nat, weight: Reservation -> int, b: int): int {
    if rs == [] then 0
    else BucketTotal(rs[..|rs| - 1], bucket, weight, b) + (if bucket(rs[|rs| - 1]) == b then weight(rs[|rs| - 1]) else 0)
  }

  /**
   * The zero-filled `new Array(n).fill(0)` that a `forEach` loop increments at each
   * reservation's bucket by its weight.
   */
  method FillBuckets(rs: seq<Reservation>, n: nat, bucket: Reservation -> nat, weight: Reservation -> int)
    returns (data: seq<int>)
    requires forall r | r in rs :: bucket(r) < n
    ensures |data| == n
    ensures forall b | 0 <= b < n :: data[b] == BucketTotal(rs, bucket, weight, b)
  {
    var counts := new int[n](_ => 0);
    for i := 0 to |rs|
      invariant forall b | 0 <= b < n :: counts[b] == BucketTotal(rs[..i], bucket, weight, b)
    {
      assert rs[..i + 1][..i] == rs[..i];
      var b := bucket(rs[i]);
      counts[b] := counts[b] + weight(rs[i]);
    }
    assert rs[..|rs|] == rs;
    data := counts[..];
  }

  /** Every reservation lands in exactly one bucket: the buckets add up to the total weight. */
  lemma {:induction false} BucketsSum(rs: seq<Reservation>, n: nat, bucket: Reservation -> nat, weight: Reservation -> int)
    requires forall r | r in rs :: bucket(r) < n
    ensures Sum(seq(n, b => BucketTotal(rs, bucket, weight, b))) == SumBy(rs, weight)
  {
    if rs == [] {
      assert seq(n, b => BucketTotal(rs, bucket, weight, b)) == Zeros(n);
      SumZeros(n);
    } else {
      var init := rs[..|rs| - 1];
      var last := rs[|rs| - 1];
      assert forall r | r in init :: r in rs;
      BucketsSum(init, n, bucket, weight);
      var before := seq(n, b => BucketTotal(init, bucket, weight, b));
      assert seq(n, b => BucketTotal(rs, bucket, weight, b)) == before[bucket(last) := before[bucket(last)] + weight(last)];
      SumBump(before, bucket(last), weight(last));
    }
  }

  lemma {:induction false} SumByOne(rs: seq<Reservation>)
    ensures SumBy(rs, One) == |rs|
  {
    if rs != [] {
      SumByOne(rs[..|rs| - 1]);
    }
  }

  /** A series whose buckets add up to the total weight. */
  lemma SeriesSum(data: seq<int>, rs: seq<Reservation>, n: nat, bucket: Reservation -> nat, weight: Reservation -> int)
    requires forall r | r in rs :: bucket(r) < n
    requires |data| == n && forall b | 0 <= b < n :: data[b] == BucketTotal(rs, bucket, weight, b)
    ensures Sum(data) == SumBy(rs, weight)
  {
    assert data == seq(n, b => BucketTotal(rs, bucket, weight, b));
    BucketsSum(rs, n, bucket, weight);
  }

  /** `getDailyCompletedReservations`: completed in-range reservations per weekday. */
  method GetDailyCompletedReservations(rs: seq<Reservation>, startYear: int, endYear: int) returns (g: LineGraph)
    ensures g.labels == DaysOfWeek && |g.data| == 7
    ensures forall d | 0 <= d < 7 :: g.data[d] == BucketTotal(CompletedInRange(rs, startYear, endYear), WeekdayOf, One, d)
    ensures Sum(g.data) == |CompletedInRange(rs, startYear, endYear)|
  {
    var filtered := CompletedInRange(rs, startYear, endYear);
    var data := FillBuckets(filtered, 7, WeekdayOf, One);
    SeriesSum(data, filtered, 7, WeekdayOf, One);
    SumByOne(filtered);
    g := LineGraph(DaysOfWeek, data);
  }

  /** `getMonthlyCompletedReservations`: completed in-range reservations per month. */
  method GetMonthlyCompletedReservations(rs: seq<Reservation>, startYear: int, endYear: int) returns (g: LineGraph)
    ensures g.labels == Months && |g.data| == 12
    ensures forall m | 0 <= m < 12 :: g.data[m] == BucketTotal(CompletedInRange(rs, startYear, endYear), MonthOf, One, m)
    ensures Sum(g.data) == |CompletedInRange(rs, startYear, endYear)|
  {
    var filtered := CompletedInRange(rs, startYear, endYear);
    var data := FillBuckets(filtered, 12, MonthOf, One);
    SeriesSum(data, filtered, 12, MonthOf, One);
    SumByOne(filtered);
    g := LineGraph(Months, data);
  }

  /** `getDailyTotalGuests`: the party sizes of completed or active in-range reservations per weekday. */
  method GetDailyTotalGuests(rs: seq<Reservation>, startYear: int, endYear: int) returns (g: LineGraph)
    ensures g.labels == DaysOfWeek && |g.data| == 7
    ensures forall d | 0 <= d < 7 :: g.data[d] == BucketTotal(HeldInRange(rs, startYear, endYear), WeekdayOf, Pax, d)
    ensures Sum(g.data) == SumBy(HeldInRange(rs, startYear, endYear), Pax)
  {
    var filtered := HeldInRange(rs, startYear, endYear);
    var data := FillBuckets(filtered, 7, WeekdayOf, Pax);
    SeriesSum(data, filtered, 7, WeekdayOf, Pax);
    g := LineGraph(DaysOfWeek, data);
  }

  /** `getMonthlyTotalGuests`: the party sizes of completed or active in-range reservations per month. */
  method GetMonthlyTotalGuests(rs: seq<Reservation>, startYear: int, endYear: int) returns (g: LineGraph)
    ensures g.labels == Months && |g.data| == 12
    ensures forall m | 0 <= m < 12 :: g.data[m] == BucketTotal(HeldInRange(rs, startYear, endYear), MonthOf, Pax, m)
    ensures Sum(g.data) == SumBy(HeldInRange(rs, startYear, endYear), Pax)
  {
    var filtered := HeldInRange(rs, startYear, endYear);
    var data := FillBuckets(filtered, 12, MonthOf, Pax);
    SeriesSum(data, filtered, 12, MonthOf, Pax);
    g := LineGraph(Months, data);
  }

  // ---------------------------------------------------------------- hour slot

  /** The hour field of a time: `parseInt(time.split(':')[0])`, None standing for NaN. */
  function HourOf(time: string): Option<int> {
    ParseInt(Split(time, ':')[0])
  }

  /**
   * `getHourSlot`: "HH:00-HH:00" for the hour of `time` and the next one. The slot reads back
   * as the hour of `time`, an unreadable hour included.
   */
  function GetHourSlot(time: string): (r: string)
    ensures HourOf(r) == HourOf(time)
  {
    match HourOf(time)
    case None =>
      NaNSlotHour();
      NaNSlot
    case Some(h) =>
      SlotHour(h);
      HourSlotText(h)
  }

  /** "NaN:00-NaN:00": the slot `getHourSlot` prints for an hour that does not parse. */
  const NaNSlot: string := "NaN" + [':'] + "00-NaN:00"

  function HourSlotText(h: int): string {
    PadStart2(IntToString(h)) + ":00-" + PadStart2(IntToString(h + 1)) + ":00"
  }

  lemma {:induction false} SplitFirstStable(s: string, t: string, c: char)
    requires |Split(s, c)| >= 2
    ensures |Split(s + t, c)| >= 2 && Split(s + t, c)[0] == Split(s, c)[0]
    decreases |t|
  {
    if t == [] {
      assert s + t == s;
    } else {
      var t' := t[..|t| - 1];
      SplitFirstStable(s, t', c);
      assert (s + t)[..|s + t| - 1] == s + t';
    }
  }

  /** The text before the first separator is the first piece of a split. */
  lemma SplitFirst(a: string, c: char, rest: string)
    requires c !in a
    ensures Split(a + [c] + rest, c)[0] == a
  {
    SplitAppendPlain([], a, c);
    assert [] + a == a;
    SplitAppendSep(a, c);
    SplitFirstStable(a + [c], rest, c);
  }

  /** The first piece of a split starts with the first character, when that is not the separator. */
  lemma {:induction false} SplitHead(s: string, c: char)
    requires |s| > 0 && s[0] != c
    ensures |Split(s, c)[0]| > 0 && Split(s, c)[0][0] == s[0]
  {
    var init := s[..|s| - 1];
    if |init| > 0 {
      SplitHead(init, c);
    }
  }

  lemma PadDigits(d: string)
    requires AllDigits(d)
    ensures AllDigits(PadStart2(d))
  {
  }

  /** The hour field of `a:rest` is what `parseInt` reads from `a`. */
  lemma HourOfField(a: string, rest: string)
    requires ':' !in a
    ensures HourOf(a + [':'] + rest) == ParseInt(a)
  {
    SplitFirst(a, ':', rest);
  }

  /** A printed, zero-padded hour holds no colon and starts with a digit or a minus sign. */
  lemma PaddedHourChars(h: int)
    ensures ':' !in PadStart2(IntToString(h))
    ensures IsDigit(PadStart2(IntToString(h))[0]) || PadStart2(IntToString(h))[0] == '-'
  {
    var s := IntToString(h);
    forall i | 0 <= i < |s| ensures IsDigit(s[i]) || s[i] == '-' {
      if h < 0 && i > 0 {
        assert s[1..][i - 1] == s[i];
      }
    }
  }

  lemma ColonConcat(a: string, b: string)
    ensures a + ":00" == a + [':'] + "00"
    ensures a + ":00-" + b + ":00" == a + [':'] + ("00-" + b + ":00")
  {
  }

  /** The hour field of the NaN slot does not parse either. */
  lemma NaNSlotHour()
    ensures HourOf(NaNSlot) == None
  {
    HourOfField("NaN", "00-NaN:00");
  }

  /** A zero-padded hour followed by ":00" reads back as that hour. */
  lemma PaddedHour(h: int)
    ensures HourOf(PadStart2(IntToString(h)) + ":00") == Some(h)
  {
    var a := PadStart2(IntToString(h));
    ColonConcat(a, []);
    PaddedHourChars(h);
    HourOfField(a, "00");
    ParsePaddedNumber(h, []);
    assert a + [] == a;
  }

  lemma DashFree(d: string)
    requires AllDigits(d)
    ensures '-' !in d + ":00"
  {
    assert forall i | 0 <= i < |d| :: IsDigit(d[i]);
  }

  lemma SlotJoin(a: string, b: string)
    ensures a + ":00-" + b + ":00" == Join([a + ":00", b + ":00"], "-")
  {
    assert [a + ":00", b + ":00"][..1] == [a + ":00"];
  }

  lemma SlotPieces(h: nat)
    ensures Split(HourSlotText(h), '-') == [PadStart2(IntToString(h)) + ":00", PadStart2(IntToString(h + 1)) + ":00"]
  {
    var a, b := PadStart2(IntToString(h)), PadStart2(IntToString(h + 1));
    PadDigits(IntToString(h));
    PadDigits(IntToString(h + 1));
    DashFree(a);
    DashFree(b);
    SlotJoin(a, b);
    SplitJoin([a + ":00", b + ":00"], '-');
  }

  lemma SlotHour(h: int)
    ensures HourOf(HourSlotText(h)) == Some(h)
  {
    var a, b := PadStart2(IntToString(h)), PadStart2(IntToString(h + 1));
    ColonConcat(a, b);
    PaddedHourChars(h);
    HourOfField(a, "00-" + b + ":00");
    ParsePaddedNumber(h, []);
    assert a + [] == a;
  }

  /**
   * A slot reads back as the hour it was made from; for an hour that is not negative, the
   * slot has exactly one dash and the part after it reads back as the next hour.
   */
  lemma HourSlotRoundTrip(time: string, h: int)
    requires HourOf(time) == Some(h)
    ensures HourOf(GetHourSlot(time)) == Some(h)
    ensures h >= 0 ==> |Split(GetHourSlot(time), '-')| == 2
    ensures h >= 0 ==> HourOf(Split(GetHourSlot(time), '-')[1]) == Some(h + 1)
  {
    assert GetHourSlot(time) == HourSlotText(h);
    SlotHour(h);
    if h >= 0 {
      SlotPieces(h);
      PaddedHour(h + 1);
    }
  }

  /** The literal NaN slot comes exactly from an unreadable hour. */
  lemma HourSlotNaN(time: string)
    ensures GetHourSlot(time) == NaNSlot <==> HourOf(time) == None
  {
    if HourOf(time).Some? {
      var h := HourOf(time).value;
      PaddedHourChars(h);
      assert HourSlotText(h)[0] == PadStart2(IntToString(h))[0];
      assert NaNSlot[0] == 'N';
    }
  }

  // ---------------------------------------------------------------- peak hours

  /** Whether the scatter cells are keyed by weekday or by month. */
  datatype Grouping = ByDay | ByMonth

  function GroupLabels(g: Grouping): seq<string> {
    if g == ByDay then DaysOfWeek else Months
  }

  function GroupLabel(g: Grouping, r: Reservation): (l: string)
  {
    if g == ByDay then DaysOfWeek[r.date.weekday] else Months[r.date.month]
  }

  /** A label that survives the key encoding: non-empty, no dash, not starting with a digit. */
  predicate PlainLabel(l: string) {
    l != [] && '-' !in l && !IsDigit(l[0])
  }

  lemma GroupLabelsPlain(g: Grouping)
    ensures forall l | l in GroupLabels(g) :: PlainLabel(l)
  {
  }

  /** A reservation's label is one of the grouping's labels and survives the key encoding. */
  lemma GroupLabelFacts(g: Grouping, r: Reservation)
    ensures GroupLabel(g, r) in GroupLabels(g) && PlainLabel(GroupLabel(g, r))
  {
    GroupLabelsPlain(g);
  }

  /** The first hour a reservation occupies: the decimal digits before the start time's first colon. */
  function StartHour(r: Reservation): (h: Option<int>)
    ensures var f := Split(r.startTime, ':')[0];
      f != [] && AllDigits(f) ==> h == Some(DigitsValue(f, 10))
  {
    ParseIntDigits(Split(r.startTime, ':')[0]);
    HourOf(r.startTime)
  }

  /**
   * The last hour a reservation occupies: the decimal digits before the end time's first
   * colon, one less when the end time ends with ":00".
   */
  function EndHour(r: Reservation): (h: Option<int>)
    ensures HourOf(r.endTime).None? ==> h.None?
    ensures var f := Split(r.endTime, ':')[0];
      f != [] && AllDigits(f) ==>
        h == Some(DigitsValue(f, 10) - if EndsWith(r.endTime, ":00") then 1 else 0)
  {
    ParseIntDigits(Split(r.endTime, ':')[0]);
    match HourOf(r.endTime)
    case None => None
    case Some(h) => Some(if EndsWith(r.endTime, ":00") then h - 1 else h)
  }

  /** The hours `s, s + 1, ..., e` of a `for (hour = s; hour <= e; hour++)` loop. */
  function Span(s: int, e: int): (hs: seq<int>)
    ensures |hs| == SpanLength(s, e)
    ensures forall j | 0 <= j < |hs| :: hs[j] == s + j
  {
    if s <= e then seq(e - s + 1, j => s + j) else []
  }

  function SpanLength(s: int, e: int): nat {
    if s <= e then e - s + 1 else 0
  }

  lemma SpanMembers(s: int, e: int)
    ensures forall h :: h in Span(s, e) <==> s <= h <= e
  {
    forall h | s <= h <= e ensures h in Span(s, e) {
      assert Span(s, e)[h - s] == h;
    }
  }

  /**
   * The hours `startHour..endHour` that a reservation adds 1 to: the consecutive hours from
   * its start hour to its end hour, none when either is unreadable.
   */
  function HoursOf(r: Reservation): (hs: seq<int>)
    ensures StartHour(r).None? || EndHour(r).None? ==> hs == []
    ensures StartHour(r).Some? && EndHour(r).Some? ==>
      && |hs| == SpanLength(StartHour(r).value, EndHour(r).value)
      && forall i | 0 <= i < |hs| :: hs[i] == StartHour(r).value + i
  {
    if StartHour(r).Some? && EndHour(r).Some? then Span(StartHour(r).value, EndHour(r).value) else []
  }

  /**
   * A reservation occupies exactly the hours from its start hour to its end hour, in
   * increasing order, and none when either is unreadable; when the start time begins
   * with a digit, no hour is negative.
   */
  lemma HoursFacts(r: Reservation)
    ensures forall h :: h in HoursOf(r) <==> StartHour(r).Some? && EndHour(r).Some? && StartHour(r).value <= h <= EndHour(r).value
    ensures forall i, j | 0 <= i < j < |HoursOf(r)| :: HoursOf(r)[i] < HoursOf(r)[j]
    ensures |r.startTime| > 0 && IsDigit(r.startTime[0]) ==> forall h | h in HoursOf(r) :: h >= 0
  {
    if StartHour(r).Some? && EndHour(r).Some? {
      SpanMembers(StartHour(r).value, EndHour(r).value);
    }
    if |r.startTime| > 0 && IsDigit(r.startTime[0]) {
      SplitHead(r.startTime, ':');
    }
  }

  /** `${group}-${hour}`. */
  function CellKey(group: string, h: int): string {
    group + "-" + IntToString(h)
  }

  /** The increments for the hours `hs` under label `group`. */
  function KeyedEntries(group: string, hs: seq<int>): (es: seq<Entry>)
    ensures |es| == |hs|
    ensures forall j | 0 <= j < |hs| :: es[j] == Entry(CellKey(group, hs[j]), CellKey(group, hs[j]), 1)
  {
    seq(|hs|, j requires 0 <= j < |hs| => Entry(CellKey(group, hs[j]), CellKey(group, hs[j]), 1))
  }

  /** The increments of `map[group-hour]` for the hours of one reservation. */
  function HourEntries(r: Reservation, g: Grouping): seq<Entry> {
    KeyedEntries(GroupLabel(g, r), HoursOf(r))
  }

  /** Every (reservation, hour) increment, in loop order. */
  function PeakEntries(rs: seq<Reservation>, g: Grouping): seq<Entry> {
    if rs == [] then [] else PeakEntries(rs[..|rs| - 1], g) + HourEntries(rs[|rs| - 1], g)
  }

  /** One scatter point; `hour` is None where `parseInt` would give NaN. */
  datatype PeakCell = PeakCell(group: string, hour: Option<int>, reservations: int)

  /** `const [group, hourStr] = key.split('-')` followed by `parseInt(hourStr)`. */
  function ToCell(t: Tally): PeakCell {
    var parts := Split(t.key, '-');
    PeakCell(parts[0], if |parts| > 1 then ParseInt(parts[1]) else None, t.count)
  }

  function ToCells(ts: seq<Tally>): (cells: seq<PeakCell>)
    ensures |cells| == |ts| && forall i | 0 <= i < |ts| :: cells[i] == ToCell(ts[i])
  {
    seq(|ts|, i requires 0 <= i < |ts| => ToCell(ts[i]))
  }

  /** The cells `getDailyPeakHours` (ByDay) or `getMonthlyPeakHours` (ByMonth) return. */
  function PeakCells(rs: seq<Reservation>, startYear: int, endYear: int, g: Grouping): seq<PeakCell> {
    ToCells(ObjectEntries(Tallies(PeakEntries(HeldInRange(rs, startYear, endYear), g))))
  }

  lemma PrefixSnoc<T>(before: seq<T>, es: seq<T>, n: nat)
    requires n < |es|
    ensures before + es[..n + 1] == (before + es[..n]) + [es[n]]
  {
  }

  /** The counts after the first `n` hours of the span `s..e`. */
  ghost function SpanProgress(before: seq<Entry>, group: string, s: int, e: int, n: nat): seq<Tally>
    requires n <= SpanLength(s, e)
  {
    Tallies(before + KeyedEntries(group, Span(s, e))[..n])
  }

  lemma SpanStep(before: seq<Entry>, group: string, s: int, e: int, hour: int)
    requires s <= hour <= e
    ensures SpanProgress(before, group, s, e, hour - s + 1)
      == AddEntry(SpanProgress(before, group, s, e, hour - s), Entry(CellKey(group, hour), CellKey(group, hour), 1))
  {
    var es := KeyedEntries(group, Span(s, e));
    var n := hour - s;
    assert es[n] == Entry(CellKey(group, hour), CellKey(group, hour), 1);
    PrefixSnoc(before, es, n);
    TalliesSnoc(before + es[..n], es[n]);
  }

  lemma SpanProgressEnds(before: seq<Entry>, group: string, s: int, e: int)
    ensures SpanProgress(before, group, s, e, 0) == Tallies(before)
    ensures SpanProgress(before, group, s, e, SpanLength(s, e)) == Tallies(before + KeyedEntries(group, Span(s, e)))
  {
    var es := KeyedEntries(group, Span(s, e));
    assert before + es[..0] == before;
    assert es[..SpanLength(s, e)] == es;
  }

  /** The `for` loop over one reservation's hours, incrementing `map[group-hour]` each time. */
  method CountHours(counts: seq<Tally>, ghost before: seq<Entry>, group: string, s: int, e: int) returns (counts': seq<Tally>)
    requires counts == Tallies(before)
    ensures counts' == Tallies(before + KeyedEntries(group, Span(s, e)))
  {
    counts' := counts;
    SpanProgressEnds(before, group, s, e);
    var hour := s;
    while hour <= e
      invariant s <= hour && hour - s <= SpanLength(s, e)
      invariant hour > e ==> hour - s == SpanLength(s, e)
      invariant counts' == SpanProgress(before, group, s, e, hour - s)
      decreases e - hour
    {
      SpanStep(before, group, s, e, hour);
      var key := CellKey(group, hour);
      counts' := AddEntry(counts', Entry(key, key, 1));
      hour := hour + 1;
    }
  }

  /**
   * `getDailyPeakHours` / `getMonthlyPeakHours`: for every completed or active in-range
   * reservation, a `for` loop from its start hour to its end hour increments
   * `map[group-hour]`; the object's entries are then decoded into cells.
   */
  method GetPeakHours(rs: seq<Reservation>, startYear: int, endYear: int, g: Grouping) returns (cells: seq<PeakCell>)
    ensures cells == PeakCells(rs, startYear, endYear, g)
  {
    var filtered := HeldInRange(rs, startYear, endYear);
    var counts := CountPeakEntries(filtered, g);
    cells := ToCells(ObjectEntries(counts));
  }

  /** The `forEach` over the selected reservations. */
  method CountPeakEntries(rs: seq<Reservation>, g: Grouping) returns (counts: seq<Tally>)
    ensures counts == Tallies(PeakEntries(rs, g))
  {
    counts := [];
    for k := 0 to |rs|
      invariant counts == Tallies(PeakEntries(rs[..k], g))
    {
      assert rs[..k + 1][..k] == rs[..k];
      assert PeakEntries(rs[..k + 1], g) == PeakEntries(rs[..k], g) + HourEntries(rs[k], g);
      var r := rs[k];
      var start, end := StartHour(r), EndHour(r);
      if start.Some? && end.Some? {
        counts := CountHours(counts, PeakEntries(rs[..k], g), GroupLabel(g, r), start.value, end.value);
      } else {
        assert PeakEntries(rs[..k], g) + HourEntries(r, g) == PeakEntries(rs[..k], g);
      }
    }
    assert rs[..|rs|] == rs;
  }

  /** The hour field of a two-digit "HH:MM" time. */
  lemma TwoDigitHour(t: string, d1: char, d2: char)
    requires |t| == 5 && t[0] == d1 && t[1] == d2 && t[2] == ':' && IsDigit(d1) && IsDigit(d2)
    ensures HourOf(t) == ParseInt([d1, d2])
  {
    assert t == [d1, d2] + [':'] + t[3..];
    HourOfField([d1, d2], t[3..]);
  }

  lemma Parse18And19()
    ensures ParseInt("18") == Some(18) && ParseInt("19") == Some(19)
  {
    assert NatToString(18) == "18" && NatToString(19) == "19";
    assert "18" + [] == "18" && "19" + [] == "19";
    ParseIntOfNumber(18, []);
    ParseIntOfNumber(19, []);
  }

  /** 18:00 to 19:00 occupies only hour 18: an end on the hour is exclusive. */
  lemma PeakOneHour(r: Reservation)
    requires r.startTime == "18:00" && r.endTime == "19:00"
    ensures HoursOf(r) == [18]
  {
    TwoDigitHour(r.startTime, '1', '8');
    TwoDigitHour(r.endTime, '1', '9');
    Parse18And19();
    assert EndsWith(r.endTime, ":00");
  }

  /** 18:00 to 19:30 occupies hours 18 and 19. */
  lemma PeakHalfPast(r: Reservation)
    requires r.startTime == "18:00" && r.endTime == "19:30"
    ensures HoursOf(r) == [18, 19]
  {
    TwoDigitHour(r.startTime, '1', '8');
    TwoDigitHour(r.endTime, '1', '9');
    Parse18And19();
    assert StartHour(r) == Some(18);
    assert !EndsWith(r.endTime, ":00") by {
      assert r.endTime[|r.endTime| - 1] == '0' && r.endTime[|r.endTime| - 2] == '3';
    }
    assert EndHour(r) == Some(19);
    var hs := HoursOf(r);
    assert |hs| == 2 && hs[0] == 18 && hs[1] == 19;
  }

  /** A reservation that starts and ends at the same full hour occupies no hour. */
  lemma PeakEmptyHour(r: Reservation)
    requires r.startTime == "18:00" && r.endTime == "18:00"
    ensures HoursOf(r) == []
  {
    TwoDigitHour(r.startTime, '1', '8');
    Parse18And19();
    assert EndsWith(r.endTime, ":00");
  }

  // ---------------------------------------------------------------- what the peak cells mean

  /** Reservation `r` adds 1 to the cell (`group`, `h`). */
  predicate Hits(r: Reservation, g: Grouping, group: string, h: int) {
    GroupLabel(g, r) == group && h in HoursOf(r)
  }

  /** The number of reservations that add 1 to the cell (`group`, `h`). */
  function HitCount(rs: seq<Reservation>, g: Grouping, group: string, h: int): nat {
    if rs == [] then 0
    else HitCount(rs[..|rs| - 1], g, group, h) + (if Hits(rs[|rs| - 1], g, group, h) then 1 else 0)
  }

  lemma {:induction false} HitCountPositive(rs: seq<Reservation>, g: Grouping, group: string, h: int, r: Reservation)
    requires r in rs && Hits(r, g, group, h)
    ensures HitCount(rs, g, group, h) >= 1
  {
    var init, last := rs[..|rs| - 1], rs[|rs| - 1];
    assert HitCount(rs, g, group, h) == HitCount(init, g, group, h) + (if Hits(last, g, group, h) then 1 else 0);
    if last != r {
      InInitOrLast(rs, r);
      HitCountPositive(init, g, group, h, r);
    }
  }

  /**
   * The hour `parseInt` reads from the second piece of a key: the hour itself, or NaN for a
   * negative hour, whose minus sign splits the key into three pieces.
   */
  function CellHour(h: int): Option<int> {
    if h >= 0 then Some(h) else None
  }

  /** A key splits back into its label and, in its second piece, the cell's hour. */
  lemma KeyDecode(group: string, h: int)
    requires PlainLabel(group)
    ensures |Split(CellKey(group, h), '-')| > 1
    ensures Split(CellKey(group, h), '-')[0] == group
    ensures ParseInt(Split(CellKey(group, h), '-')[1]) == CellHour(h)
  {
    var digits := NatToString(if h < 0 then -h else h);
    assert '-' !in digits by {
      assert forall i | 0 <= i < |digits| :: IsDigit(digits[i]);
    }
    if h >= 0 {
      assert CellKey(group, h) == Join([group, digits], "-") by {
        assert [group, digits][..1] == [group];
      }
      SplitJoin([group, digits], '-');
      ParseIntOfNumber(h, []);
      assert digits + [] == digits;
    } else {
      assert CellKey(group, h) == Join([group, "", digits], "-") by {
        assert [group, "", digits][..2] == [group, ""];
        assert [group, ""][..1] == [group];
      }
      SplitJoin([group, "", digits], '-');
    }
  }

  /** Keys of labels without a dash are distinct for distinct cells, negative hours included. */
  lemma CellKeyInjective(g1: string, h1: int, g2: string, h2: int)
    requires PlainLabel(g1) && PlainLabel(g2)
    requires CellKey(g1, h1) == CellKey(g2, h2)
    ensures g1 == g2 && h1 == h2
  {
    var k := CellKey(g1, h1);
    assert k == g1 + ['-'] + IntToString(h1);
    assert k == g2 + ['-'] + IntToString(h2);
    SplitFirst(g1, '-', IntToString(h1));
    SplitFirst(g2, '-', IntToString(h2));
    assert IntToString(h1) == k[|g1| + 1..] == IntToString(h2);
    ParseIntOfInt(h1, []);
    ParseIntOfInt(h2, []);
    assert IntToString(h1) + [] == IntToString(h1);
    assert IntToString(h2) + [] == IntToString(h2);
  }

  /** The cell a key of the counting map decodes to. */
  lemma CellOfKey(group: string, h: int, name: string, count: int)
    requires PlainLabel(group)
    ensures ToCell(Tally(CellKey(group, h), name, count)) == PeakCell(group, CellHour(h), count)
  {
    KeyDecode(group, h);
  }

  lemma IncreasingPrefix(hs: seq<int>, n: nat, h: int)
    requires 0 < n <= |hs|
    requires forall i, j | 0 <= i < j < |hs| :: hs[i] < hs[j]
    ensures h in hs[..n] <==> h in hs[..n - 1] || hs[n - 1] == h
    ensures !(h in hs[..n - 1] && hs[n - 1] == h)
  {
    assert hs[..n] == hs[..n - 1] + [hs[n - 1]];
    if h in hs[..n - 1] {
      var j :| 0 <= j < n - 1 && hs[..n - 1][j] == h;
      assert hs[j] < hs[n - 1];
    }
  }

  lemma KeyedKeyMatch(grp: string, hs: seq<int>, group: string, h: int, j: nat)
    requires PlainLabel(grp) && PlainLabel(group) && j < |hs|
    ensures KeyedEntries(grp, hs)[j].key == CellKey(group, h) <==> grp == group && hs[j] == h
    ensures KeyedEntries(grp, hs)[j].weight == 1
  {
    if KeyedEntries(grp, hs)[j].key == CellKey(group, h) {
      CellKeyInjective(grp, hs[j], group, h);
    }
  }

  lemma KeyedWeightStep(es: seq<Entry>, n: nat, key: string)
    requires 0 < n <= |es|
    ensures WeightOf(es[..n], key) == WeightOf(es[..n - 1], key) + (if es[n - 1].key == key then es[n - 1].weight else 0)
  {
    assert es[..n] == es[..n - 1] + [es[n - 1]];
    WeightOfStep(es[..n - 1], es[n - 1], key);
  }

  lemma {:induction false} KeyedWeightPrefix(grp: string, hs: seq<int>, group: string, h: int, n: nat)
    requires PlainLabel(grp) && PlainLabel(group) && n <= |hs|
    requires forall i, j | 0 <= i < j < |hs| :: hs[i] < hs[j]
    ensures WeightOf(KeyedEntries(grp, hs)[..n], CellKey(group, h)) == if grp == group && h in hs[..n] then 1 else 0
  {
    if n > 0 {
      KeyedWeightPrefix(grp, hs, group, h, n - 1);
      KeyedWeightStep(KeyedEntries(grp, hs), n, CellKey(group, h));
      KeyedKeyMatch(grp, hs, group, h, n - 1);
      IncreasingPrefix(hs, n, h);
    }
  }

  /** The weight of a cell's key among a reservation's increments is 1 if it hits the cell, else 0. */
  lemma HourWeight(r: Reservation, g: Grouping, group: string, h: int)
    requires PlainLabel(group)
    ensures WeightOf(HourEntries(r, g), CellKey(group, h)) == if Hits(r, g, group, h) then 1 else 0
  {
    var hs := HoursOf(r);
    GroupLabelFacts(g, r);
    HoursFacts(r);
    KeyedWeightPrefix(GroupLabel(g, r), hs, group, h, |hs|);
    assert HourEntries(r, g)[..|hs|] == HourEntries(r, g);
    assert hs[..|hs|] == hs;
  }

  /** The count under a cell's key is the number of reservations that hit the cell. */
  lemma {:induction false} PeakWeight(rs: seq<Reservation>, g: Grouping, group: string, h: int)
    requires PlainLabel(group)
    ensures WeightOf(PeakEntries(rs, g), CellKey(group, h)) == HitCount(rs, g, group, h)
  {
    if rs != [] {
      PeakWeight(rs[..|rs| - 1], g, group, h);
      WeightOfAppend(PeakEntries(rs[..|rs| - 1], g), HourEntries(rs[|rs| - 1], g), CellKey(group, h));
      HourWeight(rs[|rs| - 1], g, group, h);
    }
  }

  /** The i-th increment of one reservation is for its i-th hour. */
  lemma HourEntryKey(r: Reservation, g: Grouping, i: nat)
    requires i < |HourEntries(r, g)|
    ensures i < |HoursOf(r)| && HoursOf(r)[i] in HoursOf(r)
    ensures HourEntries(r, g)[i].key == CellKey(GroupLabel(g, r), HoursOf(r)[i])
  {
  }

  /** An index into the increments falls in the earlier reservations' part or in the last one's. */
  lemma PeakEntryAt(rs: seq<Reservation>, g: Grouping, j: nat)
    requires rs != [] && j < |PeakEntries(rs, g)|
    ensures var A := PeakEntries(rs[..|rs| - 1], g);
      if j < |A| then PeakEntries(rs, g)[j] == A[j]
      else j - |A| < |HourEntries(rs[|rs| - 1], g)| && PeakEntries(rs, g)[j] == HourEntries(rs[|rs| - 1], g)[j - |A|]
  {
    var A, B := PeakEntries(rs[..|rs| - 1], g), HourEntries(rs[|rs| - 1], g);
    assert PeakEntries(rs, g) == A + B;
  }

  /** Every increment is for a cell that some reservation hits. */
  lemma {:induction false} PeakKeyOrigin(rs: seq<Reservation>, g: Grouping, j: nat)
    requires j < |PeakEntries(rs, g)|
    ensures exists r, h | r in rs && h in HoursOf(r) :: PeakEntries(rs, g)[j].key == CellKey(GroupLabel(g, r), h)
  {
    var init, last := rs[..|rs| - 1], rs[|rs| - 1];
    var A := PeakEntries(init, g);
    PeakEntryAt(rs, g, j);
    if j < |A| {
      PeakKeyOrigin(init, g, j);
      var r, h :| r in init && h in HoursOf(r) && A[j].key == CellKey(GroupLabel(g, r), h);
      InInit(rs, r);
      assert r in rs && h in HoursOf(r) && PeakEntries(rs, g)[j].key == CellKey(GroupLabel(g, r), h);
    } else {
      var i := j - |A|;
      HourEntryKey(last, g, i);
      var h := HoursOf(last)[i];
      assert last in rs && h in HoursOf(last) && PeakEntries(rs, g)[j].key == CellKey(GroupLabel(g, last), h);
    }
  }

  /** Every hour of every reservation has an increment. */
  lemma {:induction false} PeakKeyPresent(rs: seq<Reservation>, g: Grouping, r: Reservation, h: int)
    requires r in rs && h in HoursOf(r)
    ensures exists j | 0 <= j < |PeakEntries(rs, g)| :: PeakEntries(rs, g)[j].key == CellKey(GroupLabel(g, r), h)
  {
    var init, last := rs[..|rs| - 1], rs[|rs| - 1];
    var A := PeakEntries(init, g);
    var key := CellKey(GroupLabel(g, r), h);
    if r == last {
      var hs := HoursOf(r);
      var i :| 0 <= i < |hs| && hs[i] == h;
      assert |HourEntries(last, g)| == |hs|;
      PeakEntryAt(rs, g, |A| + i);
      HourEntryKey(last, g, i);
      assert PeakEntries(rs, g)[|A| + i].key == key;
    } else {
      InInitOrLast(rs, r);
      PeakKeyPresent(init, g, r, h);
      var j :| 0 <= j < |A| && A[j].key == key;
      PeakEntryAt(rs, g, j);
      assert PeakEntries(rs, g)[j].key == key;
    }
  }

  /**
   * Every tally of the counting map is the key of a cell (label, hour) that some reservation
   * hits, counts its hits and decodes to that label and the hour `parseInt` reads back.
   */
  lemma TallyCell(rs: seq<Reservation>, g: Grouping, t: Tally)
    requires t in Tallies(PeakEntries(rs, g))
    ensures ToCell(t).group in GroupLabels(g) && PlainLabel(ToCell(t).group)
    ensures exists h ::
      && t.key == CellKey(ToCell(t).group, h) && ToCell(t).hour == CellHour(h)
      && ToCell(t).reservations == HitCount(rs, g, ToCell(t).group, h) >= 1
  {
    var es := PeakEntries(rs, g);
    var ts := Tallies(es);
    TalliesKeySet(es);
    TalliesCount(es);
    var i :| 0 <= i < |ts| && ts[i] == t;
    assert t.key in KeySet(ts);
    var j :| 0 <= j < |es| && es[j].key == t.key;
    PeakKeyOrigin(rs, g, j);
    var r, h :| r in rs && h in HoursOf(r) && t.key == CellKey(GroupLabel(g, r), h);
    GroupLabelFacts(g, r);
    CellOfKey(GroupLabel(g, r), h, t.name, t.count);
    PeakWeight(rs, g, GroupLabel(g, r), h);
    HitCountPositive(rs, g, GroupLabel(g, r), h, r);
  }

  lemma PeakEntriesObjectOrder(rs: seq<Reservation>, g: Grouping)
    ensures ObjectEntries(Tallies(PeakEntries(rs, g))) == Tallies(PeakEntries(rs, g))
  {
    var ts := Tallies(PeakEntries(rs, g));
    forall i | 0 <= i < |ts| ensures IsNamedTally(ts[i]) {
      TallyCell(rs, g, ts[i]);
      var group := ToCell(ts[i]).group;
      var h :| ts[i].key == CellKey(group, h);
      assert ts[i].key[0] == group[0];
    }
    ObjectEntriesNamed(ts);
  }

  /**
   * Every peak cell carries a month or weekday label and counts the completed or active
   * in-range reservations whose hours include its hour (so at least 1); a readable hour is
   * never negative.
   */
  lemma PeakCellsCounts(rs: seq<Reservation>, startYear: int, endYear: int, g: Grouping)
    ensures forall c | c in PeakCells(rs, startYear, endYear, g) ::
      && c.group in GroupLabels(g)
      && exists h :: c.hour == CellHour(h) && c.reservations == HitCount(HeldInRange(rs, startYear, endYear), g, c.group, h) >= 1
    ensures forall c | c in PeakCells(rs, startYear, endYear, g) && c.hour.Some? ::
      && c.hour.value >= 0
      && c.reservations == HitCount(HeldInRange(rs, startYear, endYear), g, c.group, c.hour.value) >= 1
  {
    forall c | c in PeakCells(rs, startYear, endYear, g) {
      PeakCellFacts(rs, startYear, endYear, g, c);
    }
  }

  lemma PeakCellFacts(rs: seq<Reservation>, startYear: int, endYear: int, g: Grouping, c: PeakCell)
    requires c in PeakCells(rs, startYear, endYear, g)
    ensures c.group in GroupLabels(g)
    ensures exists h :: c.hour == CellHour(h) && c.reservations == HitCount(HeldInRange(rs, startYear, endYear), g, c.group, h) >= 1
    ensures c.hour.Some? ==> c.hour.value >= 0 && c.reservations == HitCount(HeldInRange(rs, startYear, endYear), g, c.group, c.hour.value) >= 1
  {
    var held := HeldInRange(rs, startYear, endYear);
    var ts := Tallies(PeakEntries(held, g));
    PeakEntriesObjectOrder(held, g);
    var i :| 0 <= i < |ts| && PeakCells(rs, startYear, endYear, g)[i] == c;
    TallyCell(held, g, ts[i]);
  }

  /** No two peak cells share a label and a readable hour. */
  lemma PeakCellsDistinct(rs: seq<Reservation>, startYear: int, endYear: int, g: Grouping)
    ensures var cells := PeakCells(rs, startYear, endYear, g);
      forall i, j | 0 <= i < j < |cells| && cells[i].hour.Some? :: cells[i].group != cells[j].group || cells[i].hour != cells[j].hour
  {
    var held := HeldInRange(rs, startYear, endYear);
    var ts := Tallies(PeakEntries(held, g));
    PeakEntriesObjectOrder(held, g);
    TalliesDistinct(PeakEntries(held, g));
    forall i, j | 0 <= i < j < |ts| && ToCell(ts[i]).hour.Some?
      ensures ToCell(ts[i]).group != ToCell(ts[j]).group || ToCell(ts[i]).hour != ToCell(ts[j]).hour
    {
      TallyCell(held, g, ts[i]);
      TallyCell(held, g, ts[j]);
    }
  }

  /** Every hour of every completed or active in-range reservation has its cell, with its hit count. */
  lemma PeakCellsComplete(rs: seq<Reservation>, startYear: int, endYear: int, g: Grouping, r: Reservation, h: int)
    requires r in HeldInRange(rs, startYear, endYear) && h in HoursOf(r)
    ensures exists c | c in PeakCells(rs, startYear, endYear, g) ::
      && c.group == GroupLabel(g, r) && c.hour == CellHour(h)
      && c.reservations == HitCount(HeldInRange(rs, startYear, endYear), g, GroupLabel(g, r), h)
  {
    var held := HeldInRange(rs, startYear, endYear);
    var es := PeakEntries(held, g);
    var ts := Tallies(es);
    PeakEntriesObjectOrder(held, g);
    TalliesKeySet(es);
    TalliesCount(es);
    var key := CellKey(GroupLabel(g, r), h);
    PeakKeyPresent(held, g, r, h);
    assert key in EntryKeySet(es);
    var i :| 0 <= i < |ts| && ts[i].key == key;
    GroupLabelFacts(g, r);
    CellOfKey(GroupLabel(g, r), h, ts[i].name, ts[i].count);
    PeakWeight(held, g, GroupLabel(g, r), h);
    assert PeakCells(rs, startYear, endYear, g)[i] == ToCell(ts[i]);
  }

  // ---------------------------------------------------------------- top three plus Others

  datatype PieChart = PieChart(labels: seq<string>, data: seq<int>)

  /** One occurrence per table id. */
  function IdEntries(ids: seq<string>): (es: seq<Entry>)
    ensures |es| == |ids| && forall j | 0 <= j < |es| :: es[j] == Entry(ids[j], ids[j], 1)
  {
    seq(|ids|, j requires 0 <= j < |ids| => Entry(ids[j], ids[j], 1))
  }

  /** One occurrence per order line, keyed by food id, named by food name, weighted by quantity. */
  function OrderEntries(os: seq<ResOrder>): (es: seq<Entry>)
    ensures |es| == |os| && forall j | 0 <= j < |es| :: es[j] == Entry(os[j].foodId, os[j].foodName, os[j].number)
  {
    seq(|os|, j requires 0 <= j < |os| => Entry(os[j].foodId, os[j].foodName, os[j].number))
  }

  function TableEntriesOf(r: Reservation): seq<Entry> { IdEntries(r.tableIds) }
  function FoodEntriesOf(r: Reservation): seq<Entry> { OrderEntries(r.orders) }
  function TableCount(r: Reservation): int { |r.tableIds| }
  function OrderNumber(o: ResOrder): int { o.number }
  function OrderedQuantity(r: Reservation): int { SumBy(r.orders, OrderNumber) }

  lemma {:induction false} IdEntriesWeight(ids: seq<string>)
    ensures TotalWeight(IdEntries(ids)) == |ids|
  {
    if ids != [] {
      IdEntriesWeight(ids[..|ids| - 1]);
      assert IdEntries(ids)[..|ids| - 1] == IdEntries(ids[..|ids| - 1]);
    }
  }

  lemma {:induction false} OrderEntriesWeight(os: seq<ResOrder>)
    ensures TotalWeight(OrderEntries(os)) == SumBy(os, OrderNumber)
  {
    if os != [] {
      OrderEntriesWeight(os[..|os| - 1]);
      assert OrderEntries(os)[..|os| - 1] == OrderEntries(os[..|os| - 1]);
    }
  }

  function CountKey(t: Tally): real { t.count as real }

  /** The counting map's entries sorted by descending count; the sort is stable. */
  function Ranking(es: seq<Entry>): seq<Tally> {
    SortDesc(Tallies(es), CountKey)
  }

  /** `tables.find(t => t.id === id)`: the first table with that id. */
  function FindTable(tables: seq<DineTable>, id: string): (r: Option<DineTable>)
    ensures r.Some? ==> r.value in tables && r.value.id == id
    ensures r.None? <==> forall t | t in tables :: t.id != id
    ensures r.Some? ==> exists k | 0 <= k < |tables| :: tables[k] == r.value && forall j | 0 <= j < k :: tables[j].id != id
  {
    if tables == [] then None
    else if tables[0].id == id then Some(tables[0])
    else FindTable(tables[1..], id)
  }

  /** `table?.name || \`Table ${tableId}\``: an unknown table or an empty name falls back to the id. */
  function TableLabel(tables: seq<DineTable>, id: string): (l: string)
    ensures (forall t | t in tables :: t.id != id) ==> l == "Table " + id
    ensures forall k | 0 <= k < |tables| && tables[k].id == id && (forall j | 0 <= j < k :: tables[j].id != id) ::
      l == if tables[k].name != "" then tables[k].name else "Table " + id
    ensures l != "Table " + id ==> exists t | t in tables :: t.id == id && t.name == l
  {
    match FindTable(tables, id)
    case Some(t) => if t.name != "" then t.name else "Table " + id
    case None => "Table " + id
  }

  /** How a ranked entry is labelled: by the table list, or by the food name kept in the map. */
  datatype Labeller = ByTableName(tables: seq<DineTable>) | ByFoodName

  function LabelOf(lab: Labeller, t: Tally): string {
    match lab
    case ByTableName(tables) => TableLabel(tables, t.key)
    case ByFoodName => t.name
  }

  function Min(a: int, b: int): int { if a < b then a else b }

  /** The counts of the first `k` ranked entries. */
  function TopCounts(ranked: seq<Tally>, k: nat): (d: seq<int>)
    requires k <= |ranked|
    ensures |d| == k && forall i | 0 <= i < k :: d[i] == ranked[i].count
  {
    seq(k, i requires 0 <= i < k => ranked[i].count)
  }

  function TopLabels(ranked: seq<Tally>, k: nat, lab: Labeller): (l: seq<string>)
    requires k <= |ranked|
    ensures |l| == k && forall i | 0 <= i < k :: l[i] == LabelOf(lab, ranked[i])
  {
    seq(k, i requires 0 <= i < k => LabelOf(lab, ranked[i]))
  }

  /**
   * The first three ranked entries, then one "Others" slice holding the rest when there is a
   * rest: at most four slices, the first three with the ranked entries' labels and counts, and
   * a last slice "Others" exactly when more than three entries were ranked.
   */
  function PieOf(ranked: seq<Tally>, lab: Labeller): (p: PieChart)
    ensures |p.labels| == |p.data| == Min(3, |ranked|) + (if |ranked| > 3 then 1 else 0) <= 4
    ensures forall i | 0 <= i < Min(3, |ranked|) :: p.labels[i] == LabelOf(lab, ranked[i]) && p.data[i] == ranked[i].count
    ensures |p.labels| == 4 && p.labels[3] == "Others" <==> |ranked| > 3
  {
    var k := Min(3, |ranked|);
    PieChart(
      TopLabels(ranked, k, lab) + (if |ranked| > 3 then ["Others"] else []),
      TopCounts(ranked, k) + (if |ranked| > 3 then [SumBy(ranked[3..], TallyCount)] else []))
  }

  /** One more pushed entry extends the labels by that entry's. */
  lemma TopLabelsStep(ranked: seq<Tally>, i: nat, lab: Labeller)
    requires i < |ranked|
    ensures TopLabels(ranked, i + 1, lab) == TopLabels(ranked, i, lab) + [LabelOf(lab, ranked[i])]
  {
    var a, b := TopLabels(ranked, i + 1, lab), TopLabels(ranked, i, lab) + [LabelOf(lab, ranked[i])];
    forall k | 0 <= k < |a| ensures a[k] == b[k] {
      if k < i {
        assert b[k] == TopLabels(ranked, i, lab)[k];
      }
    }
  }

  /** One more pushed entry extends the counts by that entry's. */
  lemma TopCountsStep(ranked: seq<Tally>, i: nat)
    requires i < |ranked|
    ensures TopCounts(ranked, i + 1) == TopCounts(ranked, i) + [ranked[i].count]
  {
    var c, d := TopCounts(ranked, i + 1), TopCounts(ranked, i) + [ranked[i].count];
    forall k | 0 <= k < |c| ensures c[k] == d[k] {
      if k < i {
        assert d[k] == TopCounts(ranked, i)[k];
      }
    }
  }

  /** The loop that pushes the top three labels and counts, then the "Others" slice. */
  method BuildPie(ranked: seq<Tally>, lab: Labeller) returns (pie: PieChart)
    ensures pie == PieOf(ranked, lab)
  {
    var labels: seq<string> := [];
    var data: seq<int> := [];
    var k := Min(3, |ranked|);
    for i := 0 to k
      invariant labels == TopLabels(ranked, i, lab)
      invariant data == TopCounts(ranked, i)
    {
      TopLabelsStep(ranked, i, lab);
      TopCountsStep(ranked, i);
      labels := labels + [LabelOf(lab, ranked[i])];
      data := data + [ranked[i].count];
    }
    if |ranked| > 3 {
      var others := SumBy(ranked[3..], TallyCount);
      labels := labels + ["Others"];
      data := data + [others];
    }
    pie := PieChart(labels, data);
  }

  /** The chart `getTopReservedTables` returns. */
  function TopTables(rs: seq<Reservation>, tables: seq<DineTable>, startYear: int, endYear: int): PieChart {
    PieOf(Ranking(Flatten(HeldInRange(rs, startYear, endYear), TableEntriesOf)), ByTableName(tables))
  }

  /** The chart `getTopOrderedFood` returns. */
  function TopFood(rs: seq<Reservation>, startYear: int, endYear: int): PieChart {
    PieOf(Ranking(Flatten(CompletedInRange(rs, startYear, endYear), FoodEntriesOf)), ByFoodName)
  }

  /** `getTopReservedTables`: table bookings of completed or active in-range reservations. */
  method GetTopReservedTables(rs: seq<Reservation>, tables: seq<DineTable>, startYear: int, endYear: int) returns (pie: PieChart)
    ensures pie == TopTables(rs, tables, startYear, endYear)
  {
    var filtered := HeldInRange(rs, startYear, endYear);
    var counts := CountAll(filtered, TableEntriesOf);
    var ranked := SortDesc(counts, CountKey);
    pie := BuildPie(ranked, ByTableName(tables));
  }

  /** `getTopOrderedFood`: ordered quantities of completed in-range reservations. */
  method GetTopOrderedFood(rs: seq<Reservation>, startYear: int, endYear: int) returns (pie: PieChart)
    ensures pie == TopFood(rs, startYear, endYear)
  {
    var filtered := CompletedInRange(rs, startYear, endYear);
    var counts := CountAll(filtered, FoodEntriesOf);
    var ranked := SortDesc(counts, CountKey);
    pie := BuildPie(ranked, ByFoodName);
  }

  // ---------------------------------------------------------------- what the top-N charts mean

  /** The slices add up to the counts of all ranked entries. */
  lemma PieSum(ranked: seq<Tally>, lab: Labeller)
    ensures Sum(PieOf(ranked, lab).data) == SumBy(ranked, TallyCount)
  {
    var k := Min(3, |ranked|);
    var top := TopCounts(ranked, k);
    PrefixSum(ranked, k);
    if |ranked| > 3 {
      var others := SumBy(ranked[3..], TallyCount);
      assert PieOf(ranked, lab).data == top + [others];
      SumAppend(top, [others]);
      assert [others][..0] == [];
      assert ranked == ranked[..3] + ranked[3..];
      SumByAppend(ranked[..3], ranked[3..], TallyCount);
    } else {
      assert PieOf(ranked, lab).data == top;
      assert ranked[..k] == ranked;
    }
  }

  /** The counts of the first `k` ranked entries add up to their `SumBy`. */
  lemma {:induction false} PrefixSum(ranked: seq<Tally>, k: nat)
    requires k <= |ranked|
    ensures Sum(TopCounts(ranked, k)) == SumBy(ranked[..k], TallyCount)
  {
    if k > 0 {
      PrefixSum(ranked, k - 1);
      assert TopCounts(ranked, k)[..k - 1] == TopCounts(ranked, k - 1);
      assert ranked[..k][..k - 1] == ranked[..k - 1];
    }
  }

  /** Ranked entries come by non-increasing count, so the first three slices do too. */
  lemma PieDescending(ranked: seq<Tally>, lab: Labeller)
    requires SortedDesc(ranked, CountKey)
    ensures var p := PieOf(ranked, lab);
      forall i, j | 0 <= i < j < Min(3, |ranked|) :: p.data[i] >= p.data[j]
  {
    var p := PieOf(ranked, lab);
    forall i, j | 0 <= i < j < Min(3, |ranked|) ensures p.data[i] >= p.data[j] {
      assert CountKey(ranked[i]) >= CountKey(ranked[j]);
    }
  }

  /** The ranking holds one entry per distinct key, sorted, with the counts adding up to the total weight. */
  lemma RankingFacts(es: seq<Entry>)
    ensures |Ranking(es)| == |EntryKeySet(es)|
    ensures SortedDesc(Ranking(es), CountKey)
    ensures SumBy(Ranking(es), TallyCount) == TotalWeight(es)
  {
    TalliesSize(es);
    SortDescSorted(Tallies(es), CountKey);
    TalliesSum(es);
    SumBySort(Tallies(es), CountKey, TallyCount);
  }

  /** Entries with equal counts are ranked in the order their keys were first seen. */
  lemma RankingTies(es: seq<Entry>, c: real)
    ensures var tied := KeyClass(Ranking(es), CountKey, c);
      forall i, j | 0 <= i < j < |tied| :: FirstIndex(es, tied[i].key) < FirstIndex(es, tied[j].key)
  {
    SortDescStable(Tallies(es), CountKey, c);
    TalliesOrder(es);
    KeyClassIncreasing(Tallies(es), CountKey, c, (t: Tally) => FirstIndex(es, t.key));
  }

  /** Each ranked entry carries the name of its key's first occurrence. */
  lemma RankingNames(es: seq<Entry>)
    ensures forall t | t in Ranking(es) :: FirstIndex(es, t.key) < |es| && t.name == es[FirstIndex(es, t.key)].name
  {
    TalliesName(es);
    forall t | t in Ranking(es) ensures FirstIndex(es, t.key) < |es| && t.name == es[FirstIndex(es, t.key)].name {
      assert t in multiset(Ranking(es));
      var i :| 0 <= i < |Tallies(es)| && Tallies(es)[i] == t;
    }
  }

  /**
   * `getTopReservedTables`: at most four slices; the first three count bookings of the most
   * booked tables, by non-increasing count; "Others" comes last exactly when more than three
   * distinct table ids were booked; the slices add up to the number of bookings.
   */
  lemma TopTablesFacts(rs: seq<Reservation>, tables: seq<DineTable>, startYear: int, endYear: int)
    ensures var held := HeldInRange(rs, startYear, endYear);
      var p := TopTables(rs, tables, startYear, endYear);
      && |p.labels| == |p.data| <= 4
      && (forall i, j | 0 <= i < j < |p.data| && j < 3 :: p.data[i] >= p.data[j])
      && (|p.labels| == 4 && p.labels[3] == "Others" <==> |EntryKeySet(Flatten(held, TableEntriesOf))| > 3)
      && Sum(p.data) == SumBy(held, TableCount)
  {
    var held := HeldInRange(rs, startYear, endYear);
    var es := Flatten(held, TableEntriesOf);
    var ranked := Ranking(es);
    RankingFacts(es);
    PieDescending(ranked, ByTableName(tables));
    PieSum(ranked, ByTableName(tables));
    forall r | r in held ensures TableCount(r) == TotalWeight(TableEntriesOf(r)) {
      IdEntriesWeight(r.tableIds);
    }
    FlattenWeight(held, TableEntriesOf, TableCount);
  }

  /** `getTopOrderedFood`: the same shape over the ordered quantities of completed reservations. */
  lemma TopFoodFacts(rs: seq<Reservation>, startYear: int, endYear: int)
    ensures var done := CompletedInRange(rs, startYear, endYear);
      var es := Flatten(done, FoodEntriesOf);
      var p := TopFood(rs, startYear, endYear);
      && |p.labels| == |p.data| <= 4
      && (forall i, j | 0 <= i < j < |p.data| && j < 3 :: p.data[i] >= p.data[j])
      && (|p.labels| == 4 && p.labels[3] == "Others" <==> |EntryKeySet(es)| > 3)
      && Sum(p.data) == SumBy(done, OrderedQuantity)
  {
    var done := CompletedInRange(rs, startYear, endYear);
    var es := Flatten(done, FoodEntriesOf);
    var ranked := Ranking(es);
    RankingFacts(es);
    PieDescending(ranked, ByFoodName);
    PieSum(ranked, ByFoodName);
    forall r | r in done ensures OrderedQuantity(r) == TotalWeight(FoodEntriesOf(r)) {
      OrderEntriesWeight(r.orders);
    }
    FlattenWeight(done, FoodEntriesOf, OrderedQuantity);
  }

  /** Each of the first three food slices is labelled with the name of the first order seen for its food id. */
  lemma TopFoodLabels(rs: seq<Reservation>, startYear: int, endYear: int)
    ensures var es := Flatten(CompletedInRange(rs, startYear, endYear), FoodEntriesOf);
      var p := TopFood(rs, startYear, endYear);
      forall i | 0 <= i < |p.labels| && i < 3 ::
        i < |Ranking(es)| && FirstIndex(es, Ranking(es)[i].key) < |es| && p.labels[i] == es[FirstIndex(es, Ranking(es)[i].key)].name
  {
    var es := Flatten(CompletedInRange(rs, startYear, endYear), FoodEntriesOf);
    var ranked := Ranking(es);
    RankingNames(es);
    forall i | 0 <= i < Min(3, |ranked|) ensures ranked[i] in ranked {
    }
  }

  // ---------------------------------------------------------------- top-rated foods

  datatype RatedFood = RatedFood(foodId: string, foodName: string, averageRating: real, numberOfRatings: int)

  predicate HasReviews(m: MenuItem) { m.noOfReviews > 0 }

  function ToRated(m: MenuItem): RatedFood {
    RatedFood(m.id, m.name, m.averageRating, m.noOfReviews)
  }

  function RatingKey(f: RatedFood): real { f.averageRating }

  function MapRated(ms: seq<MenuItem>): (fs: seq<RatedFood>)
    ensures |fs| == |ms| && forall i | 0 <= i < |ms| :: fs[i] == ToRated(ms[i])
  {
    seq(|ms|, i requires 0 <= i < |ms| => ToRated(ms[i]))
  }

  /**
   * `getTopRatedFoods`: the reviewed menu items, as rated-food records, by non-increasing
   * average rating; the year bounds are accepted but not used.
   */
  function GetTopRatedFoods(items: seq<MenuItem>, startYear: int, endYear: int): (r: seq<RatedFood>)
    ensures SortedDesc(r, RatingKey)
    ensures multiset(r) == multiset(MapRated(Filter(items, HasReviews)))
  {
    SortDescSorted(MapRated(Filter(items, HasReviews)), RatingKey);
    SortDesc(MapRated(Filter(items, HasReviews)), RatingKey)
  }

  /** A record is listed exactly when it comes from a menu item with at least one review. */
  lemma TopRatedMembers(items: seq<MenuItem>, startYear: int, endYear: int, f: RatedFood)
    ensures f in GetTopRatedFoods(items, startYear, endYear) <==> exists m | m in items :: HasReviews(m) && ToRated(m) == f
  {
    var kept := Filter(items, HasReviews);
    FilterMembers(items, HasReviews);
    var r := GetTopRatedFoods(items, startYear, endYear);
    assert f in r <==> f in multiset(r);
    if f in MapRated(kept) {
      var i :| 0 <= i < |kept| && MapRated(kept)[i] == f;
      assert kept[i] in kept;
    }
    if exists m | m in items :: HasReviews(m) && ToRated(m) == f {
      var m :| m in items && HasReviews(m) && ToRated(m) == f;
      var i :| 0 <= i < |kept| && kept[i] == m;
      assert MapRated(kept)[i] == f;
    }
  }

  /** Foods with equal ratings keep their menu order. */
  lemma TopRatedTies(items: seq<MenuItem>, startYear: int, endYear: int, c: real)
    ensures KeyClass(GetTopRatedFoods(items, startYear, endYear), RatingKey, c) == KeyClass(MapRated(Filter(items, HasReviews)), RatingKey, c)
  {
    SortDescStable(MapRated(Filter(items, HasReviews)), RatingKey, c);
  }

  // ---------------------------------------------------------------- category averages

  datatype BarGraph = BarGraph(labels: seq<string>, data: seq<real>)

  const Categories: seq<string> := ["Overall", "Food Quality", "Service", "Cleanliness", "Ambiance", "Value for Money"]

  /** Feedback without a creation date is always kept; dated feedback must fall in the year range. */
  predicate KeptFeedback(f: Feedback, startYear: int, endYear: int) {
    f.createdYear.None? || startYear <= f.createdYear.value <= endYear
  }

  function FeedbackInRange(fbs: seq<Feedback>, startYear: int, endYear: int): seq<Feedback> {
    Filter(fbs, f => KeptFeedback(f, startYear, endYear))
  }

  lemma FeedbackInRangeMembers(fbs: seq<Feedback>, startYear: int, endYear: int, f: Feedback)
    ensures f in FeedbackInRange(fbs, startYear, endYear) <==> f in fbs && KeptFeedback(f, startYear, endYear)
  {
    FilterMembers(fbs, f => KeptFeedback(f, startYear, endYear));
  }

  function OverallOf(f: Feedback): int { f.overallRating }
  function FoodQualityOf(f: Feedback): int { f.foodQualityRating }
  function ServiceOf(f: Feedback): int { f.serviceRating }
  function CleanlinessOf(f: Feedback): int { f.cleanlinessRating }
  function AmbianceOf(f: Feedback): int { f.ambianceRating }
  function ValueForMoneyOf(f: Feedback): int { f.valueForMoneyRating }

  /** `filtered.length || 1`. */
  function Divisor(n: nat): (d: nat)
    ensures d >= 1 && (n > 0 ==> d == n)
  {
    if n == 0 then 1 else n
  }

  function Average(total: int, n: nat): real {
    total as real / Divisor(n) as real
  }

  /** The six averages, in the order of the category labels. */
  function CategoryAverages(fs: seq<Feedback>): seq<real> {
    var n := |fs|;
    [ Average(SumBy(fs, OverallOf), n), Average(SumBy(fs, FoodQualityOf), n), Average(SumBy(fs, ServiceOf), n),
      Average(SumBy(fs, CleanlinessOf), n), Average(SumBy(fs, AmbianceOf), n), Average(SumBy(fs, ValueForMoneyOf), n) ]
  }

  /** `getAverageRatingsByCategory`: the kept feedback's totals accumulate in a `forEach`, then each is divided. */
  method GetAverageRatingsByCategory(fbs: seq<Feedback>, startYear: int, endYear: int) returns (bar: BarGraph)
    ensures bar == BarGraph(Categories, CategoryAverages(FeedbackInRange(fbs, startYear, endYear)))
  {
    var filtered := FeedbackInRange(fbs, startYear, endYear);
    var overall, foodQuality, service, cleanliness, ambiance, valueForMoney := 0, 0, 0, 0, 0, 0;
    for i := 0 to |filtered|
      invariant overall == SumBy(filtered[..i], OverallOf)
      invariant foodQuality == SumBy(filtered[..i], FoodQualityOf)
      invariant service == SumBy(filtered[..i], ServiceOf)
      invariant cleanliness == SumBy(filtered[..i], CleanlinessOf)
      invariant ambiance == SumBy(filtered[..i], AmbianceOf)
      invariant valueForMoney == SumBy(filtered[..i], ValueForMoneyOf)
    {
      var f := filtered[i];
      SumByStep(filtered, OverallOf, i);
      SumByStep(filtered, FoodQualityOf, i);
      SumByStep(filtered, ServiceOf, i);
      SumByStep(filtered, CleanlinessOf, i);
      SumByStep(filtered, AmbianceOf, i);
      SumByStep(filtered, ValueForMoneyOf, i);
      overall := overall + f.overallRating;
      foodQuality := foodQuality + f.foodQualityRating;
      service := service + f.serviceRating;
      cleanliness := cleanliness + f.cleanlinessRating;
      ambiance := ambiance + f.ambianceRating;
      valueForMoney := valueForMoney + f.valueForMoneyRating;
    }
    assert filtered[..|filtered|] == filtered;
    var count := Divisor(|filtered|);
    bar := BarGraph(Categories, [
      overall as real / count as real, foodQuality as real / count as real, service as real / count as real,
      cleanliness as real / count as real, ambiance as real / count as real, valueForMoney as real / count as real]);
  }

  /** With no kept feedback every average is 0 (the divisor is 1, not 0). */
  lemma AveragesEmpty(fbs: seq<Feedback>, startYear: int, endYear: int)
    requires forall f | f in fbs :: !KeptFeedback(f, startYear, endYear)
    ensures CategoryAverages(FeedbackInRange(fbs, startYear, endYear)) == [0.0, 0.0, 0.0, 0.0, 0.0, 0.0]
  {
    FilterNone(fbs, f => KeptFeedback(f, startYear, endYear));
  }

  lemma AverageBetween(total: int, n: nat, lo: int, hi: int)
    requires n > 0 && n * lo <= total <= n * hi
    ensures lo as real <= Average(total, n) <= hi as real
  {
    var q := total as real / n as real;
    assert q * n as real == total as real;
    assert (n * lo) as real == n as real * lo as real;
    assert (n * hi) as real == n as real * hi as real;
  }

  /** A star rating from 1 to 5 in every category. */
  predicate StarRatings(f: Feedback) {
    && 1 <= f.overallRating <= 5 && 1 <= f.foodQualityRating <= 5 && 1 <= f.serviceRating <= 5
    && 1 <= f.cleanlinessRating <= 5 && 1 <= f.ambianceRating <= 5 && 1 <= f.valueForMoneyRating <= 5
  }

  /** When some feedback is kept and all of it carries star ratings, every average lies between 1 and 5. */
  lemma AveragesWithinStars(fs: seq<Feedback>)
    requires fs != [] && forall f | f in fs :: StarRatings(f)
    ensures forall i | 0 <= i < 6 :: 1.0 <= CategoryAverages(fs)[i] <= 5.0
  {
    var n := |fs|;
    SumByBounds(fs, OverallOf, 1, 5);
    SumByBounds(fs, FoodQualityOf, 1, 5);
    SumByBounds(fs, ServiceOf, 1, 5);
    SumByBounds(fs, CleanlinessOf, 1, 5);
    SumByBounds(fs, AmbianceOf, 1, 5);
    SumByBounds(fs, ValueForMoneyOf, 1, 5);
    AverageBetween(SumBy(fs, OverallOf), n, 1, 5);
    AverageBetween(SumBy(fs, FoodQualityOf), n, 1, 5);
    AverageBetween(SumBy(fs, ServiceOf), n, 1, 5);
    AverageBetween(SumBy(fs, CleanlinessOf), n, 1, 5);
    AverageBetween(SumBy(fs, AmbianceOf), n, 1, 5);
    AverageBetween(SumBy(fs, ValueForMoneyOf), n, 1, 5);
  }
}
