/**
 * The first analytics helper, `Analytics`, over the older reservation and feedback records:
 * reservations per hour, the most ordered items, a sentiment summary from ratings and comment
 * keywords, a peak-hour prediction, and the insight cards built from all of them.
 */
module Analytics {
  import opened Wrappers
  import opened Strings
  import opened Collections

  /** A dish on an older reservation; only its name is read. */
  datatype FoodItem = FoodItem(name: string)

  /** The older reservation record: `reservation_time`, `status` and the optional `food_items`. */
  datatype LegacyReservation = LegacyReservation(
    reservationTime: string,
    status: string,
    foodItems: Option<seq<FoodItem>>)

  /** The older feedback record: a star `rating` and an optional `comment`. */
  datatype LegacyFeedback = LegacyFeedback(rating: int, comment: Option<string>)

  datatype HourData = HourData(hour: string, reservations: int)

  datatype ItemCount = ItemCount(name: string, count: int)

  datatype PeakPrediction = PeakPrediction(prediction: string, peakHours: seq<string>, confidence: real)

  datatype Sentiment = Positive | Neutral | Negative

  datatype Distribution = Distribution(positive: int, neutral: int, negative: int)

  datatype SentimentAnalysis = SentimentAnalysis(
    overall: Sentiment,
    score: real,
    avgRating: string,
    distribution: Distribution,
    summary: string)

  /** The `type` of an insight card: 'peak_hours', 'popular_items', 'sentiment' or 'demand'. */
  datatype InsightKind = PeakHoursInsight | PopularItemsInsight | SentimentInsight | DemandInsight

  datatype Insight = Insight(kind: InsightKind, title: string, description: string, confidence: real)

  predicate NotCancelled(r: LegacyReservation) { r.status != "cancelled" }

  // ---------------------------------------------------------------- reservations per hour

  /** `reservation_time.split(':')[0]`. */
  function HourKey(r: LegacyReservation): string { Split(r.reservationTime, ':')[0] }

  /** A reservation that is not cancelled counts once for its hour. */
  function HourEntryOf(r: LegacyReservation): seq<Entry> {
    if NotCancelled(r) then [Entry(HourKey(r), HourKey(r), 1)] else []
  }

  /** `{ hour: `${hour}:00`, reservations: count }`. */
  function ToHourData(t: Tally): HourData { HourData(t.key + ":00", t.count) }

  function Label(d: HourData): string { d.hour }

  function Reservations(d: HourData): int { d.reservations }

  /**
   * `parseInt(hour)`, the number the sort compares. A label that reads as NaN makes the
   * source's comparator return NaN, which leaves its place in the order to the JavaScript
   * engine; the model ranks such a label as hour 0.
   */
  function HourValue(d: HourData): int {
    match ParseInt(d.hour)
    case Some(v) => v
    case None => 0
  }

  /** Sort key that puts the hours in ascending order. */
  function AscendingHour(d: HourData): real { -(HourValue(d) as real) }

  /**
   * The result of `analyzePeakHours`: the hour counts in `Object.entries` order, labelled,
   * then sorted by hour.
   */
  function PeakHoursOf(rs: seq<LegacyReservation>): seq<HourData> {
    SortDesc(MapSeq(ObjectEntries(Tallies(Flatten(rs, HourEntryOf))), ToHourData), AscendingHour)
  }

  /** `analyzePeakHours`: counts the reservations per hour in one pass, then labels and sorts them. */
  method AnalyzePeakHours(rs: seq<LegacyReservation>) returns (data: seq<HourData>)
    ensures data == PeakHoursOf(rs)
  {
    var hourCounts: seq<Tally> := [];
    for i := 0 to |rs|
      invariant hourCounts == Tallies(Flatten(rs[..i], HourEntryOf))
    {
      FlattenStep(rs, HourEntryOf, i);
      if NotCancelled(rs[i]) {
        var hour := HourKey(rs[i]);
        TalliesSnoc(Flatten(rs[..i], HourEntryOf), Entry(hour, hour, 1));
        hourCounts := AddEntry(hourCounts, Entry(hour, hour, 1));
      } else {
        assert Flatten(rs[..i + 1], HourEntryOf) == Flatten(rs[..i], HourEntryOf);
      }
    }
    assert rs[..|rs|] == rs;
    data := SortDesc(MapSeq(ObjectEntries(hourCounts), ToHourData), AscendingHour);
  }

  /** The number of reservations, not cancelled, whose time starts with hour `h`. */
  function BookedAt(rs: seq<LegacyReservation>, h: string): nat {
    if rs == [] then 0
    else BookedAt(rs[..|rs| - 1], h) + (if NotCancelled(rs[|rs| - 1]) && HourKey(rs[|rs| - 1]) == h then 1 else 0)
  }

  function KeptOne(r: LegacyReservation): int { if NotCancelled(r) then 1 else 0 }

  lemma {:induction false} HourWeight(rs: seq<LegacyReservation>, h: string)
    ensures WeightOf(Flatten(rs, HourEntryOf), h) == BookedAt(rs, h)
  {
    if rs != [] {
      var init, last := rs[..|rs| - 1], rs[|rs| - 1];
      HourWeight(init, h);
      WeightOfAppend(Flatten(init, HourEntryOf), HourEntryOf(last), h);
      if NotCancelled(last) {
        assert [Entry(HourKey(last), HourKey(last), 1)][..0] == [];
      }
    }
  }

  lemma {:induction false} BookedAtPositive(rs: seq<LegacyReservation>, r: LegacyReservation)
    requires r in rs && NotCancelled(r)
    ensures BookedAt(rs, HourKey(r)) >= 1
  {
    var init, last := rs[..|rs| - 1], rs[|rs| - 1];
    if r != last {
      assert rs == init + [last];
      BookedAtPositive(init, r);
    }
  }

  lemma {:induction false} KeptCount(rs: seq<LegacyReservation>)
    ensures SumBy(rs, KeptOne) == |Filter(rs, NotCancelled)|
  {
    if rs != [] {
      KeptCount(rs[..|rs| - 1]);
    }
  }

  /** The hour counts add up to the number of reservations that are not cancelled. */
  lemma PeakHoursTotal(rs: seq<LegacyReservation>)
    ensures SumBy(PeakHoursOf(rs), Reservations) == |Filter(rs, NotCancelled)|
  {
    var es := Flatten(rs, HourEntryOf);
    var ts := Tallies(es);
    var oe := ObjectEntries(ts);
    var mapped := MapSeq(oe, ToHourData);
    forall r | r in rs ensures KeptOne(r) == TotalWeight(HourEntryOf(r)) {
      if NotCancelled(r) {
        assert [Entry(HourKey(r), HourKey(r), 1)][..0] == [];
      }
    }
    FlattenWeight(rs, HourEntryOf, KeptOne);
    KeptCount(rs);
    TalliesSum(es);
    SumByPermutation(oe, ts, TallyCount);
    MapSumBy(oe, ToHourData, Reservations, TallyCount);
    SumByPermutation(SortDesc(mapped, AscendingHour), mapped, Reservations);
  }

  lemma SuffixCancel(a: string, b: string, suffix: string)
    requires a + suffix == b + suffix
    ensures a == b
  {
    assert a == (a + suffix)[..|a|] && b == (b + suffix)[..|b|];
  }

  /** Every hour appears once. */
  lemma PeakHoursDistinct(rs: seq<LegacyReservation>)
    ensures DistinctBy(PeakHoursOf(rs), Label)
  {
    var ts := Tallies(Flatten(rs, HourEntryOf));
    var oe := ObjectEntries(ts);
    var mapped := MapSeq(oe, ToHourData);
    TalliesDistinct(Flatten(rs, HourEntryOf));
    assert DistinctBy(ts, TallyKey);
    DistinctByPermutation(ts, oe, TallyKey);
    forall i, j | 0 <= i < j < |mapped| ensures Label(mapped[i]) != Label(mapped[j]) {
      if Label(mapped[i]) == Label(mapped[j]) {
        SuffixCancel(oe[i].key, oe[j].key, ":00");
      }
    }
    DistinctByPermutation(mapped, SortDesc(mapped, AscendingHour), Label);
  }

  /** Each entry is the hour of a reservation that is not cancelled, with that hour's count. */
  lemma PeakHoursCounts(rs: seq<LegacyReservation>, d: HourData) returns (r: LegacyReservation)
    requires d in PeakHoursOf(rs)
    ensures r in rs && NotCancelled(r)
    ensures d.hour == HourKey(r) + ":00" && d.reservations == BookedAt(rs, HourKey(r))
  {
    var es := Flatten(rs, HourEntryOf);
    var oe := ObjectEntries(Tallies(es));
    var mapped := MapSeq(oe, ToHourData);
    assert PeakHoursOf(rs) == SortDesc(mapped, AscendingHour);
    assert d in multiset(mapped);
    var i :| 0 <= i < |mapped| && mapped[i] == d;
    r := HourOrigin(rs, oe, oe[i]);
  }

  /** A tally of the hour entries belongs to a reservation that is not cancelled, and counts its hour. */
  lemma HourOrigin(rs: seq<LegacyReservation>, oe: seq<Tally>, t: Tally) returns (r: LegacyReservation)
    requires multiset(oe) == multiset(Tallies(Flatten(rs, HourEntryOf))) && t in oe
    ensures r in rs && NotCancelled(r) && t.key == HourKey(r) && t.count == BookedAt(rs, HourKey(r))
  {
    var es := Flatten(rs, HourEntryOf);
    TallyOrigin(es, oe, t);
    var j :| 0 <= j < |es| && es[j].key == t.key;
    r := FlattenOrigin(rs, HourEntryOf, es[j]);
    HourEntryKey(r, es[j]);
    HourWeight(rs, HourKey(r));
  }

  lemma HourEntryKey(r: LegacyReservation, e: Entry)
    requires e in HourEntryOf(r)
    ensures NotCancelled(r) && e.key == HourKey(r)
  {
  }

  /** Every reservation that is not cancelled has an entry for its hour. */
  lemma PeakHoursComplete(rs: seq<LegacyReservation>, r: LegacyReservation)
    requires r in rs && NotCancelled(r)
    ensures exists d | d in PeakHoursOf(rs) :: d.hour == HourKey(r) + ":00" && d.reservations >= 1
  {
    var es := Flatten(rs, HourEntryOf);
    var oe := ObjectEntries(Tallies(es));
    var mapped := MapSeq(oe, ToHourData);
    var e := Entry(HourKey(r), HourKey(r), 1);
    FlattenContains(rs, HourEntryOf, r, e);
    var j :| 0 <= j < |es| && es[j] == e;
    assert HourKey(r) in EntryKeySet(es);
    var t := TallyFor(es, oe, HourKey(r));
    var i :| 0 <= i < |oe| && oe[i] == t;
    HourWeight(rs, HourKey(r));
    BookedAtPositive(rs, r);
    var d := mapped[i];
    assert d.hour == HourKey(r) + ":00" && d.reservations >= 1;
    var sorted := SortDesc(mapped, AscendingHour);
    assert d in multiset(sorted);
    assert d in sorted;
  }

  /**
   * When every hour label reads as a number, the entries are in ascending order of those
   * numbers; in the model they are in ascending order of `HourValue` in every case.
   */
  lemma PeakHoursSorted(rs: seq<LegacyReservation>)
    ensures (forall d | d in PeakHoursOf(rs) :: ParseInt(d.hour).Some?) ==>
      forall i, j | 0 <= i < j < |PeakHoursOf(rs)| ::
        ParseInt(PeakHoursOf(rs)[i].hour).value <= ParseInt(PeakHoursOf(rs)[j].hour).value
    ensures forall i, j | 0 <= i < j < |PeakHoursOf(rs)| ::
      HourValue(PeakHoursOf(rs)[i]) <= HourValue(PeakHoursOf(rs)[j])
  {
    SortDescSorted(MapSeq(ObjectEntries(Tallies(Flatten(rs, HourEntryOf))), ToHourData), AscendingHour);
  }

  // ---------------------------------------------------------------- peak prediction

  /** The mean number of reservations per listed hour. */
  function MeanReservations(hs: seq<HourData>): real
    requires hs != []
  {
    SumBy(hs, Reservations) as real / |hs| as real
  }

  /** `h.reservations > avgReservations * 1.2`. */
  predicate AbovePeak(d: HourData, avg: real) { d.reservations as real > avg * 1.2 }

  function ReservationsKey(d: HourData): real { d.reservations as real }

  /** The peak hours, busiest first. */
  function Peaks(hs: seq<HourData>): seq<HourData>
    requires hs != []
  {
    var avg := MeanReservations(hs);
    SortDesc(Filter(hs, d => AbovePeak(d, avg)), ReservationsKey)
  }

  /** `Math.min(95, 50 + (reservations.length / 10))`. */
  function Confidence(n: nat): real {
    var c := 50.0 + n as real / 10.0;
    if c < 95.0 then c else 95.0
  }

  /** The three kinds of prediction text. */
  datatype Note = Insufficient | Typical | NoPeaks

  function NoteText(n: Note): string {
    match n
    case Insufficient => "Insufficient data for prediction"
    case Typical => "Peak hours are typically "
    case NoPeaks => "No significant peak hours detected"
  }

  /**
   * `predictPeakHours`: without hour data, the note that data is insufficient, no peak and
   * confidence 0; otherwise a confidence between 50 and 95, and the note lists the peaks
   * when there are any.
   */
  function PredictPeakHours(rs: seq<LegacyReservation>): (p: PeakPrediction)
    ensures PeakHoursOf(rs) == [] ==> p.prediction == NoteText(Insufficient) && p.peakHours == [] && p.confidence == 0.0
    ensures PeakHoursOf(rs) != [] ==> 50.0 <= p.confidence <= 95.0
    ensures PeakHoursOf(rs) != [] ==>
      p.confidence == (if 50.0 + |rs| as real / 10.0 < 95.0 then 50.0 + |rs| as real / 10.0 else 95.0)
    ensures PeakHoursOf(rs) != [] && p.peakHours != [] ==> p.prediction == NoteText(Typical) + Join(p.peakHours, ", ")
    ensures PeakHoursOf(rs) != [] && p.peakHours == [] ==> p.prediction == NoteText(NoPeaks)
  {
    var hourData := PeakHoursOf(rs);
    if hourData == [] then PeakPrediction(NoteText(Insufficient), [], 0.0)
    else
      var hours := MapSeq(Peaks(hourData), Label);
      PeakPrediction(
        if |hours| > 0 then NoteText(Typical) + Join(hours, ", ") else NoteText(NoPeaks),
        hours,
        Confidence(|rs|))
  }

  /** Without any hour data there is no peak and the confidence is 0. */
  lemma PredictEmpty(rs: seq<LegacyReservation>)
    requires Filter(rs, NotCancelled) == []
    ensures PredictPeakHours(rs).peakHours == [] && PredictPeakHours(rs).confidence == 0.0
  {
    PeakHoursTotal(rs);
    var hs := PeakHoursOf(rs);
    if hs != [] {
      var r := PeakHoursCounts(rs, hs[0]);
      FilterMembers(rs, NotCancelled);
      assert false;
    }
  }

  /**
   * The peak hours are exactly the hours whose count exceeds 1.2 times the mean count,
   * from the busiest down, and the confidence grows with the number of reservations
   * (cancelled ones included) from 50 to at most 95.
   */
  lemma PredictPeaks(rs: seq<LegacyReservation>, h: string)
    requires PeakHoursOf(rs) != []
    ensures var p, hs := PredictPeakHours(rs), PeakHoursOf(rs);
      && (h in p.peakHours <==> exists d | d in hs :: d.hour == h && AbovePeak(d, MeanReservations(hs)))
      && (forall i, j | 0 <= i < j < |Peaks(hs)| :: Peaks(hs)[i].reservations >= Peaks(hs)[j].reservations)
      && p.peakHours == MapSeq(Peaks(hs), Label)
      && 50.0 <= p.confidence <= 95.0
      && p.confidence == (if 50.0 + |rs| as real / 10.0 < 95.0 then 50.0 + |rs| as real / 10.0 else 95.0)
  {
    var hs := PeakHoursOf(rs);
    PeakMembers(hs, h);
    PeaksSorted(hs);
  }

  /**
   * The confidence counts every reservation, cancelled ones included, while the hours count
   * only the kept ones: a cancelled reservation leaves the hour data and the peaks as they
   * were, never lowers the confidence, and raises it while it is below 95.
   */
  lemma CancelledRaisesConfidence(rs: seq<LegacyReservation>, c: LegacyReservation)
    requires !NotCancelled(c)
    ensures PeakHoursOf(rs + [c]) == PeakHoursOf(rs)
    ensures PredictPeakHours(rs + [c]).peakHours == PredictPeakHours(rs).peakHours
    ensures PredictPeakHours(rs + [c]).prediction == PredictPeakHours(rs).prediction
    ensures PeakHoursOf(rs) != [] ==> PredictPeakHours(rs + [c]).confidence >= PredictPeakHours(rs).confidence
    ensures PeakHoursOf(rs) != [] && |rs| < 450 ==> PredictPeakHours(rs + [c]).confidence > PredictPeakHours(rs).confidence
  {
    var rs' := rs + [c];
    assert rs'[..|rs'| - 1] == rs;
    assert Flatten(rs', HourEntryOf) == Flatten(rs, HourEntryOf);
    ConfidenceMonotone(|rs|, |rs'|);
  }

  /** The confidence never falls as the number of reservations grows, and rises below the cap. */
  lemma ConfidenceMonotone(n: nat, m: nat)
    requires n <= m
    ensures Confidence(n) <= Confidence(m)
    ensures n < m && n < 450 ==> Confidence(n) < Confidence(m)
  {
  }

  /** An hour label is among the peaks exactly when some hour with that label is above the threshold. */
  lemma PeakMembers(hs: seq<HourData>, h: string)
    requires hs != []
    ensures h in MapSeq(Peaks(hs), Label) <==> exists d | d in hs :: d.hour == h && AbovePeak(d, MeanReservations(hs))
  {
    var avg := MeanReservations(hs);
    var above := Filter(hs, d => AbovePeak(d, avg));
    FilterMembers(hs, d => AbovePeak(d, avg));
    var peaks := Peaks(hs);
    assert multiset(peaks) == multiset(above);
    var labels := MapSeq(peaks, Label);
    if h in labels {
      var i :| 0 <= i < |peaks| && labels[i] == h;
      assert peaks[i] in multiset(above);
      assert peaks[i] in above;
    }
    if exists d | d in hs :: d.hour == h && AbovePeak(d, avg) {
      var d :| d in hs && d.hour == h && AbovePeak(d, avg);
      assert d in above;
      assert d in multiset(peaks);
      var i :| 0 <= i < |peaks| && peaks[i] == d;
      assert labels[i] == h;
    }
  }

  /** The peaks are listed from the busiest down. */
  lemma PeaksSorted(hs: seq<HourData>)
    requires hs != []
    ensures forall i, j | 0 <= i < j < |Peaks(hs)| :: Peaks(hs)[i].reservations >= Peaks(hs)[j].reservations
  {
    var avg := MeanReservations(hs);
    SortDescSorted(Filter(hs, d => AbovePeak(d, avg)), ReservationsKey);
  }

  /** If every element is above a threshold, so is the mean. */
  lemma {:induction false} AllAboveSum(hs: seq<HourData>, t: real)
    requires forall d | d in hs :: d.reservations as real > t
    ensures hs != [] ==> SumBy(hs, Reservations) as real > |hs| as real * t
  {
    if hs != [] {
      var init := hs[..|hs| - 1];
      assert forall d | d in init :: d in hs;
      AllAboveSum(init, t);
      assert hs[|hs| - 1] in hs;
    }
  }

  lemma {:induction false} NonNegativeSum(hs: seq<HourData>)
    requires forall d | d in hs :: d.reservations >= 0
    ensures SumBy(hs, Reservations) >= 0
  {
    if hs != [] {
      var init := hs[..|hs| - 1];
      assert forall d | d in init :: d in hs;
      NonNegativeSum(init);
      assert hs[|hs| - 1] in hs;
    }
  }

  /** A filter that rejects some element keeps fewer elements. */
  lemma {:induction false} FilterDrops<T>(s: seq<T>, p: T -> bool, x: T)
    requires x in s && !p(x)
    ensures |Filter(s, p)| < |s|
  {
    var init, last := s[..|s| - 1], s[|s| - 1];
    if x != last {
      assert s == init + [last];
      FilterDrops(init, p, x);
    }
  }

  /** When no count is negative, not every hour can be above 1.2 times the mean. */
  lemma NotAllPeaks(hs: seq<HourData>)
    requires hs != [] && forall d | d in hs :: d.reservations >= 0
    ensures |Peaks(hs)| < |hs|
  {
    var avg := MeanReservations(hs);
    NonNegativeSum(hs);
    if forall d | d in hs :: AbovePeak(d, avg) {
      AllAboveSum(hs, avg * 1.2);
      assert false;
    }
    var d :| d in hs && !AbovePeak(d, avg);
    FilterDrops(hs, d' => AbovePeak(d', avg), d);
  }

  /** Some hour of the data is never a peak. */
  lemma PredictFewerPeaks(rs: seq<LegacyReservation>)
    requires PeakHoursOf(rs) != []
    ensures |PredictPeakHours(rs).peakHours| < |PeakHoursOf(rs)|
  {
    var hs := PeakHoursOf(rs);
    forall d | d in hs ensures d.reservations >= 0 {
      var r := PeakHoursCounts(rs, d);
    }
    NotAllPeaks(hs);
  }

  // ---------------------------------------------------------------- most ordered items

  /** One occurrence per ordered item, whatever its quantity. */
  function ItemEntries(items: seq<FoodItem>): seq<Entry> {
    if items == [] then []
    else ItemEntries(items[..|items| - 1]) + [Entry(items[|items| - 1].name, items[|items| - 1].name, 1)]
  }

  /** A reservation's items count when it is not cancelled and has an item list. */
  function ItemEntriesOf(r: LegacyReservation): seq<Entry> {
    if NotCancelled(r) && r.foodItems.Some? then ItemEntries(r.foodItems.value) else []
  }

  function ToItemCount(t: Tally): ItemCount { ItemCount(t.key, t.count) }

  function ItemName(c: ItemCount): string { c.name }

  function ItemCountKey(c: ItemCount): real { c.count as real }

  /** Every item name with its count, most ordered first. */
  function RankedItems(rs: seq<LegacyReservation>): seq<ItemCount> {
    SortDesc(MapSeq(ObjectEntries(Tallies(Flatten(rs, ItemEntriesOf))), ToItemCount), ItemCountKey)
  }

  /** The result of `analyzeMostOrderedItems`: the first ten of the ranking. */
  function MostOrderedOf(rs: seq<LegacyReservation>): seq<ItemCount> {
    var ranked := RankedItems(rs);
    if |ranked| <= 10 then ranked else ranked[..10]
  }

  /** `analyzeMostOrderedItems`: the nested counting loops, then the ranking cut to ten. */
  method AnalyzeMostOrderedItems(rs: seq<LegacyReservation>) returns (items: seq<ItemCount>)
    ensures items == MostOrderedOf(rs)
  {
    var itemCounts := CountAll(rs, ItemEntriesOf);
    var ranked := SortDesc(MapSeq(ObjectEntries(itemCounts), ToItemCount), ItemCountKey);
    items := if |ranked| <= 10 then ranked else ranked[..10];
  }

  /** How many items named `name` the list holds. */
  function NameCount(items: seq<FoodItem>, name: string): nat {
    if items == [] then 0
    else NameCount(items[..|items| - 1], name) + (if items[|items| - 1].name == name then 1 else 0)
  }

  /** How many times `name` was ordered, over the reservations whose items count. */
  function TimesOrdered(rs: seq<LegacyReservation>, name: string): nat {
    if rs == [] then 0
    else
      var r := rs[|rs| - 1];
      TimesOrdered(rs[..|rs| - 1], name) + (if NotCancelled(r) && r.foodItems.Some? then NameCount(r.foodItems.value, name) else 0)
  }

  lemma {:induction false} ItemWeight(items: seq<FoodItem>, name: string)
    ensures WeightOf(ItemEntries(items), name) == NameCount(items, name)
  {
    if items != [] {
      var init, last := items[..|items| - 1], items[|items| - 1];
      ItemWeight(init, name);
      WeightOfStep(ItemEntries(init), Entry(last.name, last.name, 1), name);
    }
  }

  lemma {:induction false} OrderedWeight(rs: seq<LegacyReservation>, name: string)
    ensures WeightOf(Flatten(rs, ItemEntriesOf), name) == TimesOrdered(rs, name)
  {
    if rs != [] {
      var init, last := rs[..|rs| - 1], rs[|rs| - 1];
      OrderedWeight(init, name);
      WeightOfAppend(Flatten(init, ItemEntriesOf), ItemEntriesOf(last), name);
      if NotCancelled(last) && last.foodItems.Some? {
        ItemWeight(last.foodItems.value, name);
      }
    }
  }

  lemma {:induction false} TimesOrderedPresent(rs: seq<LegacyReservation>, name: string)
    requires TimesOrdered(rs, name) > 0
    ensures name in EntryKeySet(Flatten(rs, ItemEntriesOf))
  {
    OrderedWeight(rs, name);
    if name !in EntryKeySet(Flatten(rs, ItemEntriesOf)) {
      WeightOfAbsent(Flatten(rs, ItemEntriesOf), name);
    }
  }

  /**
   * At most ten entries, busiest first, no name twice, and each count is the number of times
   * that name was ordered (occurrences, not quantities).
   */
  lemma MostOrderedFacts(rs: seq<LegacyReservation>)
    ensures var r := MostOrderedOf(rs);
      && |r| <= 10
      && (forall i, j | 0 <= i < j < |r| :: r[i].count >= r[j].count)
      && DistinctBy(r, ItemName)
      && (forall c | c in r :: c.count == TimesOrdered(rs, c.name) >= 1)
  {
    var ranked := RankedItems(rs);
    var r := MostOrderedOf(rs);
    assert forall k | 0 <= k < |r| :: r[k] == ranked[k];
    RankedSorted(rs);
    RankedDistinct(rs);
    forall c | c in r ensures c.count == TimesOrdered(rs, c.name) >= 1 {
      var k :| 0 <= k < |r| && r[k] == c;
      RankedCount(rs, ranked[k]);
    }
  }

  lemma RankedSorted(rs: seq<LegacyReservation>)
    ensures forall i, j | 0 <= i < j < |RankedItems(rs)| :: RankedItems(rs)[i].count >= RankedItems(rs)[j].count
  {
    SortDescSorted(MapSeq(ObjectEntries(Tallies(Flatten(rs, ItemEntriesOf))), ToItemCount), ItemCountKey);
  }

  lemma RankedDistinct(rs: seq<LegacyReservation>)
    ensures DistinctBy(RankedItems(rs), ItemName)
  {
    var es := Flatten(rs, ItemEntriesOf);
    var ts := Tallies(es);
    var oe := ObjectEntries(ts);
    var mapped := MapSeq(oe, ToItemCount);
    TalliesDistinct(es);
    assert DistinctBy(ts, TallyKey);
    DistinctByPermutation(ts, oe, TallyKey);
    assert DistinctBy(mapped, ItemName);
    DistinctByPermutation(mapped, RankedItems(rs), ItemName);
  }

  lemma RankedCount(rs: seq<LegacyReservation>, c: ItemCount)
    requires c in RankedItems(rs)
    ensures c.count == TimesOrdered(rs, c.name) >= 1
  {
    var es := Flatten(rs, ItemEntriesOf);
    var oe := ObjectEntries(Tallies(es));
    var mapped := MapSeq(oe, ToItemCount);
    assert c in multiset(mapped);
    var i :| 0 <= i < |mapped| && mapped[i] == c;
    ItemOrigin(rs, oe, oe[i]);
  }

  /** A tally of the item entries counts how often its name was ordered, at least once. */
  lemma ItemOrigin(rs: seq<LegacyReservation>, oe: seq<Tally>, t: Tally)
    requires multiset(oe) == multiset(Tallies(Flatten(rs, ItemEntriesOf))) && t in oe
    ensures t.count == TimesOrdered(rs, t.key) >= 1
  {
    var es := Flatten(rs, ItemEntriesOf);
    TallyOrigin(es, oe, t);
    OrderedWeight(rs, t.key);
    OrderedPresent(rs, es, t.key);
  }

  lemma OrderedPresent(rs: seq<LegacyReservation>, es: seq<Entry>, name: string)
    requires es == Flatten(rs, ItemEntriesOf) && exists j | 0 <= j < |es| :: es[j].key == name
    ensures TimesOrdered(rs, name) >= 1
  {
    var j :| 0 <= j < |es| && es[j].key == name;
    var x := FlattenOrigin(rs, ItemEntriesOf, es[j]);
    OrderedAtLeastOnce(rs, x, es[j]);
  }

  lemma {:induction false} NamePresent(items: seq<FoodItem>, e: Entry)
    requires e in ItemEntries(items)
    ensures NameCount(items, e.key) >= 1
  {
    var init, last := items[..|items| - 1], items[|items| - 1];
    if e != Entry(last.name, last.name, 1) {
      NamePresent(init, e);
    }
  }

  lemma {:induction false} OrderedAtLeastOnce(rs: seq<LegacyReservation>, x: LegacyReservation, e: Entry)
    requires x in rs && e in ItemEntriesOf(x)
    ensures TimesOrdered(rs, e.key) >= 1
  {
    var init, last := rs[..|rs| - 1], rs[|rs| - 1];
    if x == last {
      NamePresent(last.foodItems.value, e);
    } else {
      assert rs == init + [last];
      OrderedAtLeastOnce(init, x, e);
    }
  }

  /**
   * A name that was ordered but is missing from the list is ordered no more often than any
   * listed name, and the list is then full.
   */
  lemma MostOrderedTop(rs: seq<LegacyReservation>, name: string)
    requires TimesOrdered(rs, name) > 0
    requires forall i | 0 <= i < |MostOrderedOf(rs)| :: MostOrderedOf(rs)[i].name != name
    ensures |MostOrderedOf(rs)| == 10
    ensures forall c | c in MostOrderedOf(rs) :: TimesOrdered(rs, name) <= c.count
  {
    var ranked := RankedItems(rs);
    var r := MostOrderedOf(rs);
    var p := RankedHas(rs, name);
    assert forall k | 0 <= k < |r| :: r[k] == ranked[k];
    assert p >= |r|;
    RankedSorted(rs);
    forall c | c in r ensures TimesOrdered(rs, name) <= c.count {
      var k :| 0 <= k < |r| && r[k] == c;
      assert ranked[k] == c;
    }
  }

  /** A name that was ordered has its entry in the ranking. */
  lemma RankedHas(rs: seq<LegacyReservation>, name: string) returns (p: nat)
    requires TimesOrdered(rs, name) > 0
    ensures p < |RankedItems(rs)| && RankedItems(rs)[p] == ItemCount(name, TimesOrdered(rs, name))
  {
    var es := Flatten(rs, ItemEntriesOf);
    var oe := ObjectEntries(Tallies(es));
    var mapped := MapSeq(oe, ToItemCount);
    var ranked := RankedItems(rs);
    TimesOrderedPresent(rs, name);
    var t := TallyFor(es, oe, name);
    OrderedWeight(rs, name);
    var i :| 0 <= i < |oe| && oe[i] == t;
    assert mapped[i] == ItemCount(name, TimesOrdered(rs, name));
    assert mapped[i] in multiset(ranked);
    p :| 0 <= p < |ranked| && ranked[p] == mapped[i];
  }

  // ---------------------------------------------------------------- sentiment

  /** The fixed texts of the sentiment summary and the insight cards. */
  datatype Phrase =
    | AveragePhrase | OutOfFivePhrase | PositivePhrase | NeutralPhrase | NegativePhrase | NoFeedbackPhrase
    | PeakTitle | PopularTitle | OrderedPhrase | TimesPhrase | MoodTitle | DemandTitle | DemandPhrase

  function PhraseText(k: Phrase): string {
    match k
    case AveragePhrase => "Average rating: "
    case OutOfFivePhrase => "/5. "
    case PositivePhrase => " positive, "
    case NeutralPhrase => " neutral, "
    case NegativePhrase => " negative feedback"
    case NoFeedbackPhrase => "No feedback data available"
    case PeakTitle => "Peak Hours Identified"
    case PopularTitle => "Most Popular Item"
    case OrderedPhrase => " has been ordered "
    case TimesPhrase => " times"
    case MoodTitle => "Customer Sentiment"
    case DemandTitle => "High Upcoming Demand"
    case DemandPhrase => " upcoming reservations. Consider staffing accordingly."
  }

  /** The words that pull a comment towards a class; no word makes a comment neutral. */
  function Words(s: Sentiment): seq<string> {
    match s
    case Positive => ["great", "excellent", "amazing", "wonderful", "fantastic", "delicious", "perfect", "love", "best", "awesome"]
    case Negative => ["bad", "terrible", "awful", "horrible", "worst", "disappointing", "poor", "hate", "disgusting", "cold"]
    case Neutral => []
  }

  /** `(feedback.comment || '').toLowerCase()`. */
  function CommentText(f: LegacyFeedback): string {
    match f.comment
    case Some(c) => ToLower(c)
    case None => ""
  }

  /** The class of one feedback: a high rating or a positive word wins, then a low rating or a negative word. */
  function FeedbackSentiment(f: LegacyFeedback): Sentiment {
    var comment := CommentText(f);
    if f.rating >= 4 || ContainsAny(comment, Words(Positive)) then Positive
    else if f.rating <= 2 || ContainsAny(comment, Words(Negative)) then Negative
    else Neutral
  }

  /** How many feedbacks fall in class `s`. */
  function CountSentiment(fs: seq<LegacyFeedback>, s: Sentiment): nat {
    if fs == [] then 0
    else CountSentiment(fs[..|fs| - 1], s) + (if FeedbackSentiment(fs[|fs| - 1]) == s then 1 else 0)
  }

  function Rating(f: LegacyFeedback): int { f.rating }

  /** `Math.round`-free part of `toFixed(1)`: the nearest tenth, the larger one on a tie. */
  function RoundTenths(x: real): (n: nat)
    requires x >= 0.0
    ensures n as real <= 10.0 * x + 0.5 < n as real + 1.0
  {
    (10.0 * x + 0.5).Floor
  }

  /** `x.toFixed(1)` on an exact value. */
  function ToFixed1(x: real): string {
    var n := RoundTenths(if x < 0.0 then -x else x);
    (if x < 0.0 then "-" else "") + NatToString(n / 10) + "." + [DigitChar(n % 10)]
  }

  /** The mean rating, whose comparison with 4 and 3 picks the overall label. */
  function Overall(avg: real): Sentiment {
    if avg >= 4.0 then Positive else if avg >= 3.0 then Neutral else Negative
  }

  /** `totalRating / feedbacks.length`. */
  function Mean(total: int, n: int): real
    requires n > 0
  {
    total as real / n as real
  }

  /** `((positive - negative) / feedbacks.length) * 100`. */
  function Score(positive: int, negative: int, n: int): real
    requires n > 0
  {
    (positive - negative) as real / n as real * 100.0
  }

  /** The analysis of a non-empty list from its three counts, its rating total and its length. */
  function Summarize(positive: nat, neutral: nat, negative: nat, total: int, n: nat): SentimentAnalysis
    requires n > 0
  {
    var avg := Mean(total, n);
    SentimentAnalysis(
      Overall(avg),
      Score(positive, negative, n),
      ToFixed1(avg),
      Distribution(positive, neutral, negative),
      PhraseText(AveragePhrase) + ToFixed1(avg) + PhraseText(OutOfFivePhrase) + NatToString(positive)
        + PhraseText(PositivePhrase) + NatToString(neutral) + PhraseText(NeutralPhrase) + NatToString(negative)
        + PhraseText(NegativePhrase) + (if n > 1 then "s" else "") + ".")
  }

  const NoFeedback: SentimentAnalysis :=
    SentimentAnalysis(Neutral, 0.0, "0", Distribution(0, 0, 0), PhraseText(NoFeedbackPhrase))

  /** The result of `analyzeSentiment`. */
  function SentimentOf(fs: seq<LegacyFeedback>): SentimentAnalysis {
    if fs == [] then NoFeedback
    else Summarize(CountSentiment(fs, Positive), CountSentiment(fs, Neutral), CountSentiment(fs, Negative), SumBy(fs, Rating), |fs|)
  }

  lemma CountSentimentStep(fs: seq<LegacyFeedback>, i: nat, s: Sentiment)
    requires i < |fs|
    ensures CountSentiment(fs[..i + 1], s) == CountSentiment(fs[..i], s) + (if FeedbackSentiment(fs[i]) == s then 1 else 0)
  {
    assert fs[..i + 1][..i] == fs[..i];
  }

  /** `analyzeSentiment`: one pass that adds up the ratings and the three classes. */
  method AnalyzeSentiment(fs: seq<LegacyFeedback>) returns (a: SentimentAnalysis)
    ensures a == SentimentOf(fs)
  {
    if |fs| == 0 {
      return NoFeedback;
    }
    var positive, neutral, negative, totalRating := 0, 0, 0, 0;
    for i := 0 to |fs|
      invariant positive == CountSentiment(fs[..i], Positive)
      invariant neutral == CountSentiment(fs[..i], Neutral)
      invariant negative == CountSentiment(fs[..i], Negative)
      invariant totalRating == SumBy(fs[..i], Rating)
    {
      CountSentimentStep(fs, i, Positive);
      CountSentimentStep(fs, i, Neutral);
      CountSentimentStep(fs, i, Negative);
      SumByStep(fs, Rating, i);
      totalRating := totalRating + fs[i].rating;
      var s := FeedbackSentiment(fs[i]);
      if s == Positive {
        positive := positive + 1;
      } else if s == Negative {
        negative := negative + 1;
      } else {
        neutral := neutral + 1;
      }
    }
    assert fs[..|fs|] == fs;
    a := Summarize(positive, neutral, negative, totalRating, |fs|);
  }

  /** An empty list is neutral, with score 0, average '0' and no feedback in any class. */
  lemma SentimentEmpty()
    ensures SentimentOf([]).overall == Neutral && SentimentOf([]).score == 0.0
    ensures SentimentOf([]).avgRating == "0" && SentimentOf([]).distribution == Distribution(0, 0, 0)
  {
  }

  /** Every feedback falls in exactly one class. */
  lemma {:induction false} SentimentPartition(fs: seq<LegacyFeedback>)
    ensures CountSentiment(fs, Positive) + CountSentiment(fs, Neutral) + CountSentiment(fs, Negative) == |fs|
  {
    if fs != [] {
      SentimentPartition(fs[..|fs| - 1]);
    }
  }

  /** The fields of a non-empty list's analysis, by name. */
  lemma SentimentFields(fs: seq<LegacyFeedback>)
    requires fs != []
    ensures var a := SentimentOf(fs);
      && a.score == Score(CountSentiment(fs, Positive), CountSentiment(fs, Negative), |fs|)
      && a.overall == Overall(Mean(SumBy(fs, Rating), |fs|))
      && a.distribution == Distribution(CountSentiment(fs, Positive), CountSentiment(fs, Neutral), CountSentiment(fs, Negative))
  {
  }

  /**
   * The distribution adds up to the number of feedbacks, and the score lies in [-100, 100],
   * reaching 100 exactly when every feedback is positive.
   */
  lemma SentimentScore(fs: seq<LegacyFeedback>)
    ensures var d := SentimentOf(fs).distribution;
      d.positive + d.neutral + d.negative == |fs|
    ensures -100.0 <= SentimentOf(fs).score <= 100.0
    ensures fs != [] ==> (SentimentOf(fs).score == 100.0 <==> CountSentiment(fs, Positive) == |fs|)
  {
    SentimentPartition(fs);
    if fs != [] {
      SentimentFields(fs);
      ScoreBounds(CountSentiment(fs, Positive), CountSentiment(fs, Negative), |fs|);
    }
  }

  lemma ScoreBounds(p: int, q: int, n: int)
    requires n > 0 && 0 <= p && 0 <= q && p + q <= n
    ensures -100.0 <= Score(p, q, n) <= 100.0
    ensures Score(p, q, n) == 100.0 <==> p == n
  {
    var a, m := (p - q) as real, n as real;
    RatioWithin(a, m);
    if Score(p, q, n) == 100.0 {
      assert a / m == 1.0;
      assert a == m;
    }
  }

  /** A quotient whose numerator is at most the positive denominator in size lies in [-1, 1]. */
  lemma RatioWithin(a: real, m: real)
    requires m > 0.0 && -m <= a <= m
    ensures -1.0 <= a / m <= 1.0
  {
    var x := a / m;
    assert x * m == a;
    assert (x - 1.0) * m <= 0.0;
    assert (x + 1.0) * m >= 0.0;
  }

  /** The overall label compares the rating total with 4 and 3 times the number of feedbacks. */
  lemma SentimentOverall(fs: seq<LegacyFeedback>)
    requires fs != []
    ensures SentimentOf(fs).overall == Positive <==> SumBy(fs, Rating) >= 4 * |fs|
    ensures SentimentOf(fs).overall == Negative <==> SumBy(fs, Rating) < 3 * |fs|
  {
    SentimentFields(fs);
    MeanAtLeast(SumBy(fs, Rating), |fs|, 4);
    MeanAtLeast(SumBy(fs, Rating), |fs|, 3);
  }

  lemma MeanAtLeast(total: int, n: int, k: int)
    requires n > 0
    ensures Mean(total, n) >= k as real <==> total >= k * n
  {
    var avg := Mean(total, n);
    assert avg * n as real == total as real;
    if avg >= k as real {
      assert avg * n as real >= k as real * n as real;
    }
    if total >= k * n {
      assert (k * n) as real == k as real * n as real;
    }
  }

  /** A positive word wins over any rating: if every comment has one, all feedback is positive. */
  lemma {:induction false} PositiveWordsWin(fs: seq<LegacyFeedback>)
    requires forall f | f in fs :: ContainsAny(CommentText(f), Words(Positive))
    ensures CountSentiment(fs, Positive) == |fs|
    ensures fs != [] ==> SentimentOf(fs).score == 100.0
  {
    if fs != [] {
      var init := fs[..|fs| - 1];
      assert forall f | f in init :: f in fs;
      PositiveWordsWin(init);
      assert fs[|fs| - 1] in fs;
      SentimentScore(fs);
    }
  }

  // ---------------------------------------------------------------- insights

  function PeakInsight(p: PeakPrediction): Insight {
    Insight(PeakHoursInsight, PhraseText(PeakTitle), p.prediction, p.confidence)
  }

  function PopularInsight(top: ItemCount): Insight {
    Insight(PopularItemsInsight, PhraseText(PopularTitle),
      top.name + PhraseText(OrderedPhrase) + IntToString(top.count) + PhraseText(TimesPhrase), 90.0)
  }

  function MoodInsight(s: SentimentAnalysis, n: nat): Insight {
    Insight(SentimentInsight, PhraseText(MoodTitle), s.summary, if n > 5 then 85.0 else 60.0)
  }

  function DemandInsightOf(upcoming: nat): Insight {
    Insight(DemandInsight, PhraseText(DemandTitle), NatToString(upcoming) + PhraseText(DemandPhrase), 95.0)
  }

  /** A pending reservation dated today or later; the date comparison with the clock is an input. */
  predicate Upcoming(r: LegacyReservation, onOrAfterToday: LegacyReservation -> bool) {
    onOrAfterToday(r) && r.status == "pending"
  }

  /** `reservations.filter(...)` with the upcoming test. */
  function UpcomingOf(rs: seq<LegacyReservation>, onOrAfterToday: LegacyReservation -> bool): seq<LegacyReservation> {
    Filter(rs, r => Upcoming(r, onOrAfterToday))
  }

  function Kind(i: Insight): InsightKind { i.kind }

  /**
   * The cards `generateInsights` builds from the four analyses: a peak-hour card when there
   * are peak hours, a popular-item card for the top item when anything was ordered, always a
   * sentiment card, and a demand card for more than ten upcoming reservations, in that order.
   */
  function InsightsOf(p: PeakPrediction, top: seq<ItemCount>, s: SentimentAnalysis, feedbacks: nat, upcoming: nat): seq<Insight> {
    var peak := if |p.peakHours| > 0 then [PeakInsight(p)] else [];
    var popular := if |top| > 0 then peak + [PopularInsight(top[0])] else peak;
    var mood := popular + [MoodInsight(s, feedbacks)];
    if upcoming > 10 then mood + [DemandInsightOf(upcoming)] else mood
  }

  /**
   * `generateInsights`: runs the four analyses, then pushes the cards. The analyses are pure,
   * so running them all before the first push yields the cards the source builds.
   */
  method GenerateInsights(rs: seq<LegacyReservation>, fs: seq<LegacyFeedback>, onOrAfterToday: LegacyReservation -> bool)
    returns (insights: seq<Insight>)
    ensures insights == InsightsOf(PredictPeakHours(rs), MostOrderedOf(rs), SentimentOf(fs), |fs|,
      |UpcomingOf(rs, onOrAfterToday)|)
  {
    var peakPrediction := PredictPeakHours(rs);
    var mostOrdered := AnalyzeMostOrderedItems(rs);
    var sentiment := AnalyzeSentiment(fs);
    var upcomingReservations := UpcomingOf(rs, onOrAfterToday);
    insights := PushCards(peakPrediction, mostOrdered, sentiment, |fs|, |upcomingReservations|);
  }

  /** The pushes of `generateInsights`, one card after another. */
  method PushCards(p: PeakPrediction, top: seq<ItemCount>, s: SentimentAnalysis, feedbacks: nat, upcoming: nat)
    returns (insights: seq<Insight>)
    ensures insights == InsightsOf(p, top, s, feedbacks, upcoming)
  {
    insights := [];
    if |p.peakHours| > 0 {
      insights := insights + [PeakInsight(p)];
    }
    if |top| > 0 {
      insights := insights + [PopularInsight(top[0])];
    }
    insights := insights + [MoodInsight(s, feedbacks)];
    if upcoming > 10 {
      insights := insights + [DemandInsightOf(upcoming)];
    }
  }

  /**
   * The kinds come in the fixed order peak hours, popular items, sentiment, demand, each when
   * its condition holds, so there are one to four cards.
   */
  lemma InsightKinds(p: PeakPrediction, top: seq<ItemCount>, s: SentimentAnalysis, feedbacks: nat, upcoming: nat)
    ensures var r := InsightsOf(p, top, s, feedbacks, upcoming);
      && MapSeq(r, Kind) ==
        (if |p.peakHours| > 0 then [PeakHoursInsight] else [])
        + (if |top| > 0 then [PopularItemsInsight] else [])
        + [SentimentInsight]
        + (if upcoming > 10 then [DemandInsight] else [])
      && 1 <= |r| <= 4
  {
    var peak := if |p.peakHours| > 0 then [PeakInsight(p)] else [];
    var popular := if |top| > 0 then peak + [PopularInsight(top[0])] else peak;
    var mood := popular + [MoodInsight(s, feedbacks)];
    assert MapSeq(popular, Kind) == (if |p.peakHours| > 0 then [PeakHoursInsight] else [])
      + (if |top| > 0 then [PopularItemsInsight] else []);
    assert MapSeq(mood, Kind) == MapSeq(popular, Kind) + [SentimentInsight];
  }

  /** No kind occurs twice. */
  lemma InsightKindsDistinct(p: PeakPrediction, top: seq<ItemCount>, s: SentimentAnalysis, feedbacks: nat, upcoming: nat)
    ensures var r := InsightsOf(p, top, s, feedbacks, upcoming);
      forall i, j | 0 <= i < j < |r| :: r[i].kind != r[j].kind
  {
    var r := InsightsOf(p, top, s, feedbacks, upcoming);
    InsightKinds(p, top, s, feedbacks, upcoming);
    var ks := MapSeq(r, Kind);
    forall i, j | 0 <= i < j < |r| ensures r[i].kind != r[j].kind {
      assert ks[i] == r[i].kind && ks[j] == r[j].kind;
    }
  }

  /**
   * The sentiment card carries the summary, with confidence 85 for more than five feedbacks
   * and 60 otherwise; the popular-item card describes the first of the most ordered items.
   */
  lemma InsightCards(p: PeakPrediction, top: seq<ItemCount>, s: SentimentAnalysis, feedbacks: nat, upcoming: nat)
    ensures var r := InsightsOf(p, top, s, feedbacks, upcoming);
      && (forall i | 0 <= i < |r| && r[i].kind == SentimentInsight ::
            r[i].description == s.summary && r[i].confidence == (if feedbacks > 5 then 85.0 else 60.0))
      && (forall i | 0 <= i < |r| && r[i].kind == PopularItemsInsight :: |top| > 0 && r[i] == PopularInsight(top[0]))
  {
  }

  /** Something was ordered exactly when the most-ordered list is not empty. */
  lemma MostOrderedNonEmpty(rs: seq<LegacyReservation>)
    ensures MostOrderedOf(rs) != [] <==> exists name :: TimesOrdered(rs, name) > 0
  {
    var es := Flatten(rs, ItemEntriesOf);
    var ts := Tallies(es);
    TalliesSize(es);
    if MostOrderedOf(rs) != [] {
      MostOrderedFacts(rs);
      assert MostOrderedOf(rs)[0] in MostOrderedOf(rs);
    }
    if exists name :: TimesOrdered(rs, name) > 0 {
      var name :| TimesOrdered(rs, name) > 0;
      TimesOrderedPresent(rs, name);
      assert |EntryKeySet(es)| > 0;
    }
  }
}
