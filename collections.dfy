/**
 * The array idioms the application is built from: `filter`, summing, counting into a `Map`
 * or plain object keyed by strings (which remembers first-insertion order), the stable
 * `Array.prototype.sort` with a numeric comparator, the order in which `Object.entries`
 * lists an object's keys, and de-duplication through a `Set`.
 */
module Collections {
  import opened Wrappers
  import opened Strings

  // ---------------------------------------------------------------- filter

  /** `s.filter(p)`. */
  function Filter<T>(s: seq<T>, p: T -> bool): (r: seq<T>)
    ensures |r| <= |s|
  {
    if s == [] then [] else Filter(s[..|s| - 1], p) + (if p(s[|s| - 1]) then [s[|s| - 1]] else [])
  }

  /** Nothing passes a filter that no element satisfies. */
  lemma {:induction false} FilterNone<T>(s: seq<T>, p: T -> bool)
    requires forall x | x in s :: !p(x)
    ensures Filter(s, p) == []
  {
    if s != [] {
      var init := s[..|s| - 1];
      assert forall x | x in init :: x in s;
      FilterNone(init, p);
      assert s[|s| - 1] in s;
    }
  }

  lemma FilterSnoc<T>(s: seq<T>, x: T, p: T -> bool)
    ensures Filter(s + [x], p) == Filter(s, p) + (if p(x) then [x] else [])
  {
    assert (s + [x])[..|s|] == s;
  }

  /** The filter keeps exactly the elements that satisfy the predicate. */
  lemma {:induction false} FilterMembers<T>(s: seq<T>, p: T -> bool)
    ensures forall x | x in Filter(s, p) :: x in s && p(x)
    ensures forall x | x in s && p(x) :: x in Filter(s, p)
  {
    if s != [] {
      var init, last := s[..|s| - 1], s[|s| - 1];
      assert s == init + [last];
      FilterMembers(init, p);
      FilterSnoc(init, last, p);
    }
  }

  /** Filtering keeps the original order: it distributes over concatenation. */
  lemma {:induction false} FilterAppend<T>(a: seq<T>, b: seq<T>, p: T -> bool)
    ensures Filter(a + b, p) == Filter(a, p) + Filter(b, p)
    decreases |b|
  {
    if b == [] {
      assert a + b == a;
    } else {
      var init, last := b[..|b| - 1], b[|b| - 1];
      assert a + b == (a + init) + [last];
      assert b == init + [last];
      FilterAppend(a, init, p);
      FilterSnoc(a + init, last, p);
      FilterSnoc(init, last, p);
    }
  }

  /** A filter that every element passes changes nothing. */
  lemma {:induction false} KeepAll<T>(s: seq<T>, p: T -> bool)
    requires forall x | x in s :: p(x)
    ensures Filter(s, p) == s
  {
    if s != [] {
      var init := s[..|s| - 1];
      assert forall x | x in init :: x in s;
      KeepAll(init, p);
      assert s[|s| - 1] in s;
      assert init + [s[|s| - 1]] == s;
    }
  }

  lemma FilterSingle<T>(x: T, p: T -> bool)
    ensures Filter([x], p) == if p(x) then [x] else []
  {
    assert [x][..0] == [];
  }

  // ---------------------------------------------------------------- sums

  function Sum(s: seq<int>): int {
    if s == [] then 0 else Sum(s[..|s| - 1]) + s[|s| - 1]
  }

  lemma {:induction false} SumAppend(a: seq<int>, b: seq<int>)
    ensures Sum(a + b) == Sum(a) + Sum(b)
    decreases |b|
  {
    if b == [] {
      assert a + b == a;
    } else {
      assert (a + b)[..|a + b| - 1] == a + b[..|b| - 1];
      SumAppend(a, b[..|b| - 1]);
    }
  }

  /** Adding `w` to one entry adds `w` to the sum. */
  lemma {:induction false} SumBump(s: seq<int>, k: nat, w: int)
    requires k < |s|
    ensures Sum(s[k := s[k] + w]) == Sum(s) + w
    decreases |s|
  {
    var t := s[k := s[k] + w];
    if k < |s| - 1 {
      assert t[..|t| - 1] == s[..|s| - 1][k := s[k] + w];
      SumBump(s[..|s| - 1], k, w);
    } else {
      assert t[..|t| - 1] == s[..|s| - 1];
    }
  }

  function Zeros(n: nat): (r: seq<int>)
    ensures |r| == n && forall i | 0 <= i < n :: r[i] == 0
  {
    seq(n, i => 0)
  }

  lemma {:induction false} SumZeros(n: nat)
    ensures Sum(Zeros(n)) == 0
  {
    if n > 0 {
      assert Zeros(n)[..n - 1] == Zeros(n - 1);
      SumZeros(n - 1);
    }
  }

  /** The sum of `f` over a sequence. */
  function SumBy<T>(s: seq<T>, f: T -> int): int {
    if s == [] then 0 else SumBy(s[..|s| - 1], f) + f(s[|s| - 1])
  }

  lemma {:induction false} SumByAppend<T>(a: seq<T>, b: seq<T>, f: T -> int)
    ensures SumBy(a + b, f) == SumBy(a, f) + SumBy(b, f)
    decreases |b|
  {
    if b == [] {
      assert a + b == a;
    } else {
      assert (a + b)[..|a + b| - 1] == a + b[..|b| - 1];
      SumByAppend(a, b[..|b| - 1], f);
    }
  }

  lemma SumBySingle<T>(x: T, f: T -> int)
    ensures SumBy([x], f) == f(x)
  {
    assert [x][..0] == [];
  }

  lemma SumByStep<T>(s: seq<T>, f: T -> int, i: nat)
    requires i < |s|
    ensures SumBy(s[..i + 1], f) == SumBy(s[..i], f) + f(s[i])
  {
    assert s[..i + 1][..i] == s[..i];
  }

  /** A sum of `n` values between `lo` and `hi` lies between `n * lo` and `n * hi`. */
  lemma {:induction false} SumByBounds<T>(s: seq<T>, f: T -> int, lo: int, hi: int)
    requires forall x | x in s :: lo <= f(x) <= hi
    ensures |s| * lo <= SumBy(s, f) <= |s| * hi
  {
    if s != [] {
      var init, last := s[..|s| - 1], s[|s| - 1];
      assert forall x | x in init :: x in s;
      SumByBounds(init, f, lo, hi);
      assert lo <= f(last) <= hi;
      var n := |init|;
      assert (n + 1) * lo == n * lo + lo && (n + 1) * hi == n * hi + hi;
    }
  }

  // ---------------------------------------------------------------- tallies

  /** One occurrence of a key, carrying the display name and the amount it contributes. */
  datatype Entry = Entry(key: string, name: string, weight: int)

  /** A counted key: the name of its first occurrence and the total of its weights. */
  datatype Tally = Tally(key: string, name: string, count: int)

  function TallyCount(t: Tally): int { t.count }

  /** The position of `key` among the tallies, or -1. */
  function KeyIndex(ts: seq<Tally>, key: string): (r: int)
    ensures -1 <= r < |ts|
    ensures r >= 0 ==> ts[r].key == key && forall i | 0 <= i < r :: ts[i].key != key
    ensures r == -1 <==> forall i | 0 <= i < |ts| :: ts[i].key != key
  {
    if ts == [] then -1
    else
      var r := KeyIndex(ts[..|ts| - 1], key);
      if r >= 0 then r else if ts[|ts| - 1].key == key then |ts| - 1 else -1
  }

  /** One step of counting: `counts.set(key, (counts.get(key) || 0) + weight)`, keeping the first name. */
  function AddEntry(ts: seq<Tally>, e: Entry): seq<Tally> {
    var i := KeyIndex(ts, e.key);
    if i >= 0 then ts[i := ts[i].(count := ts[i].count + e.weight)]
    else ts + [Tally(e.key, e.name, e.weight)]
  }

  /** The counts of all entries, keys in order of first appearance. */
  function Tallies(es: seq<Entry>): seq<Tally> {
    if es == [] then [] else AddEntry(Tallies(es[..|es| - 1]), es[|es| - 1])
  }

  function EntryKeys(es: seq<Entry>): seq<string> {
    seq(|es|, i requires 0 <= i < |es| => es[i].key)
  }

  /** The total weight of the entries with key `k`. */
  function WeightOf(es: seq<Entry>, k: string): int {
    if es == [] then 0 else WeightOf(es[..|es| - 1], k) + (if es[|es| - 1].key == k then es[|es| - 1].weight else 0)
  }

  function TotalWeight(es: seq<Entry>): int {
    if es == [] then 0 else TotalWeight(es[..|es| - 1]) + es[|es| - 1].weight
  }

  /** The index of the first entry with key `k` (|es| when there is none). */
  function FirstIndex(es: seq<Entry>, k: string): (r: nat)
    ensures r <= |es|
    ensures r < |es| ==> es[r].key == k
    ensures forall i | 0 <= i < r :: es[i].key != k
  {
    if es == [] then 0
    else
      var r := FirstIndex(es[..|es| - 1], k);
      if r < |es| - 1 then r else if es[|es| - 1].key == k then |es| - 1 else |es|
  }

  predicate DistinctKeys(ts: seq<Tally>) {
    forall i, j | 0 <= i < j < |ts| :: ts[i].key != ts[j].key
  }

  function KeySet(ts: seq<Tally>): set<string> {
    set i | 0 <= i < |ts| :: ts[i].key
  }

  function EntryKeySet(es: seq<Entry>): set<string> {
    set j | 0 <= j < |es| :: es[j].key
  }

  lemma WeightOfStep(es: seq<Entry>, e: Entry, k: string)
    ensures WeightOf(es + [e], k) == WeightOf(es, k) + (if e.key == k then e.weight else 0)
  {
    assert (es + [e])[..|es|] == es;
  }

  lemma FirstIndexStep(es: seq<Entry>, e: Entry, k: string)
    ensures FirstIndex(es + [e], k) == if FirstIndex(es, k) < |es| then FirstIndex(es, k) else if e.key == k then |es| else |es| + 1
  {
    assert (es + [e])[..|es|] == es;
  }

  lemma AddEntryKeySet(ts: seq<Tally>, e: Entry)
    ensures KeySet(AddEntry(ts, e)) == KeySet(ts) + {e.key}
  {
    var i := KeyIndex(ts, e.key);
    var ts' := AddEntry(ts, e);
    if i >= 0 {
      forall k | k in KeySet(ts) ensures k in KeySet(ts') {
        var a :| 0 <= a < |ts| && ts[a].key == k;
        assert ts'[a].key == k;
      }
    } else {
      forall k | k in KeySet(ts) ensures k in KeySet(ts') {
        var a :| 0 <= a < |ts| && ts[a].key == k;
        assert ts'[a].key == k;
      }
      assert ts'[|ts|].key == e.key;
    }
  }

  lemma TalliesSnoc(es: seq<Entry>, e: Entry)
    ensures Tallies(es + [e]) == AddEntry(Tallies(es), e)
  {
    assert (es + [e])[..|es|] == es;
  }

  lemma EntryKeySetSnoc(es: seq<Entry>, e: Entry)
    ensures EntryKeySet(es + [e]) == EntryKeySet(es) + {e.key}
  {
    var es' := es + [e];
    forall k | k in EntryKeySet(es) ensures k in EntryKeySet(es') {
      var j :| 0 <= j < |es| && es[j].key == k;
      assert es'[j].key == k;
    }
    assert es'[|es|].key == e.key;
  }

  /** A step of counting keeps the keys in place and appends a tally only for a new key. */
  lemma AddEntryShape(ts: seq<Tally>, e: Entry)
    ensures |AddEntry(ts, e)| == if KeyIndex(ts, e.key) >= 0 then |ts| else |ts| + 1
    ensures forall i | 0 <= i < |ts| :: AddEntry(ts, e)[i].key == ts[i].key
    ensures |AddEntry(ts, e)| > |ts| ==> AddEntry(ts, e)[|ts|].key == e.key
  {
  }

  /** One tally per key that occurs, and none for any other key. */
  lemma {:induction false} TalliesKeySet(es: seq<Entry>)
    ensures KeySet(Tallies(es)) == EntryKeySet(es)
  {
    if es != [] {
      var init, e := es[..|es| - 1], es[|es| - 1];
      assert es == init + [e];
      TalliesKeySet(init);
      TalliesSnoc(init, e);
      AddEntryKeySet(Tallies(init), e);
      EntryKeySetSnoc(init, e);
    }
  }

  /** No key is counted twice. */
  lemma {:induction false} TalliesDistinct(es: seq<Entry>)
    ensures DistinctKeys(Tallies(es))
  {
    if es != [] {
      TalliesDistinct(es[..|es| - 1]);
    }
  }

  /** Each count is the total weight of its key. */
  lemma {:induction false} TalliesCount(es: seq<Entry>)
    ensures forall i | 0 <= i < |Tallies(es)| :: Tallies(es)[i].count == WeightOf(es, Tallies(es)[i].key)
  {
    if es != [] {
      var init := es[..|es| - 1];
      var e := es[|es| - 1];
      assert es == init + [e];
      var ts := Tallies(init);
      var ts' := Tallies(es);
      assert ts' == AddEntry(ts, e);
      TalliesCount(init);
      TalliesDistinct(init);
      var idx := KeyIndex(ts, e.key);
      forall i | 0 <= i < |ts'| ensures ts'[i].count == WeightOf(es, ts'[i].key) {
        WeightOfStep(init, e, ts'[i].key);
        if idx < 0 && i == |ts| {
          TalliesKeySet(init);
          assert e.key !in KeySet(ts);
          WeightOfAbsent(init, e.key);
        }
      }
    }
  }

  /** Each tally carries the name of its key's first occurrence. */
  lemma {:induction false} TalliesName(es: seq<Entry>)
    ensures forall i | 0 <= i < |Tallies(es)| ::
      FirstIndex(es, Tallies(es)[i].key) < |es| && Tallies(es)[i].name == es[FirstIndex(es, Tallies(es)[i].key)].name
  {
    if es != [] {
      var init := es[..|es| - 1];
      var e := es[|es| - 1];
      assert es == init + [es[|es| - 1]];
      TalliesName(init);
      forall k ensures FirstIndex(es, k) == if FirstIndex(init, k) < |init| then FirstIndex(init, k) else if e.key == k then |init| else |init| + 1 {
        FirstIndexStep(init, e, k);
      }
      if KeyIndex(Tallies(init), e.key) < 0 {
        FirstIndexAbsent(init, Tallies(init), e.key);
      }
    }
  }

  lemma FirstIndexAbsent(es: seq<Entry>, ts: seq<Tally>, k: string)
    requires ts == Tallies(es)
    requires KeyIndex(ts, k) < 0
    ensures FirstIndex(es, k) == |es|
  {
    TalliesKeySet(es);
    assert k !in KeySet(ts);
  }

  /** The tallies list keys in the order of their first occurrence. */
  lemma {:induction false} TalliesOrder(es: seq<Entry>)
    ensures forall i, j | 0 <= i < j < |Tallies(es)| :: FirstIndex(es, Tallies(es)[i].key) < FirstIndex(es, Tallies(es)[j].key)
  {
    if es != [] {
      var init, e := es[..|es| - 1], es[|es| - 1];
      assert es == init + [e];
      TalliesOrder(init);
      TalliesName(init);
      TalliesSnoc(init, e);
      var ts := Tallies(init);
      AddEntryShape(ts, e);
      var ts' := AddEntry(ts, e);
      forall i, j | 0 <= i < j < |ts'| ensures FirstIndex(es, ts'[i].key) < FirstIndex(es, ts'[j].key) {
        FirstIndexStep(init, e, ts[i].key);
        if j < |ts| {
          FirstIndexStep(init, e, ts[j].key);
        } else {
          FirstIndexAbsent(init, ts, e.key);
          FirstIndexStep(init, e, e.key);
        }
      }
    }
  }

  /** Updating one count changes the sum of counts by the same amount. */
  lemma {:induction false} SumCountsBump(ts: seq<Tally>, i: nat, w: int)
    requires i < |ts|
    ensures SumBy(ts[i := ts[i].(count := ts[i].count + w)], TallyCount) == SumBy(ts, TallyCount) + w
    decreases |ts|
  {
    var t := ts[i := ts[i].(count := ts[i].count + w)];
    if i < |ts| - 1 {
      assert t[..|t| - 1] == ts[..|ts| - 1][i := ts[i].(count := ts[i].count + w)];
      SumCountsBump(ts[..|ts| - 1], i, w);
    } else {
      assert t[..|t| - 1] == ts[..|ts| - 1];
    }
  }

  /** The counts add up to the total weight of the entries. */
  lemma {:induction false} TalliesSum(es: seq<Entry>)
    ensures SumBy(Tallies(es), TallyCount) == TotalWeight(es)
  {
    if es != [] {
      var init := es[..|es| - 1];
      var e := es[|es| - 1];
      var ts := Tallies(init);
      assert Tallies(es) == AddEntry(ts, e);
      assert TotalWeight(es) == TotalWeight(init) + e.weight;
      TalliesSum(init);
      var i := KeyIndex(ts, e.key);
      if i >= 0 {
        SumCountsBump(ts, i, e.weight);
      } else {
        SumByAppend(ts, [Tally(e.key, e.name, e.weight)], TallyCount);
        SumBySingle(Tally(e.key, e.name, e.weight), TallyCount);
      }
    }
  }

  lemma {:induction false} WeightOfAbsent(es: seq<Entry>, k: string)
    requires k !in EntryKeySet(es)
    ensures WeightOf(es, k) == 0
  {
    if es != [] {
      var init := es[..|es| - 1];
      WeightOfAbsent(init, k);
    }
  }

  lemma TalliesStep(before: seq<Entry>, es: seq<Entry>, j: nat)
    requires j < |es|
    ensures Tallies(before + es[..j + 1]) == AddEntry(Tallies(before + es[..j]), es[j])
  {
    assert before + es[..j + 1] == (before + es[..j]) + [es[j]];
    TalliesSnoc(before + es[..j], es[j]);
  }

  /** An element of a non-empty sequence is its last one or lies before it. */
  /** What is in a list without its last element is in the list. */
  lemma InInit<T>(s: seq<T>, x: T)
    requires |s| > 0 && x in s[..|s| - 1]
    ensures x in s
  {
    var i :| 0 <= i < |s| - 1 && s[..|s| - 1][i] == x;
    assert s[i] == x;
  }

  lemma InInitOrLast<T>(s: seq<T>, x: T)
    requires x in s
    ensures x == s[|s| - 1] || x in s[..|s| - 1]
  {
    var i :| 0 <= i < |s| && s[i] == x;
    if i < |s| - 1 {
      assert s[..|s| - 1][i] == x;
    }
  }

  lemma PrefixEnds<T>(before: seq<T>, es: seq<T>)
    ensures before + es[..0] == before
    ensures es[..|es|] == es
  {
  }

  /** `es.forEach(e => counts.set(e.key, (counts.get(e.key) || 0) + e.weight))`. */
  method CountEntries(counts: seq<Tally>, ghost before: seq<Entry>, es: seq<Entry>) returns (counts': seq<Tally>)
    requires counts == Tallies(before)
    ensures counts' == Tallies(before + es)
  {
    counts' := counts;
    PrefixEnds(before, es);
    for j := 0 to |es|
      invariant counts' == Tallies(before + es[..j])
    {
      TalliesStep(before, es, j);
      counts' := AddEntry(counts', es[j]);
    }
  }

  /** The entries of every element in turn: the nested `forEach` of a counting pass. */
  function Flatten<T>(xs: seq<T>, f: T -> seq<Entry>): seq<Entry> {
    if xs == [] then [] else Flatten(xs[..|xs| - 1], f) + f(xs[|xs| - 1])
  }

  lemma FlattenStep<T>(xs: seq<T>, f: T -> seq<Entry>, k: nat)
    requires k < |xs|
    ensures Flatten(xs[..k + 1], f) == Flatten(xs[..k], f) + f(xs[k])
  {
    assert xs[..k + 1][..k] == xs[..k];
  }

  /** A counting `Map` filled by an outer `forEach` over `xs` and an inner one over each element's entries. */
  method CountAll<T>(xs: seq<T>, f: T -> seq<Entry>) returns (counts: seq<Tally>)
    ensures counts == Tallies(Flatten(xs, f))
  {
    counts := [];
    for k := 0 to |xs|
      invariant counts == Tallies(Flatten(xs[..k], f))
    {
      FlattenStep(xs, f, k);
      counts := CountEntries(counts, Flatten(xs[..k], f), f(xs[k]));
    }
    assert xs[..|xs|] == xs;
  }

  /** The total weight of a flattened sequence is the sum of the elements' totals. */
  lemma {:induction false} FlattenWeight<T>(xs: seq<T>, f: T -> seq<Entry>, total: T -> int)
    requires forall x | x in xs :: total(x) == TotalWeight(f(x))
    ensures TotalWeight(Flatten(xs, f)) == SumBy(xs, total)
  {
    if xs != [] {
      var init, last := xs[..|xs| - 1], xs[|xs| - 1];
      assert forall x | x in init :: x in xs;
      FlattenWeight(init, f, total);
      TotalWeightAppend(Flatten(init, f), f(last));
    }
  }

  lemma {:induction false} TotalWeightAppend(a: seq<Entry>, b: seq<Entry>)
    ensures TotalWeight(a + b) == TotalWeight(a) + TotalWeight(b)
    decreases |b|
  {
    if b == [] {
      assert a + b == a;
    } else {
      var init, last := b[..|b| - 1], b[|b| - 1];
      assert a + b == (a + init) + [last];
      assert b == init + [last];
      TotalWeightAppend(a, init);
      assert (a + init + [last])[..|a + init|] == a + init;
    }
  }

  /** A list of tallies with distinct keys has as many tallies as keys. */
  lemma {:induction false} DistinctKeySetSize(ts: seq<Tally>)
    requires DistinctKeys(ts)
    ensures |KeySet(ts)| == |ts|
  {
    if ts != [] {
      var init, last := ts[..|ts| - 1], ts[|ts| - 1];
      assert DistinctKeys(init) by {
        forall i, j | 0 <= i < j < |init| ensures init[i].key != init[j].key {
          assert init[i] == ts[i] && init[j] == ts[j];
        }
      }
      DistinctKeySetSize(init);
      forall k | k in KeySet(ts) ensures k in KeySet(init) + {last.key} {
        var a :| 0 <= a < |ts| && ts[a].key == k;
        if a < |init| {
          assert init[a] == ts[a];
        }
      }
      forall k | k in KeySet(init) ensures k in KeySet(ts) {
        var a :| 0 <= a < |init| && init[a].key == k;
        assert ts[a] == init[a];
      }
      assert KeySet(ts) == KeySet(init) + {last.key};
      forall a | 0 <= a < |init| ensures init[a].key != last.key {
        assert init[a] == ts[a];
      }
      assert last.key !in KeySet(init);
    }
  }

  /** There is one tally per distinct key. */
  lemma TalliesSize(es: seq<Entry>)
    ensures |Tallies(es)| == |EntryKeySet(es)|
  {
    TalliesKeySet(es);
    TalliesDistinct(es);
    DistinctKeySetSize(Tallies(es));
  }

  // ---------------------------------------------------------------- stable sort

  /** `forall i < j :: key(s[i]) >= key(s[j])`. */
  predicate SortedDesc<T>(s: seq<T>, key: T -> real) {
    forall i, j | 0 <= i < j < |s| :: key(s[i]) >= key(s[j])
  }

  /** The elements whose key is `c`, in order. */
  function KeyClass<T>(s: seq<T>, key: T -> real, c: real): seq<T> {
    if s == [] then [] else KeyClass(s[..|s| - 1], key, c) + (if key(s[|s| - 1]) == c then [s[|s| - 1]] else [])
  }

  /** Inserts `x` after every element whose key is at least its own. */
  function InsertDesc<T>(s: seq<T>, x: T, key: T -> real): (r: seq<T>)
    ensures |r| == |s| + 1
    ensures multiset(r) == multiset(s) + multiset{x}
  {
    if s == [] || key(s[|s| - 1]) >= key(x) then s + [x]
    else
      var init := s[..|s| - 1];
      assert s == init + [s[|s| - 1]];
      InsertDesc(init, x, key) + [s[|s| - 1]]
  }

  /**
   * `s.sort((a, b) => key(b) - key(a))`: the sort of the language is stable, so an insertion
   * sort that puts each element after the ones with an equal key gives the same order.
   */
  function SortDesc<T>(s: seq<T>, key: T -> real): (r: seq<T>)
    ensures |r| == |s|
    ensures multiset(r) == multiset(s)
  {
    if s == [] then []
    else
      assert s == s[..|s| - 1] + [s[|s| - 1]];
      InsertDesc(SortDesc(s[..|s| - 1], key), s[|s| - 1], key)
  }

  lemma {:induction false} InsertDescSorted<T>(s: seq<T>, x: T, key: T -> real)
    requires SortedDesc(s, key)
    ensures SortedDesc(InsertDesc(s, x, key), key)
    decreases |s|
  {
    if s == [] || key(s[|s| - 1]) >= key(x) {
    } else {
      var init := s[..|s| - 1];
      InsertDescSorted(init, x, key);
      var r := InsertDesc(init, x, key);
      assert multiset(r) == multiset(init) + multiset{x};
      forall y | y in r ensures key(y) >= key(s[|s| - 1]) {
        assert y in multiset(r);
        if y != x {
          assert y in multiset(init);
          assert y in init;
        }
      }
    }
  }

  lemma {:induction false} SortDescSorted<T>(s: seq<T>, key: T -> real)
    ensures SortedDesc(SortDesc(s, key), key)
  {
    if s != [] {
      SortDescSorted(s[..|s| - 1], key);
      InsertDescSorted(SortDesc(s[..|s| - 1], key), s[|s| - 1], key);
    }
  }

  lemma KeyClassAppend<T>(s: seq<T>, x: T, key: T -> real, c: real)
    ensures KeyClass(s + [x], key, c) == KeyClass(s, key, c) + (if key(x) == c then [x] else [])
  {
    assert (s + [x])[..|s|] == s;
  }

  lemma {:induction false} InsertDescClass<T>(s: seq<T>, x: T, key: T -> real, c: real)
    requires SortedDesc(s, key)
    ensures KeyClass(InsertDesc(s, x, key), key, c) == KeyClass(s, key, c) + (if key(x) == c then [x] else [])
    decreases |s|
  {
    if s == [] || key(s[|s| - 1]) >= key(x) {
      KeyClassAppend(s, x, key, c);
    } else {
      var init := s[..|s| - 1];
      var last := s[|s| - 1];
      assert s == init + [last];
      InsertDescClass(init, x, key, c);
      KeyClassAppend(InsertDesc(init, x, key), last, key, c);
      KeyClassAppend(init, last, key, c);
    }
  }

  /**
   * The sort is stable: for every key value, the elements with that key keep their relative
   * order.
   */
  lemma {:induction false} SortDescStable<T>(s: seq<T>, key: T -> real, c: real)
    ensures KeyClass(SortDesc(s, key), key, c) == KeyClass(s, key, c)
  {
    if s != [] {
      var init := s[..|s| - 1];
      SortDescStable(init, key, c);
      SortDescSorted(init, key);
      InsertDescClass(SortDesc(init, key), s[|s| - 1], key, c);
      KeyClassAppend(init, s[|s| - 1], key, c);
      assert init + [s[|s| - 1]] == s;
    }
  }

  lemma {:induction false} SumByInsert<T>(s: seq<T>, x: T, key: T -> real, f: T -> int)
    ensures SumBy(InsertDesc(s, x, key), f) == SumBy(s, f) + f(x)
    decreases |s|
  {
    if s == [] || key(s[|s| - 1]) >= key(x) {
      SumByAppend(s, [x], f);
      SumBySingle(x, f);
    } else {
      var init := s[..|s| - 1];
      SumByInsert(init, x, key, f);
      SumByAppend(InsertDesc(init, x, key), [s[|s| - 1]], f);
      SumBySingle(s[|s| - 1], f);
    }
  }

  /** Sorting does not change a sum over the elements. */
  lemma {:induction false} SumBySort<T>(s: seq<T>, key: T -> real, f: T -> int)
    ensures SumBy(SortDesc(s, key), f) == SumBy(s, f)
  {
    if s != [] {
      SumBySort(s[..|s| - 1], key, f);
      SumByInsert(SortDesc(s[..|s| - 1], key), s[|s| - 1], key, f);
    }
  }

  /** Every element of a key class comes from the sequence and has that key. */
  lemma {:induction false} KeyClassMembers<T>(s: seq<T>, key: T -> real, c: real)
    ensures forall y | y in KeyClass(s, key, c) :: y in s && key(y) == c
  {
    if s != [] {
      KeyClassMembers(s[..|s| - 1], key, c);
    }
  }

  /** A subsequence picked by key keeps any strictly increasing measure increasing. */
  lemma {:induction false} KeyClassIncreasing<T>(s: seq<T>, key: T -> real, c: real, f: T -> int)
    requires forall i, j | 0 <= i < j < |s| :: f(s[i]) < f(s[j])
    ensures forall i, j | 0 <= i < j < |KeyClass(s, key, c)| :: f(KeyClass(s, key, c)[i]) < f(KeyClass(s, key, c)[j])
  {
    if s != [] {
      var init, last := s[..|s| - 1], s[|s| - 1];
      KeyClassIncreasing(init, key, c, f);
      KeyClassMembers(init, key, c);
      forall y | y in init ensures f(y) < f(last) {
        var i :| 0 <= i < |init| && init[i] == y;
        assert s[i] == y;
      }
    }
  }

  // ---------------------------------------------------------------- Object.entries order

  /**
   * A key that the language treats as an array index: the canonical decimal form of an
   * integer below 2^32 - 1.
   */
  predicate IsArrayIndex(k: string) {
    && k != [] && AllDigits(k)
    && (|k| == 1 || k[0] != '0')
    && DigitsValue(k, 10) < 0x1_0000_0000 - 1
  }

  predicate IsIndexTally(t: Tally) { IsArrayIndex(t.key) }

  predicate IsNamedTally(t: Tally) { !IsArrayIndex(t.key) }

  /** Sort key that puts array-index keys in ascending numeric order. */
  function IndexOrder(t: Tally): real {
    if AllDigits(t.key) then -(DigitsValue(t.key, 10) as real) else 0.0
  }

  /**
   * `Object.entries` of an object filled in the order of `ts`: the array-index keys first,
   * in ascending numeric order, then the other keys in insertion order.
   */
  function ObjectEntries(ts: seq<Tally>): (r: seq<Tally>)
    ensures multiset(r) == multiset(ts)
  {
    var idx := Filter(ts, IsIndexTally);
    var named := Filter(ts, IsNamedTally);
    FilterPartition(ts, IsIndexTally, IsNamedTally);
    SortDesc(idx, IndexOrder) + named
  }

  /** An object none of whose keys is an array index lists its entries in insertion order. */
  lemma ObjectEntriesNamed(ts: seq<Tally>)
    requires forall i | 0 <= i < |ts| :: IsNamedTally(ts[i])
    ensures ObjectEntries(ts) == ts
  {
    FilterNoIndex(ts);
    FilterAllNamed(ts);
  }

  lemma {:induction false} FilterNoIndex(ts: seq<Tally>)
    requires forall i | 0 <= i < |ts| :: IsNamedTally(ts[i])
    ensures Filter(ts, IsIndexTally) == []
  {
    if ts != [] {
      FilterNoIndex(ts[..|ts| - 1]);
    }
  }

  lemma {:induction false} FilterAllNamed(ts: seq<Tally>)
    requires forall i | 0 <= i < |ts| :: IsNamedTally(ts[i])
    ensures Filter(ts, IsNamedTally) == ts
  {
    if ts != [] {
      var init, last := ts[..|ts| - 1], ts[|ts| - 1];
      FilterAllNamed(init);
      assert init + [last] == ts;
    }
  }

  lemma {:induction false} WeightOfAppend(a: seq<Entry>, b: seq<Entry>, k: string)
    ensures WeightOf(a + b, k) == WeightOf(a, k) + WeightOf(b, k)
    decreases |b|
  {
    if b == [] {
      assert a + b == a;
    } else {
      assert (a + b)[..|a + b| - 1] == a + b[..|b| - 1];
      WeightOfAppend(a, b[..|b| - 1], k);
    }
  }

  /** Two complementary filters split a sequence's multiset. */
  lemma {:induction false} FilterPartition<T>(s: seq<T>, p: T -> bool, q: T -> bool)
    requires forall x :: q(x) == !p(x)
    ensures multiset(Filter(s, p)) + multiset(Filter(s, q)) == multiset(s)
  {
    if s != [] {
      var init, last := s[..|s| - 1], s[|s| - 1];
      assert s == init + [last];
      FilterPartition(init, p, q);
      FilterSnoc(init, last, p);
      FilterSnoc(init, last, q);
    }
  }

  // ---------------------------------------------------------------- distinct

  /** `[...new Set(s)]`: the distinct elements, in order of first appearance. */
  function Distinct<T(==)>(s: seq<T>): (r: seq<T>)
    ensures forall x | x in r :: x in s
    ensures forall x | x in s :: x in r
    ensures forall i, j | 0 <= i < j < |r| :: r[i] != r[j]
  {
    if s == [] then []
    else
      var init := Distinct(s[..|s| - 1]);
      if s[|s| - 1] in init then init else init + [s[|s| - 1]]
  }

  /** The index of the first occurrence of `x` in `s`. */
  function IndexOf<T(==)>(s: seq<T>, x: T): (r: nat)
    requires x in s
    ensures r < |s| && s[r] == x && x !in s[..r]
  {
    if s[0] == x then 0 else 1 + IndexOf(s[1..], x)
  }

  lemma IndexOfExtend<T>(s: seq<T>, y: T, x: T)
    requires x in s
    ensures IndexOf(s + [y], x) == IndexOf(s, x)
  {
    var i := IndexOf(s, x);
    assert (s + [y])[i] == x && x !in (s + [y])[..i] by { assert (s + [y])[..i] == s[..i]; }
    IndexOfUnique(s + [y], x, i);
  }

  lemma IndexOfUnique<T>(s: seq<T>, x: T, i: nat)
    requires i < |s| && s[i] == x && x !in s[..i]
    ensures IndexOf(s, x) == i
  {
  }

  /** `Distinct` lists the elements in the order of their first appearance. */
  lemma {:induction false} DistinctFirstAppearance<T>(s: seq<T>)
    ensures forall i, j | 0 <= i < j < |Distinct(s)| :: IndexOf(s, Distinct(s)[i]) < IndexOf(s, Distinct(s)[j])
  {
    if s != [] {
      var init := s[..|s| - 1];
      var last := s[|s| - 1];
      assert s == init + [last];
      DistinctFirstAppearance(init);
      var d := Distinct(init);
      forall x | x in d ensures IndexOf(s, x) == IndexOf(init, x) {
        IndexOfExtend(init, last, x);
      }
      if last !in d {
        assert last !in init;
        IndexOfUnique(s, last, |init|);
        forall x | x in d ensures IndexOf(s, x) < |init| {
          assert x in init;
        }
      }
    }
  }

  // ---------------------------------------------------------------- reordering and mapping

  /** No two elements share the value of `f`. */
  ghost predicate DistinctBy<T, K>(s: seq<T>, f: T -> K) {
    forall i, j | 0 <= i < j < |s| :: f(s[i]) != f(s[j])
  }

  function TallyKey(t: Tally): string { t.key }

  /** An element found at two positions occurs at least twice in the multiset. */
  lemma Multiplicity2<T>(s: seq<T>, i: nat, j: nat)
    requires i < j < |s| && s[i] == s[j]
    ensures multiset(s)[s[i]] >= 2
  {
    assert s == s[..j] + [s[j]] + s[j + 1..];
    assert s[..j][i] == s[i];
  }

  /** An element occurring at least twice in the multiset sits at two positions. */
  lemma {:induction false} TwoPositions<T>(s: seq<T>, x: T) returns (p: nat, q: nat)
    requires multiset(s)[x] >= 2
    ensures p < q < |s| && s[p] == x && s[q] == x
  {
    assert s == [s[0]] + s[1..];
    if s[0] == x {
      assert x in multiset(s[1..]);
      var k :| 0 <= k < |s[1..]| && s[1..][k] == x;
      p, q := 0, k + 1;
    } else {
      var p', q' := TwoPositions(s[1..], x);
      p, q := p' + 1, q' + 1;
    }
  }

  /** Two positions of a reordering come from two different positions of the original. */
  lemma DistinctPositions<T>(a: seq<T>, b: seq<T>, i: nat, j: nat) returns (p: nat, q: nat)
    requires multiset(a) == multiset(b) && i < j < |b|
    ensures p < |a| && q < |a| && p != q && a[p] == b[i] && a[q] == b[j]
  {
    if b[i] == b[j] {
      Multiplicity2(b, i, j);
      p, q := TwoPositions(a, b[i]);
    } else {
      assert b[i] in multiset(a) && b[j] in multiset(a);
      p :| 0 <= p < |a| && a[p] == b[i];
      q :| 0 <= q < |a| && a[q] == b[j];
    }
  }

  /** Reordering keeps the values of `f` distinct. */
  lemma DistinctByPermutation<T, K>(a: seq<T>, b: seq<T>, f: T -> K)
    requires multiset(a) == multiset(b) && DistinctBy(a, f)
    ensures DistinctBy(b, f)
  {
    forall i, j | 0 <= i < j < |b| ensures f(b[i]) != f(b[j]) {
      var p, q := DistinctPositions(a, b, i, j);
      if p < q {
        assert f(a[p]) != f(a[q]);
      } else {
        assert f(a[q]) != f(a[p]);
      }
    }
  }

  /** Taking the last element off a sequence and one equal element off its reordering leaves a reordering. */
  lemma RemoveOne<T>(a: seq<T>, b: seq<T>, k: nat)
    requires multiset(a) == multiset(b) && a != [] && k < |b| && b[k] == a[|a| - 1]
    ensures multiset(b[..k] + b[k + 1..]) == multiset(a[..|a| - 1])
  {
    var x, y, z := multiset(b[..k]), multiset(b[k + 1..]), multiset([b[k]]);
    assert b == b[..k] + [b[k]] + b[k + 1..];
    assert a == a[..|a| - 1] + [b[k]];
    var w := multiset(a[..|a| - 1]);
    assert w + z == x + z + y;
    forall e ensures w[e] == (x + y)[e] {
      assert (w + z)[e] == (x + z + y)[e];
    }
  }

  /** Reordering does not change a sum. */
  lemma {:induction false} SumByPermutation<T>(a: seq<T>, b: seq<T>, f: T -> int)
    requires multiset(a) == multiset(b)
    ensures SumBy(a, f) == SumBy(b, f)
    decreases |a|
  {
    if a == [] {
      assert |b| == |multiset(b)| == 0;
    } else {
      var init, last := a[..|a| - 1], a[|a| - 1];
      assert a == init + [last];
      assert last in multiset(b);
      var k :| 0 <= k < |b| && b[k] == last;
      var rest := b[..k] + b[k + 1..];
      assert b == b[..k] + [last] + b[k + 1..];
      RemoveOne(a, b, k);
      SumByPermutation(init, rest, f);
      SumByAppend(b[..k], b[k + 1..], f);
      SumByAppend(b[..k] + [last], b[k + 1..], f);
      SumByAppend(b[..k], [last], f);
      SumBySingle(last, f);
    }
  }

  /** `s.map(f)`. */
  function MapSeq<T, U>(s: seq<T>, f: T -> U): (r: seq<U>)
    ensures |r| == |s| && forall i | 0 <= i < |s| :: r[i] == f(s[i])
  {
    seq(|s|, i requires 0 <= i < |s| => f(s[i]))
  }

  /** Summing over a mapped sequence is summing the composed function. */
  lemma {:induction false} MapSumBy<T, U>(s: seq<T>, f: T -> U, g: U -> int, h: T -> int)
    requires forall x :: h(x) == g(f(x))
    ensures SumBy(MapSeq(s, f), g) == SumBy(s, h)
  {
    if s != [] {
      var init := s[..|s| - 1];
      assert MapSeq(s, f)[..|s| - 1] == MapSeq(init, f);
      MapSumBy(init, f, g, h);
    }
  }

  /** The elements of a flattened sequence are the entries of its elements. */
  lemma {:induction false} FlattenOrigin<T>(xs: seq<T>, f: T -> seq<Entry>, e: Entry) returns (x: T)
    requires e in Flatten(xs, f)
    ensures x in xs && e in f(x)
  {
    var init, last := xs[..|xs| - 1], xs[|xs| - 1];
    if e in f(last) {
      x := last;
    } else {
      x := FlattenOrigin(init, f, e);
      assert init <= xs;
    }
  }

  lemma {:induction false} FlattenContains<T>(xs: seq<T>, f: T -> seq<Entry>, x: T, e: Entry)
    requires x in xs && e in f(x)
    ensures e in Flatten(xs, f)
  {
    var init, last := xs[..|xs| - 1], xs[|xs| - 1];
    if x != last {
      assert xs == init + [last];
      FlattenContains(init, f, x, e);
    }
  }

  /** The keys that occur in the entries are exactly the keys of the tallies' reorderings. */
  lemma TallyFor(es: seq<Entry>, ts: seq<Tally>, k: string) returns (t: Tally)
    requires multiset(ts) == multiset(Tallies(es))
    requires k in EntryKeySet(es)
    ensures t in ts && t.key == k && t.count == WeightOf(es, k)
  {
    TalliesKeySet(es);
    TalliesCount(es);
    var a :| 0 <= a < |Tallies(es)| && Tallies(es)[a].key == k;
    t := Tallies(es)[a];
    assert t in multiset(ts);
  }

  /** Each tally of a reordering counts the weight of its key, which occurs in the entries. */
  lemma TallyOrigin(es: seq<Entry>, ts: seq<Tally>, t: Tally)
    requires multiset(ts) == multiset(Tallies(es))
    requires t in ts
    ensures t.key in EntryKeySet(es) && t.count == WeightOf(es, t.key)
  {
    TalliesKeySet(es);
    TalliesCount(es);
    assert t in multiset(Tallies(es));
    var a :| 0 <= a < |Tallies(es)| && Tallies(es)[a] == t;
    assert t.key in KeySet(Tallies(es));
  }
}
