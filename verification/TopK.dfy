/**
 The busiest functions of a metrics window: the k functions with the most calls, each with its own
 series, and one more series for all the others together.

 A hash map is a sequence of entries with different names, in the order it happens to iterate.
 Names are modelled by their rank in the string order and amounts by reals.
 */
module TopK {
  import opened Common

  type Name = nat

  datatype Point = Point(start: nat, value: Option<real>)

  type Series = seq<Point>

  datatype Entry = Entry(name: Name, series: Series)

  datatype Score = Score(name: Name, total: real)

  datatype Label = Udf(name: Name) | Rest

  datatype Row = Row(id: Label, series: Series)

  // ------------------------------------------------------------------ ranking

  /** More calls first, then by name. */
  predicate Before(a: Score, b: Score) {
    a.total > b.total || (a.total == b.total && a.name < b.name)
  }

  function Insert(s: Score, sorted: seq<Score>): seq<Score> {
    if sorted == [] || Before(s, sorted[0]) then [s] + sorted
    else [sorted[0]] + Insert(s, sorted[1..])
  }

  function Sorted(scores: seq<Score>): seq<Score> {
    if scores == [] then [] else Insert(scores[0], Sorted(scores[1..]))
  }

  /** The code sorts, truncates and keeps the names. */
  function Top(scores: seq<Score>, k: nat): seq<Name> {
    Names(Sorted(scores)[..if k < |Sorted(scores)| then k else |Sorted(scores)|])
  }

  function Names(scores: seq<Score>): (ns: seq<Name>)
    ensures |ns| == |scores| && forall i :: 0 <= i < |scores| ==> ns[i] == scores[i].name
  {
    seq(|scores|, i requires 0 <= i < |scores| => scores[i].name)
  }

  predicate DifferentNames(scores: seq<Score>) {
    forall i, j :: 0 <= i < j < |scores| ==> scores[i].name != scores[j].name
  }

  predicate InRankOrder(scores: seq<Score>) {
    forall i, j :: 0 <= i < j < |scores| ==> Before(scores[i], scores[j])
  }

  /** How many scores come before `s`. */
  function Rank(scores: seq<Score>, s: Score): nat {
    if scores == [] then 0 else (if Before(scores[0], s) then 1 else 0) + Rank(scores[1..], s)
  }

  lemma {:induction false} InsertKeeps(s: Score, sorted: seq<Score>)
    ensures |Insert(s, sorted)| == |sorted| + 1
    ensures forall x :: x in Insert(s, sorted) <==> x == s || x in sorted
    ensures forall x :: Rank(Insert(s, sorted), x) == Rank(sorted, x) + if Before(s, x) then 1 else 0
  {
    if sorted == [] || Before(s, sorted[0]) {
      assert ([s] + sorted)[1..] == sorted;
    } else {
      InsertKeeps(s, sorted[1..]);
      var rest := Insert(s, sorted[1..]);
      assert ([sorted[0]] + rest)[1..] == rest;
      assert sorted == [sorted[0]] + sorted[1..];
    }
  }

  lemma {:induction false} InsertOrders(s: Score, sorted: seq<Score>)
    requires InRankOrder(sorted) && forall x :: x in sorted ==> x.name != s.name
    ensures InRankOrder(Insert(s, sorted))
  {
    if sorted != [] && !Before(s, sorted[0]) {
      var rest := Insert(s, sorted[1..]);
      InsertOrders(s, sorted[1..]);
      InsertKeeps(s, sorted[1..]);
      forall j | 0 <= j < |rest| ensures Before(sorted[0], rest[j]) {
        assert rest[j] in rest;
      }
    } else if sorted != [] {
      forall j | 0 <= j < |sorted| ensures Before(s, sorted[j]) {
        assert j > 0 ==> Before(sorted[0], sorted[j]);
      }
    }
  }

  lemma {:induction false} SortedKeeps(scores: seq<Score>)
    ensures |Sorted(scores)| == |scores|
    ensures forall x :: x in Sorted(scores) <==> x in scores
    ensures forall x :: Rank(Sorted(scores), x) == Rank(scores, x)
  {
    if scores != [] {
      SortedKeeps(scores[1..]);
      InsertKeeps(scores[0], Sorted(scores[1..]));
      assert scores == [scores[0]] + scores[1..];
    }
  }

  lemma {:induction false} SortedOrders(scores: seq<Score>)
    requires DifferentNames(scores)
    ensures InRankOrder(Sorted(scores))
  {
    if scores != [] {
      SortedOrders(scores[1..]);
      SortedKeeps(scores[1..]);
      InsertOrders(scores[0], Sorted(scores[1..]));
    }
  }

  /** In a ranking, the rank is the position. */
  lemma {:induction false} RankIsPosition(sorted: seq<Score>, j: nat)
    requires InRankOrder(sorted) && j < |sorted|
    ensures Rank(sorted, sorted[j]) == j
  {
    if j == 0 {
      NothingBefore(sorted, sorted[0]);
    } else {
      RankIsPosition(sorted[1..], j - 1);
      assert Before(sorted[0], sorted[j]);
    }
  }

  lemma {:induction false} NothingBefore(scores: seq<Score>, s: Score)
    requires forall i :: 0 <= i < |scores| ==> !Before(scores[i], s)
    ensures Rank(scores, s) == 0
  {
    if scores != [] {
      NothingBefore(scores[1..], s);
    }
  }

  /** Positions in the ranking of scores with different names. */
  lemma RankingNames(scores: seq<Score>)
    requires DifferentNames(scores)
    ensures DifferentNames(Sorted(scores))
  {
    SortedKeeps(scores);
    SortedOrders(scores);
    var sorted := Sorted(scores);
    forall i, j | 0 <= i < j < |sorted| ensures sorted[i].name != sorted[j].name {
      assert sorted[i] in scores && sorted[j] in scores;
      assert Before(sorted[i], sorted[j]);
      assert sorted[i] != sorted[j];
    }
  }

  lemma ListedAt(sorted: seq<Score>, k: nat, j: nat)
    requires DifferentNames(sorted) && j < |sorted|
    ensures sorted[j].name in Names(sorted[..if k < |sorted| then k else |sorted|]) <==> j < k
  {
  }

  /** A function is listed exactly when fewer than k come before it; the list has no repeats. */
  lemma TopListsLowRanks(scores: seq<Score>, k: nat)
    requires DifferentNames(scores)
    ensures |Top(scores, k)| == if k < |scores| then k else |scores|
    ensures Distinct(Top(scores, k))
    ensures forall s :: s in scores ==> (s.name in Top(scores, k) <==> Rank(scores, s) < k)
    ensures forall s, t :: s in scores && t in scores && s.name in Top(scores, k) && t.name !in Top(scores, k) ==>
              s.total > t.total || (s.total == t.total && s.name < t.name)
  {
    SortedKeeps(scores);
    SortedOrders(scores);
    RankingNames(scores);
    var sorted := Sorted(scores);
    forall s | s in scores ensures s.name in Top(scores, k) <==> Rank(scores, s) < k {
      assert s in sorted;
      var j :| 0 <= j < |sorted| && sorted[j] == s;
      RankIsPosition(sorted, j);
      ListedAt(sorted, k, j);
    }
    forall s, t | s in scores && t in scores && s.name in Top(scores, k) && t.name !in Top(scores, k)
      ensures s.total > t.total || (s.total == t.total && s.name < t.name)
    {
      var i :| 0 <= i < |sorted| && sorted[i] == s;
      var j :| 0 <= j < |sorted| && sorted[j] == t;
      ListedAt(sorted, k, i);
      ListedAt(sorted, k, j);
      assert Before(sorted[i], sorted[j]);
    }
  }

  // ------------------------------------------------------------------ amounts

  function Amount(v: Option<real>): real {
    if v.Some? then v.value else 0.0
  }

  /** The sum of the values there are, if there is one. */
  function SeriesTotal(series: Series): Option<real> {
    if series == [] then None
    else Add(SeriesTotal(series[..|series| - 1]), series[|series| - 1].value)
  }

  function Add(sum: Option<real>, v: Option<real>): Option<real> {
    if v.None? then sum else Some(Amount(sum) + v.value)
  }

  /** The functions that have a value at all, with their totals. */
  function Scores(entries: seq<Entry>): seq<Score> {
    if entries == [] then []
    else
      var e := entries[|entries| - 1];
      var before := Scores(entries[..|entries| - 1]);
      if SeriesTotal(e.series).None? then before else before + [Score(e.name, SeriesTotal(e.series).value)]
  }

  function ValueAt(series: Series, i: nat): Option<real> {
    if i < |series| then series[i].value else None
  }

  /** The sum of bucket `i` over all entries, if one of them has a value there. */
  function BucketSum(entries: seq<Entry>, i: nat): Option<real> {
    if entries == [] then None
    else Add(BucketSum(entries[..|entries| - 1], i), ValueAt(entries[|entries| - 1].series, i))
  }

  function RowsAmount(rows: seq<Row>, i: nat): real {
    if rows == [] then 0.0
    else RowsAmount(rows[..|rows| - 1], i) + Amount(ValueAt(rows[|rows| - 1].series, i))
  }

  /** A series with exactly the window's buckets. */
  predicate Aligned(starts: seq<nat>, series: Series) {
    |series| == |starts| && forall i :: 0 <= i < |starts| ==> series[i].start == starts[i]
  }

  predicate DifferentFunctions(entries: seq<Entry>) {
    forall i, j :: 0 <= i < j < |entries| ==> entries[i].name != entries[j].name
  }

  lemma {:induction false} ScoresOf(entries: seq<Entry>)
    ensures forall s :: s in Scores(entries) ==>
              exists e :: e in entries && s.name == e.name && SeriesTotal(e.series) == Some(s.total)
    ensures forall e :: e in entries && SeriesTotal(e.series).Some? ==>
              Score(e.name, SeriesTotal(e.series).value) in Scores(entries)
  {
    if entries != [] {
      var n := |entries| - 1;
      ScoresOf(entries[..n]);
      assert entries == entries[..n] + [entries[n]];
    }
  }

  lemma {:induction false} ScoresDiffer(entries: seq<Entry>)
    requires DifferentFunctions(entries)
    ensures DifferentNames(Scores(entries))
  {
    if entries != [] {
      var n := |entries| - 1;
      ScoresDiffer(entries[..n]);
      var before := Scores(entries[..n]);
      forall i | 0 <= i < |before| ensures before[i].name != entries[n].name {
        ScoresOf(entries[..n]);
        assert before[i] in before;
      }
    }
  }

  /** Taking one entry out takes its amount out. */
  lemma {:induction false} WithoutOne(entries: seq<Entry>, j: nat, i: nat)
    requires j < |entries|
    ensures var rest := entries[..j] + entries[j + 1..];
            Amount(BucketSum(entries, i)) == Amount(BucketSum(rest, i)) + Amount(ValueAt(entries[j].series, i))
  {
    var n := |entries| - 1;
    var rest := entries[..j] + entries[j + 1..];
    if j == n {
      assert rest == entries[..n];
    } else {
      WithoutOne(entries[..n], j, i);
      assert rest[..n - 1] == entries[..n][..j] + entries[..n][j + 1..];
      assert rest[n - 1] == entries[n];
    }
  }

  // ------------------------------------------------------------------ who has the most calls

  ghost predicate HasCalls(series: Series) {
    exists i :: 0 <= i < |series| && series[i].value.Some?
  }

  /** All the calls of a series. */
  function Calls(series: Series): real {
    if series == [] then 0.0
    else (match series[0].value case Some(v) => v case None => 0.0) + Calls(series[1..])
  }

  lemma {:induction false} CallsSnoc(series: Series, p: Point)
    ensures Calls(series + [p]) == Calls(series) + match p.value case Some(v) => v case None => 0.0
  {
    if series == [] {
      assert ([p])[1..] == [];
    } else {
      CallsSnoc(series[1..], p);
      assert (series + [p])[1..] == series[1..] + [p];
    }
  }

  /** The total is the sum of all the calls, and there is one exactly when there are any. */
  lemma {:induction false} TotalIsSum(series: Series)
    ensures SeriesTotal(series) == if HasCalls(series) then Some(Calls(series)) else None
    ensures !HasCalls(series) ==> Calls(series) == 0.0
  {
    if series != [] {
      var n := |series| - 1;
      TotalIsSum(series[..n]);
      CallsSnoc(series[..n], series[n]);
      assert series == series[..n] + [series[n]];
      assert HasCalls(series) <==> HasCalls(series[..n]) || series[n].value.Some?;
    }
  }

  ghost predicate HasCallsAt(entries: seq<Entry>, i: nat) {
    exists e :: e in entries && ValueAt(e.series, i).Some?
  }

  /** All the calls of bucket `i`. */
  function CallsAt(entries: seq<Entry>, i: nat): real {
    if entries == [] then 0.0
    else (match ValueAt(entries[0].series, i) case Some(v) => v case None => 0.0) + CallsAt(entries[1..], i)
  }

  lemma {:induction false} CallsAtSnoc(entries: seq<Entry>, e: Entry, i: nat)
    ensures CallsAt(entries + [e], i)
         == CallsAt(entries, i) + match ValueAt(e.series, i) case Some(v) => v case None => 0.0
  {
    if entries == [] {
      assert ([e])[1..] == [];
    } else {
      CallsAtSnoc(entries[1..], e, i);
      assert (entries + [e])[1..] == entries[1..] + [e];
    }
  }

  lemma {:induction false} BucketIsSum(entries: seq<Entry>, i: nat)
    ensures BucketSum(entries, i) == if HasCallsAt(entries, i) then Some(CallsAt(entries, i)) else None
    ensures !HasCallsAt(entries, i) ==> CallsAt(entries, i) == 0.0
  {
    if entries != [] {
      var n := |entries| - 1;
      BucketIsSum(entries[..n], i);
      CallsAtSnoc(entries[..n], entries[n], i);
      assert entries == entries[..n] + [entries[n]];
      assert HasCallsAt(entries, i) <==> HasCallsAt(entries[..n], i) || ValueAt(entries[n].series, i).Some?;
    }
  }

  /** More calls, or as many and an earlier name. */
  ghost predicate Busier(a: Entry, b: Entry) {
    Calls(a.series) > Calls(b.series) || (Calls(a.series) == Calls(b.series) && a.name < b.name)
  }

  ghost function BusierThan(entries: seq<Entry>, e: Entry): set<Entry> {
    set x | x in entries && HasCalls(x.series) && Busier(x, e)
  }

  /** Among the k functions with the most calls: fewer than k have more. */
  ghost predicate Listed(entries: seq<Entry>, k: nat, e: Entry) {
    HasCalls(e.series) && |BusierThan(entries, e)| < k
  }

  lemma ScoresAreTotals(entries: seq<Entry>)
    ensures forall s :: s in Scores(entries) <==>
              exists e :: e in entries && s.name == e.name && HasCalls(e.series) && s.total == Calls(e.series)
  {
    ScoresOf(entries);
    forall e | e in entries
      ensures SeriesTotal(e.series) == if HasCalls(e.series) then Some(Calls(e.series)) else None
    {
      TotalIsSum(e.series);
    }
    forall s: Score | exists e :: e in entries && s.name == e.name && HasCalls(e.series) && s.total == Calls(e.series)
      ensures s in Scores(entries)
    {
      var e :| e in entries && s.name == e.name && HasCalls(e.series) && s.total == Calls(e.series);
      assert Score(e.name, SeriesTotal(e.series).value) in Scores(entries);
    }
  }

  lemma {:induction false} RankSnoc(scores: seq<Score>, x: Score, s: Score)
    ensures Rank(scores + [x], s) == Rank(scores, s) + if Before(x, s) then 1 else 0
  {
    if scores == [] {
      assert ([x])[1..] == [];
    } else {
      RankSnoc(scores[1..], x, s);
      assert (scores + [x])[1..] == scores[1..] + [x];
    }
  }

  lemma BusierSnoc(past: seq<Entry>, x: Entry, e: Entry)
    requires x !in past
    ensures |BusierThan(past + [x], e)| == |BusierThan(past, e)| + if HasCalls(x.series) && Busier(x, e) then 1 else 0
  {
    if HasCalls(x.series) && Busier(x, e) {
      assert BusierThan(past + [x], e) == BusierThan(past, e) + {x};
    } else {
      assert BusierThan(past + [x], e) == BusierThan(past, e);
    }
  }

  lemma {:induction false} RankIsCount(entries: seq<Entry>, e: Entry)
    requires DifferentFunctions(entries)
    ensures Rank(Scores(entries), Score(e.name, Calls(e.series))) == |BusierThan(entries, e)|
  {
    if entries == [] {
      assert BusierThan(entries, e) == {};
    } else {
      var n := |entries| - 1;
      var past, x := entries[..n], entries[n];
      RankIsCount(past, e);
      TotalIsSum(x.series);
      assert entries == past + [x];
      if HasCalls(x.series) {
        RankSnoc(Scores(past), Score(x.name, Calls(x.series)), Score(e.name, Calls(e.series)));
      }
      BusierSnoc(past, x, e);
    }
  }

  /** Every listed function has more calls than every one that is not, or as many and an earlier name. */
  lemma ListedAreBusier(entries: seq<Entry>, k: nat, a: Entry, b: Entry)
    requires DifferentFunctions(entries) && a in entries && b in entries && HasCalls(b.series)
    requires Listed(entries, k, a) && !Listed(entries, k, b)
    ensures Busier(a, b)
  {
    if !Busier(a, b) {
      assert a.name != b.name && Busier(b, a);
      var ahead, more := BusierThan(entries, b), BusierThan(entries, a);
      assert ahead <= more;
      Fewer(ahead, more);
    }
  }

  lemma {:induction false} Fewer(a: set<Entry>, b: set<Entry>)
    requires a <= b
    ensures |a| <= |b|
    decreases a
  {
    if a != {} {
      var x :| x in a;
      Fewer(a - {x}, b - {x});
    }
  }

  // ------------------------------------------------------------------ the code

  /** Bucket by bucket; fails on a series that does not have the window's buckets. */
  method SumTimeseries(starts: seq<nat>, entries: seq<Entry>) returns (r: Option<Series>)
    ensures r.Some? <==> forall e :: e in entries ==> Aligned(starts, e.series)
    ensures r.Some? ==> Aligned(starts, r.value)
    ensures r.Some? ==> forall i :: 0 <= i < |starts| ==> r.value[i].value == BucketSum(entries, i)
    ensures r.Some? ==> forall i :: 0 <= i < |starts| ==>
              r.value[i].value == if HasCallsAt(entries, i) then Some(CallsAt(entries, i)) else None
  {
    var result: Series := seq(|starts|, i requires 0 <= i < |starts| => Point(starts[i], None));
    for n := 0 to |entries|
      invariant Aligned(starts, result)
      invariant forall i :: 0 <= i < |starts| ==> result[i].value == BucketSum(entries[..n], i)
      invariant forall e :: e in entries[..n] ==> Aligned(starts, e.series)
    {
      var series := entries[n].series;
      assert entries[n] in entries;
      if |series| != |starts| {
        return None;
      }
      assert entries[..n + 1][..n] == entries[..n];
      assert entries[..n + 1] == entries[..n] + [entries[n]];
      for i := 0 to |series|
        invariant Aligned(starts, result)
        invariant forall m :: 0 <= m < i ==>
                    series[m].start == starts[m] && result[m].value == BucketSum(entries[..n + 1], m)
        invariant forall m :: i <= m < |starts| ==> result[m].value == BucketSum(entries[..n], m)
      {
        if series[i].start != result[i].start {
          return None;
        }
        if series[i].value.Some? {
          result := result[i := Point(result[i].start, Some(Amount(result[i].value) + series[i].value.value))];
        }
      }
    }
    assert entries[..|entries|] == entries;
    forall i: nat ensures BucketSum(entries, i) == if HasCallsAt(entries, i) then Some(CallsAt(entries, i)) else None {
      BucketIsSum(entries, i);
    }
    r := Some(result);
  }

  method TotalCalls(entries: seq<Entry>) returns (overall: seq<Score>)
    ensures overall == Scores(entries)
    ensures forall s :: s in overall <==>
              exists e :: e in entries && s.name == e.name && HasCalls(e.series) && s.total == Calls(e.series)
  {
    ScoresAreTotals(entries);
    overall := [];
    for n := 0 to |entries|
      invariant overall == Scores(entries[..n])
    {
      var series := entries[n].series;
      var sum: Option<real> := None;
      for i := 0 to |series|
        invariant sum == SeriesTotal(series[..i])
      {
        assert series[..i + 1][..i] == series[..i];
        if series[i].value.Some? {
          sum := Some(Amount(sum) + series[i].value.value);
        }
      }
      assert series[..|series|] == series;
      assert entries[..n + 1][..n] == entries[..n];
      if sum.Some? {
        overall := overall + [Score(entries[n].name, sum.value)];
      }
    }
    assert entries[..|entries|] == entries;
  }

  lemma ListedIsTop(entries: seq<Entry>, k: nat, e: Entry)
    requires DifferentFunctions(entries) && e in entries
    ensures Listed(entries, k, e) <==> e.name in Top(Scores(entries), k)
  {
    ScoresOf(entries);
    ScoresDiffer(entries);
    TopListsLowRanks(Scores(entries), k);
    TotalIsSum(e.series);
    RankIsCount(entries, e);
    if e.name in Top(Scores(entries), k) {
      TopHasScore(entries, k, e.name);
    }
  }

  /** Every listed name is that of a function with calls. */
  lemma TopHasScore(entries: seq<Entry>, k: nat, name: Name)
    requires DifferentFunctions(entries) && name in Top(Scores(entries), k)
    ensures exists e :: e in entries && e.name == name && SeriesTotal(e.series).Some?
  {
    ScoresOf(entries);
    ScoresDiffer(entries);
    SortedKeeps(Scores(entries));
    var j :| 0 <= j < |Top(Scores(entries), k)| && Top(Scores(entries), k)[j] == name;
    assert Sorted(Scores(entries))[j] in Scores(entries);
  }

  method Find(entries: seq<Entry>, name: Name) returns (j: nat)
    requires exists e :: e in entries && e.name == name
    ensures j < |entries| && entries[j].name == name
  {
    j := 0;
    while entries[j].name != name
      invariant j < |entries|
      invariant exists m :: j <= m < |entries| && entries[m].name == name
      decreases |entries| - j
    {
      j := j + 1;
    }
  }

  lemma RemoveOne(entries: seq<Entry>, j: nat)
    requires DifferentFunctions(entries) && j < |entries|
    ensures var rest := entries[..j] + entries[j + 1..];
            DifferentFunctions(rest) && forall e :: e in rest <==> e in entries && e.name != entries[j].name
  {
  }

  /** What has been moved out so far. */
  ghost predicate Moved(entries: seq<Entry>, top: seq<Name>, ret: seq<Row>, remaining: seq<Entry>) {
    && |ret| <= |top|
    && DifferentFunctions(remaining)
    && (forall e :: e in remaining <==> e in entries && e.name !in top[..|ret|])
    && (forall m :: 0 <= m < |ret| ==> ret[m].id == Udf(top[m]) && Entry(top[m], ret[m].series) in entries)
    && (forall i: nat :: RowsAmount(ret, i) + Amount(BucketSum(remaining, i)) == Amount(BucketSum(entries, i)))
  }

  lemma MoveOne(entries: seq<Entry>, top: seq<Name>, ret: seq<Row>, remaining: seq<Entry>, j: nat)
    requires Moved(entries, top, ret, remaining) && |ret| < |top|
    requires j < |remaining| && remaining[j].name == top[|ret|]
    ensures Moved(entries, top, ret + [Row(Udf(remaining[j].name), remaining[j].series)],
        remaining[..j] + remaining[j + 1..])
  {
    var ret' := ret + [Row(Udf(remaining[j].name), remaining[j].series)];
    var rest := remaining[..j] + remaining[j + 1..];
    RemoveOne(remaining, j);
    assert remaining[j] in entries;
    assert top[..|ret'|] == top[..|ret|] + [top[|ret|]];
    forall i: nat ensures RowsAmount(ret', i) + Amount(BucketSum(rest, i)) == Amount(BucketSum(entries, i)) {
      WithoutOne(remaining, j, i);
      assert ret'[..|ret|] == ret;
    }
  }

  /** Row `m` as the function it stands for. */
  function Shown(row: Row): Entry
    requires row.id.Udf?
  {
    Entry(row.id.name, row.series)
  }

  ghost predicate AllListed(entries: seq<Entry>, k: nat, rows: seq<Row>) {
    forall m :: 0 <= m < |rows| ==> rows[m].id.Udf? && Shown(rows[m]) in entries && Listed(entries, k, Shown(rows[m]))
  }

  ghost predicate ListsAll(entries: seq<Entry>, k: nat, rows: seq<Row>) {
    forall e :: e in entries && Listed(entries, k, e) ==> exists m :: 0 <= m < |rows| && rows[m].id == Udf(e.name)
  }

  ghost predicate BusiestFirst(rows: seq<Row>) {
    && (forall m :: 0 <= m < |rows| ==> rows[m].id.Udf?)
    && (forall a, b :: 0 <= a < b < |rows| ==> Busier(Shown(rows[a]), Shown(rows[b])))
  }

  /** The rows of exactly the listed functions, the busiest first. */
  ghost predicate ShowsListed(entries: seq<Entry>, k: nat, rows: seq<Row>) {
    AllListed(entries, k, rows) && ListsAll(entries, k, rows) && BusiestFirst(rows)
  }

  ghost predicate UnlistedAt(entries: seq<Entry>, k: nat, i: nat) {
    exists e :: e in entries && !Listed(entries, k, e) && ValueAt(e.series, i).Some?
  }

  /**
   First the listed functions, then, if there are others, a row for them, with a value exactly where
   one of them has one.
   */
  ghost predicate IsTopK(entries: seq<Entry>, k: nat, rows: seq<Row>, n: nat) {
    && n <= |rows| <= n + 1 && ShowsListed(entries, k, rows[..n])
    && (|rows| == n + 1 <==> exists e :: e in entries && !Listed(entries, k, e))
    && (|rows| == n + 1 ==>
          rows[n].id == Rest && forall i: nat :: ValueAt(rows[n].series, i).Some? <==> UnlistedAt(entries, k, i))
  }

  ghost predicate Reports(entries: seq<Entry>, k: nat, rows: seq<Row>) {
    exists n: nat :: IsTopK(entries, k, rows, n)
  }

  lemma TopOrder(entries: seq<Entry>, k: nat, a: nat, b: nat, ea: Entry, eb: Entry)
    requires DifferentFunctions(entries) && a < b < |Top(Scores(entries), k)| && ea in entries && eb in entries
    requires ea.name == Top(Scores(entries), k)[a] && eb.name == Top(Scores(entries), k)[b]
    ensures Busier(ea, eb)
  {
    var scores := Scores(entries);
    ScoresOf(entries);
    ScoresDiffer(entries);
    SortedKeeps(scores);
    SortedOrders(scores);
    ScoreOf(entries, Sorted(scores)[a], ea);
    ScoreOf(entries, Sorted(scores)[b], eb);
    assert Before(Sorted(scores)[a], Sorted(scores)[b]);
  }

  lemma ScoreOf(entries: seq<Entry>, s: Score, e: Entry)
    requires DifferentFunctions(entries) && s in Scores(entries) && e in entries && e.name == s.name
    ensures s.total == Calls(e.series)
  {
    ScoresOf(entries);
    var x :| x in entries && s.name == x.name && SeriesTotal(x.series) == Some(s.total);
    assert x == e;
    TotalIsSum(e.series);
  }

  lemma RowsAreListed(entries: seq<Entry>, k: nat, ret: seq<Row>, remaining: seq<Entry>)
    requires DifferentFunctions(entries)
    requires |ret| == |Top(Scores(entries), k)| && Moved(entries, Top(Scores(entries), k), ret, remaining)
    ensures AllListed(entries, k, ret)
  {
    var top := Top(Scores(entries), k);
    forall m | 0 <= m < |ret| ensures ret[m].id.Udf? && Shown(ret[m]) in entries && Listed(entries, k, Shown(ret[m])) {
      ListedIsTop(entries, k, Shown(ret[m]));
      assert top[m] in top;
    }
  }

  lemma ListedHaveRows(entries: seq<Entry>, k: nat, ret: seq<Row>, remaining: seq<Entry>)
    requires DifferentFunctions(entries)
    requires |ret| == |Top(Scores(entries), k)| && Moved(entries, Top(Scores(entries), k), ret, remaining)
    ensures ListsAll(entries, k, ret)
  {
    var top := Top(Scores(entries), k);
    forall e | e in entries && Listed(entries, k, e) ensures exists m :: 0 <= m < |ret| && ret[m].id == Udf(e.name) {
      ListedIsTop(entries, k, e);
      var m :| 0 <= m < |top| && top[m] == e.name;
      assert ret[m].id == Udf(e.name);
    }
  }

  lemma RowsInOrder(entries: seq<Entry>, k: nat, ret: seq<Row>, remaining: seq<Entry>)
    requires DifferentFunctions(entries)
    requires |ret| == |Top(Scores(entries), k)| && Moved(entries, Top(Scores(entries), k), ret, remaining)
    ensures BusiestFirst(ret)
  {
    forall a, b | 0 <= a < b < |ret| ensures Busier(Shown(ret[a]), Shown(ret[b])) {
      TopOrder(entries, k, a, b, Shown(ret[a]), Shown(ret[b]));
    }
  }

  /** What the rows of the listed functions show. */
  lemma ListedRows(entries: seq<Entry>, k: nat, ret: seq<Row>, remaining: seq<Entry>)
    requires DifferentFunctions(entries)
    requires |ret| == |Top(Scores(entries), k)| && Moved(entries, Top(Scores(entries), k), ret, remaining)
    ensures ShowsListed(entries, k, ret)
  {
    RowsAreListed(entries, k, ret, remaining);
    ListedHaveRows(entries, k, ret, remaining);
    RowsInOrder(entries, k, ret, remaining);
  }

  lemma RestAdds(starts: seq<nat>, entries: seq<Entry>, rest: Series, i: nat)
    requires forall e :: e in entries ==> Aligned(starts, e.series)
    requires Aligned(starts, rest) && forall m :: 0 <= m < |starts| ==> rest[m].value == BucketSum(entries, m)
    ensures ValueAt(rest, i) == BucketSum(entries, i)
  {
    if i >= |starts| {
      NothingBeyond(starts, entries, i);
    }
  }

  lemma {:induction false} NothingBeyond(starts: seq<nat>, entries: seq<Entry>, i: nat)
    requires i >= |starts| && forall e :: e in entries ==> Aligned(starts, e.series)
    ensures BucketSum(entries, i) == None
  {
    if entries != [] {
      var n := |entries| - 1;
      assert entries[n] in entries;
      NothingBeyond(starts, entries[..n], i);
    }
  }

  /** Takes the listed functions out of the map, in rank order. */
  method TakeListed(entries: seq<Entry>, top: seq<Name>) returns (ret: seq<Row>, remaining: seq<Entry>)
    requires DifferentFunctions(entries) && Distinct(top)
    requires forall n :: n in top ==> exists e :: e in entries && e.name == n
    ensures |ret| == |top| && Moved(entries, top, ret, remaining)
  {
    ret := [];
    remaining := entries;
    for m := 0 to |top|
      invariant |ret| == m && Moved(entries, top, ret, remaining)
    {
      assert top[m] in top && top[m] !in top[..m];
      var j := Find(remaining, top[m]);
      MoveOne(entries, top, ret, remaining, j);
      ret := ret + [Row(Udf(top[m]), remaining[j].series)];
      remaining := remaining[..j] + remaining[j + 1..];
    }
  }

  lemma RemainingUnlisted(entries: seq<Entry>, k: nat, ret: seq<Row>, remaining: seq<Entry>)
    requires DifferentFunctions(entries)
    requires |ret| == |Top(Scores(entries), k)| && Moved(entries, Top(Scores(entries), k), ret, remaining)
    ensures AreUnlisted(entries, k, remaining)
  {
    var top := Top(Scores(entries), k);
    assert top[..|top|] == top;
    forall e | e in entries ensures Listed(entries, k, e) <==> e !in remaining {
      ListedIsTop(entries, k, e);
    }
  }

  lemma TopIsKnown(entries: seq<Entry>, k: nat)
    requires DifferentFunctions(entries)
    ensures Distinct(Top(Scores(entries), k))
    ensures forall n :: n in Top(Scores(entries), k) ==> exists e :: e in entries && e.name == n
  {
    ScoresOf(entries);
    ScoresDiffer(entries);
    TopListsLowRanks(Scores(entries), k);
    forall n | n in Top(Scores(entries), k) ensures exists e :: e in entries && e.name == n {
      TopHasScore(entries, k, n);
    }
  }

  lemma RowsAdd(entries: seq<Entry>, starts: seq<nat>, ret: seq<Row>, remaining: seq<Entry>, rest: Series)
    requires forall i: nat :: RowsAmount(ret, i) + Amount(BucketSum(remaining, i)) == CallsAt(entries, i)
    requires forall e :: e in remaining ==> Aligned(starts, e.series)
    requires Aligned(starts, rest) && forall m :: 0 <= m < |starts| ==> rest[m].value == BucketSum(remaining, m)
    ensures forall i: nat :: RowsAmount(ret + [Row(Rest, rest)], i) == CallsAt(entries, i)
  {
    var rows := ret + [Row(Rest, rest)];
    forall i: nat ensures RowsAmount(rows, i) == CallsAt(entries, i) {
      RestAdds(starts, remaining, rest, i);
      assert rows[..|ret|] == ret;
    }
  }

  lemma AllCalls(entries: seq<Entry>)
    ensures forall i: nat :: Amount(BucketSum(entries, i)) == CallsAt(entries, i)
  {
    forall i: nat ensures Amount(BucketSum(entries, i)) == CallsAt(entries, i) {
      BucketIsSum(entries, i);
    }
  }

  /** The entries left over are the functions that are not listed. */
  ghost predicate AreUnlisted(entries: seq<Entry>, k: nat, remaining: seq<Entry>) {
    && (forall e :: e in entries ==> (Listed(entries, k, e) <==> e !in remaining))
    && (forall e :: e in remaining ==> e in entries)
  }

  lemma RestShows(entries: seq<Entry>, k: nat, remaining: seq<Entry>, i: nat)
    requires AreUnlisted(entries, k, remaining)
    ensures BucketSum(remaining, i).Some? <==> UnlistedAt(entries, k, i)
  {
    BucketIsSum(remaining, i);
    if HasCallsAt(remaining, i) {
      var e :| e in remaining && ValueAt(e.series, i).Some?;
      assert e in entries && !Listed(entries, k, e);
    }
  }

  lemma WithRest(entries: seq<Entry>, starts: seq<nat>, k: nat, ret: seq<Row>, remaining: seq<Entry>, rest: Series)
    requires AreUnlisted(entries, k, remaining) && remaining != [] && ShowsListed(entries, k, ret)
    requires forall e :: e in remaining ==> Aligned(starts, e.series)
    requires Aligned(starts, rest) && forall m :: 0 <= m < |starts| ==> rest[m].value == BucketSum(remaining, m)
    ensures Reports(entries, k, ret + [Row(Rest, rest)])
  {
    assert (ret + [Row(Rest, rest)])[..|ret|] == ret;
    assert remaining[0] in remaining;
    forall i: nat ensures ValueAt(rest, i).Some? <==> UnlistedAt(entries, k, i) {
      RestAdds(starts, remaining, rest, i);
      RestShows(entries, k, remaining, i);
    }
    assert IsTopK(entries, k, ret + [Row(Rest, rest)], |ret|);
  }

  lemma WithoutRest(entries: seq<Entry>, k: nat, ret: seq<Row>)
    requires AreUnlisted(entries, k, []) && ShowsListed(entries, k, ret)
    ensures Reports(entries, k, ret)
  {
    assert ret[..|ret|] == ret;
    assert IsTopK(entries, k, ret, |ret|);
  }

  /** Some function that is not listed has other buckets. */
  ghost predicate UnlistedMisaligned(starts: seq<nat>, entries: seq<Entry>, k: nat) {
    exists e :: e in entries && !Listed(entries, k, e) && !Aligned(starts, e.series)
  }

  lemma MisalignedRemain(starts: seq<nat>, entries: seq<Entry>, k: nat, remaining: seq<Entry>)
    requires AreUnlisted(entries, k, remaining)
    ensures UnlistedMisaligned(starts, entries, k) <==> exists e :: e in remaining && !Aligned(starts, e.series)
  {
    if exists e :: e in remaining && !Aligned(starts, e.series) {
      var e :| e in remaining && !Aligned(starts, e.series);
      assert e in entries && !Listed(entries, k, e);
    }
  }

  method TakeTop(entries: seq<Entry>, k: nat) returns (ret: seq<Row>, remaining: seq<Entry>)
    requires DifferentFunctions(entries)
    ensures ShowsListed(entries, k, ret) && AreUnlisted(entries, k, remaining)
    ensures forall i: nat :: RowsAmount(ret, i) + Amount(BucketSum(remaining, i)) == CallsAt(entries, i)
  {
    var overall := TotalCalls(entries);
    TopIsKnown(entries, k);
    ret, remaining := TakeListed(entries, Top(overall, k));
    RemainingUnlisted(entries, k, ret, remaining);
    ListedRows(entries, k, ret, remaining);
    AllCalls(entries);
  }

  /**
   No call is lost or counted twice: in every bucket the rows together have what the functions
   together have.  Fails exactly when a function that is not listed has other buckets.
   */
  method CallCountTopK(starts: seq<nat>, invocations: seq<Entry>, k: nat) returns (r: Option<seq<Row>>)
    requires DifferentFunctions(invocations)
    ensures r.None? <==> UnlistedMisaligned(starts, invocations, k)
    ensures r.Some? ==> Reports(invocations, k, r.value)
    ensures r.Some? ==> forall i: nat :: RowsAmount(r.value, i) == CallsAt(invocations, i)
  {
    var ret, remaining := TakeTop(invocations, k);
    MisalignedRemain(starts, invocations, k, remaining);
    if remaining == [] {
      WithoutRest(invocations, k, ret);
      return Some(ret);
    }
    var rest := SumTimeseries(starts, remaining);
    if rest.None? {
      return None;
    }
    RowsAdd(invocations, starts, ret, remaining, rest.value);
    WithRest(invocations, starts, k, ret, remaining, rest.value);
    r := Some(ret + [Row(Rest, rest.value)]);
  }
}
