/** Searching the best cut: the significance test over repeated measurements, and the planner
    whose straight-line model can only ever favour an outermost cut. */
module CutPlanVerdict {
  import opened Results

  /** One measured cut: the medians of its two halves and the totals of its rounds. */
  datatype Row = Row(cut: int, upstream: real, downstream: real, totals: seq<real>, passed: bool, rounds: nat)

  type Key = Row -> real

  function Total(): Key {
    (row: Row) => row.upstream + row.downstream
  }

  function Cut(): Key {
    (row: Row) => row.cut as real
  }

  function Highest(values: seq<real>): real
    requires values != []
    decreases |values|
  {
    if |values| == 1 then values[0]
    else
      var rest := Highest(values[..|values| - 1]);
      if values[|values| - 1] > rest then values[|values| - 1] else rest
  }

  function Lowest(values: seq<real>): real
    requires values != []
    decreases |values|
  {
    if |values| == 1 then values[0]
    else
      var rest := Lowest(values[..|values| - 1]);
      if values[|values| - 1] < rest then values[|values| - 1] else rest
  }

  /** Half the spread of the repeated totals; nothing for fewer than two. */
  function Half(row: Row): real {
    if |row.totals| < 2 then 0.0 else (Highest(row.totals) - Lowest(row.totals)) / 2.0
  }

  lemma {:induction false} LowestBelowHighest(values: seq<real>)
    requires values != []
    ensures Lowest(values) <= Highest(values)
    decreases |values|
  {
    if |values| > 1 {
      LowestBelowHighest(values[..|values| - 1]);
    }
  }

  // ---- the least of a list, and a stable sort ----

  /** The index of the first row with the least key. */
  function FirstLeast(rows: seq<Row>, key: Key): (k: nat)
    requires rows != []
    ensures k < |rows|
    ensures forall i :: 0 <= i < |rows| ==> key(rows[k]) <= key(rows[i])
    ensures forall i :: 0 <= i < k ==> key(rows[k]) < key(rows[i])
    decreases |rows|
  {
    if |rows| == 1 then 0
    else
      var before := FirstLeast(rows[..|rows| - 1], key);
      if key(rows[|rows| - 1]) < key(rows[before]) then |rows| - 1 else before
  }

  function Inserted(sorted: seq<Row>, row: Row, key: Key): seq<Row>
    decreases |sorted|
  {
    if sorted == [] then [row]
    else
      var last := sorted[|sorted| - 1];
      if key(last) <= key(row) then sorted + [row]
      else Inserted(sorted[..|sorted| - 1], row, key) + [last]
  }

  function Sorted(rows: seq<Row>, key: Key): seq<Row>
    decreases |rows|
  {
    if rows == [] then [] else Inserted(Sorted(rows[..|rows| - 1], key), rows[|rows| - 1], key)
  }

  predicate Ordered(rows: seq<Row>, key: Key) {
    forall i, j :: 0 <= i < j < |rows| ==> key(rows[i]) <= key(rows[j])
  }

  lemma {:induction false} InsertedPermutes(sorted: seq<Row>, row: Row, key: Key)
    ensures multiset(Inserted(sorted, row, key)) == multiset(sorted) + multiset{row}
    ensures |Inserted(sorted, row, key)| == |sorted| + 1
    decreases |sorted|
  {
    if sorted != [] {
      assert sorted == sorted[..|sorted| - 1] + [sorted[|sorted| - 1]];
      InsertedPermutes(sorted[..|sorted| - 1], row, key);
    }
  }

  lemma InsertedMembers(sorted: seq<Row>, row: Row, key: Key, r: Row)
    requires r in Inserted(sorted, row, key)
    ensures r == row || r in sorted
  {
    InsertedPermutes(sorted, row, key);
    assert r in multiset(Inserted(sorted, row, key));
  }

  lemma {:induction false} InsertedOrdered(sorted: seq<Row>, row: Row, key: Key)
    requires Ordered(sorted, key)
    ensures Ordered(Inserted(sorted, row, key), key)
    decreases |sorted|
  {
    if sorted != [] && key(row) < key(sorted[|sorted| - 1]) {
      var init, last := sorted[..|sorted| - 1], sorted[|sorted| - 1];
      InsertedOrdered(init, row, key);
      var inserted := Inserted(init, row, key);
      forall i | 0 <= i < |inserted|
        ensures key(inserted[i]) <= key(last)
      {
        InsertedMembers(init, row, key, inserted[i]);
      }
    }
  }

  lemma {:induction false} InsertedFirst(sorted: seq<Row>, row: Row, key: Key)
    requires Ordered(sorted, key)
    ensures Inserted(sorted, row, key) != []
    ensures Inserted(sorted, row, key)[0] == if sorted == [] || key(row) < key(sorted[0]) then row else sorted[0]
    decreases |sorted|
  {
    if sorted != [] && key(row) < key(sorted[|sorted| - 1]) {
      InsertedFirst(sorted[..|sorted| - 1], row, key);
    }
  }

  /** The stable sort orders, permutes, and puts the first least row in front. */
  lemma {:induction false} SortedIs(rows: seq<Row>, key: Key)
    ensures multiset(Sorted(rows, key)) == multiset(rows) && |Sorted(rows, key)| == |rows|
    ensures Ordered(Sorted(rows, key), key)
    ensures rows != [] ==> Sorted(rows, key)[0] == rows[FirstLeast(rows, key)]
    decreases |rows|
  {
    if rows != [] {
      var init, last := rows[..|rows| - 1], rows[|rows| - 1];
      assert rows == init + [last];
      SortedIs(init, key);
      InsertedPermutes(Sorted(init, key), last, key);
      InsertedOrdered(Sorted(init, key), last, key);
      InsertedFirst(Sorted(init, key), last, key);
    }
  }

  predicate DistinctCuts(rows: seq<Row>) {
    forall i, j :: 0 <= i < j < |rows| ==> rows[i].cut != rows[j].cut
  }

  predicate Ascending(rows: seq<Row>) {
    forall i, j :: 0 <= i < j < |rows| ==> rows[i].cut < rows[j].cut
  }

  lemma {:induction false} InsertedAscends(sorted: seq<Row>, row: Row)
    requires Ascending(sorted) && forall i :: 0 <= i < |sorted| ==> sorted[i].cut != row.cut
    ensures Ascending(Inserted(sorted, row, Cut()))
    decreases |sorted|
  {
    if sorted != [] && row.cut < sorted[|sorted| - 1].cut {
      var init, last := sorted[..|sorted| - 1], sorted[|sorted| - 1];
      InsertedAscends(init, row);
      var inserted := Inserted(init, row, Cut());
      forall i | 0 <= i < |inserted|
        ensures inserted[i].cut < last.cut
      {
        InsertedMembers(init, row, Cut(), inserted[i]);
      }
    }
  }

  lemma {:induction false} SortedAscends(rows: seq<Row>)
    requires DistinctCuts(rows)
    ensures Ascending(Sorted(rows, Cut()))
    decreases |rows|
  {
    if rows != [] {
      var init, last := rows[..|rows| - 1], rows[|rows| - 1];
      SortedAscends(init);
      SortedIs(init, Cut());
      var sorted := Sorted(init, Cut());
      forall i | 0 <= i < |sorted|
        ensures sorted[i].cut != last.cut
      {
        assert sorted[i] in multiset(init);
      }
      InsertedAscends(sorted, last);
    }
  }

  // ---- the significance test ----

  /** Neither the first nor the last of a table in order of cuts. */
  function Interior(table: seq<Row>): seq<Row> {
    if |table| < 2 then [] else table[1..|table| - 1]
  }

  /** The best interior cut, even at its highest, beats both outermost cuts at their lowest. */
  predicate Significant(table: seq<Row>) {
    && Interior(table) != []
    && var best := Interior(table)[FirstLeast(Interior(table), Total())];
       Clear(best, table[0]) && Clear(best, table[|table| - 1])
  }

  predicate Clear(best: Row, end: Row) {
    Total()(best) + Half(best) < Total()(end) - Half(end)
  }

  /** What the test asks of its name: some interior cut is clear of both outermost ones. */
  predicate SomeInteriorClear(table: seq<Row>) {
    exists i :: 0 < i < |table| - 1 && Clear(table[i], table[0]) && Clear(table[i], table[|table| - 1])
  }

  /** A row's total at its highest. */
  function Upper(row: Row): real {
    Total()(row) + Half(row)
  }

  function Table(first: Row, interior: seq<Row>, last: Row): seq<Row> {
    [first] + interior + [last]
  }

  /** Between whatever outermost cuts, the test says whether some of these interior cuts is clear. */
  ghost predicate NeverMisses(interior: seq<Row>) {
    forall first, last :: Ascending(Table(first, interior, last)) ==>
      (Significant(Table(first, interior, last)) <==> SomeInteriorClear(Table(first, interior, last)))
  }

  /** It asks only the interior cut with the least median; no other is as low at its highest. */
  predicate LeastIsLowest(interior: seq<Row>) {
    interior != [] ==>
      forall i :: 0 <= i < |interior| ==> Upper(interior[FirstLeast(interior, Total())]) <= Upper(interior[i])
  }

  lemma TableIs(first: Row, interior: seq<Row>, last: Row)
    ensures var table := Table(first, interior, last);
            && Interior(table) == interior && table[0] == first && table[|table| - 1] == last
            && (SomeInteriorClear(table) <==>
                exists i :: 0 <= i < |interior| && Clear(interior[i], first) && Clear(interior[i], last))
  {
    var table := Table(first, interior, last);
    assert forall i :: 0 <= i < |interior| ==> table[i + 1] == interior[i];
    if SomeInteriorClear(table) {
      var i :| 0 < i < |table| - 1 && Clear(table[i], first) && Clear(table[i], last);
      assert interior[i - 1] == table[i];
    }
  }

  /** A cut it says is clear is clear, whatever the table. */
  lemma SignificantIsClear(table: seq<Row>)
    ensures Significant(table) ==> SomeInteriorClear(table)
  {
    if Significant(table) {
      var k := FirstLeast(Interior(table), Total());
      assert Interior(table)[k] == table[k + 1];
    }
  }

  /** An outermost row, measured as often as this one, and always at the same total. */
  function Outermost(like: Row, cut: int, total: real): Row {
    Row(cut, total, 0.0, seq(|like.totals|, _ => total), true, like.rounds)
  }

  lemma {:induction false} LevelTotals(totals: seq<real>, total: real)
    requires totals != [] && forall i :: 0 <= i < |totals| ==> totals[i] == total
    ensures Highest(totals) == total == Lowest(totals)
    decreases |totals|
  {
    if |totals| > 1 {
      LevelTotals(totals[..|totals| - 1], total);
    }
  }

  lemma OutermostIs(row: Row, like: Row, cut: int, total: real)
    ensures Clear(row, Outermost(like, cut, total)) <==> Upper(row) < total
  {
    if |like.totals| > 0 {
      LevelTotals(Outermost(like, cut, total).totals, total);
    }
  }

  lemma OutermostAscend(interior: seq<Row>, total: real)
    requires Ascending(interior) && interior != []
    ensures Ascending(Table(Outermost(interior[0], interior[0].cut - 1, total), interior,
                            Outermost(interior[0], interior[|interior| - 1].cut + 1, total)))
  {
  }

  lemma MissesBetween(interior: seq<Row>, i: nat)
    requires Ascending(interior) && i < |interior|
    requires Upper(interior[i]) < Upper(interior[FirstLeast(interior, Total())])
    ensures !NeverMisses(interior)
  {
    var best := interior[FirstLeast(interior, Total())];
    var low, high, total := interior[0].cut - 1, interior[|interior| - 1].cut + 1, Upper(best);
    var first, last := Outermost(interior[0], low, total), Outermost(interior[0], high, total);
    OutermostAscend(interior, total);
    TableIs(first, interior, last);
    OutermostIs(interior[i], interior[0], low, total);
    OutermostIs(interior[i], interior[0], high, total);
    OutermostIs(best, interior[0], low, total);
    assert !Significant(Table(first, interior, last));
  }

  /** Exactly when the test never misses a clear interior cut: when the one with the least
      median is also the lowest at its highest. */
  lemma NeverMissesIff(interior: seq<Row>)
    requires Ascending(interior)
    ensures NeverMisses(interior) <==> LeastIsLowest(interior)
  {
    if LeastIsLowest(interior) {
      forall first, last | Ascending(Table(first, interior, last))
        ensures Significant(Table(first, interior, last)) <==> SomeInteriorClear(Table(first, interior, last))
      {
        TableIs(first, interior, last);
        SignificantIsClear(Table(first, interior, last));
      }
    } else {
      var i :| 0 <= i < |interior| && Upper(interior[i]) < Upper(interior[FirstLeast(interior, Total())]);
      MissesBetween(interior, i);
    }
  }

  /** In particular, equal spreads hide nothing. */
  lemma EqualSpreads(interior: seq<Row>)
    requires Ascending(interior)
    requires forall i, j :: 0 <= i < j < |interior| ==> Half(interior[i]) == Half(interior[j])
    ensures NeverMisses(interior)
  {
    NeverMissesIff(interior);
  }

  /** A table with a clear interior cut that it misses, behind a wide spread at the least median. */
  lemma TestCanMiss()
    ensures var table := [Row(4, 5.0, 5.0, [10.0, 10.0, 10.0], true, 3), Row(8, 2.0, 2.0, [1.0, 4.0, 21.0], true, 3),
                          Row(12, 3.0, 2.0, [5.0, 5.0, 5.0], true, 3), Row(16, 5.0, 5.0, [10.0, 10.0, 10.0], true, 3)];
            Ascending(table) && SomeInteriorClear(table) && !Significant(table)
  {
    var wide, narrow := Row(8, 2.0, 2.0, [1.0, 4.0, 21.0], true, 3), Row(12, 3.0, 2.0, [5.0, 5.0, 5.0], true, 3);
    var first, last := Row(4, 5.0, 5.0, [10.0, 10.0, 10.0], true, 3), Row(16, 5.0, 5.0, [10.0, 10.0, 10.0], true, 3);
    var table := [first, wide, narrow, last];
    assert Interior(table) == [wide, narrow];
    assert [wide, narrow][..1] == [wide];
    LevelTotals(first.totals, 10.0);
    LevelTotals(narrow.totals, 5.0);
    assert Clear(table[2], table[0]) && Clear(table[2], table[3]);
    assert wide.totals[..2] == [1.0, 4.0] && [1.0, 4.0][..1] == [1.0];
    assert Half(wide) == 10.0;
  }

  // ---- the planner ----

  /** A fitted half: a fixed cost and a cost for each layer. */
  datatype Segment = Segment(fixed: real, perLayer: real)

  function Predicted(up: Segment, down: Segment, layers: int): Key {
    (row: Row) => up.fixed + up.perLayer * row.cut as real + down.fixed + down.perLayer * (layers - row.cut) as real
  }

  datatype Verdict = Verdict(passed: bool, predictedInRange: bool, best: int, optimum: int)

  /** The rows of the report, checked one by one: no cut twice, every one correct and repeated enough. */
  predicate Usable(rows: seq<Row>, minRounds: nat) {
    DistinctCuts(rows) && forall i :: 0 <= i < |rows| ==> rows[i].passed && rows[i].rounds >= minRounds
  }

  method ReadRows(rows: seq<Row>, minRounds: nat) returns (samples: Result<seq<Row>>)
    ensures samples.Ok? <==> Usable(rows, minRounds)
    ensures samples.Ok? ==> samples.value == rows
  {
    var read: seq<Row>, seen: set<int> := [], {};
    for i := 0 to |rows|
      invariant read == rows[..i] && Usable(rows[..i], minRounds)
      invariant forall cut :: cut in seen <==> exists j :: 0 <= j < i && rows[j].cut == cut
    {
      var row := rows[i];
      assert rows[..i + 1] == rows[..i] + [row];
      if row.cut in seen {
        return Err;
      }
      seen := seen + {row.cut};
      if !row.passed || row.rounds < minRounds {
        assert !Usable(rows, minRounds);
        return Err;
      }
      read := read + [row];
    }
    assert rows[..|rows|] == rows;
    return Ok(read);
  }

  /** The planner's own check: does the fitted model favour the cut that measured best? The
      fitted halves and the solver's answer are whatever they are. */
  method Judge(rows: seq<Row>, minRounds: nat, up: Segment, down: Segment, layers: int, admitted: bool, cuts: seq<int>)
    returns (verdict: Result<Verdict>)
    requires |rows| >= 2
    ensures verdict.Ok? <==> Usable(rows, minRounds)
    ensures verdict.Ok? ==>
              var table := Sorted(rows, Cut());
              |table| == |rows| && verdict.value == VerdictOf(table, up, down, layers, admitted, cuts)
  {
    var samples :- ReadRows(rows, minRounds);
    SortedIs(rows, Cut());
    var table := Sorted(samples, Cut());
    var optimum := table[FirstLeast(table, Total())].cut;
    SortedIs(table, Predicted(up, down, layers));
    var scored := Sorted(table, Predicted(up, down, layers));
    var best := scored[0].cut;
    var inRange := cuts != [] && exists i :: 0 <= i < |table| && table[i].cut == cuts[0];
    return Ok(Verdict(admitted && inRange && best == optimum, inRange, best, optimum));
  }

  function VerdictOf(table: seq<Row>, up: Segment, down: Segment, layers: int, admitted: bool, cuts: seq<int>): Verdict
    requires table != []
  {
    var best := table[FirstLeast(table, Predicted(up, down, layers))].cut;
    var optimum := table[FirstLeast(table, Total())].cut;
    var inRange := cuts != [] && exists i :: 0 <= i < |table| && table[i].cut == cuts[0];
    Verdict(admitted && inRange && best == optimum, inRange, best, optimum)
  }

  /** Moving the cut changes the prediction in proportion to how the per-layer costs differ. */
  lemma PredictionIsLinear(up: Segment, down: Segment, layers: int, a: Row, b: Row)
    ensures Predicted(up, down, layers)(b) - Predicted(up, down, layers)(a)
            == (up.perLayer - down.perLayer) * (b.cut - a.cut) as real
  {
  }

  lemma SignOf(d: real, n: real)
    requires n > 0.0
    ensures d > 0.0 ==> d * n > 0.0
    ensures d == 0.0 ==> d * n == 0.0
    ensures d < 0.0 ==> d * n < 0.0
  {
  }

  lemma FartherCut(up: Segment, down: Segment, layers: int, a: Row, b: Row)
    requires a.cut < b.cut
    ensures var key := Predicted(up, down, layers);
            (key(b) < key(a) <==> up.perLayer < down.perLayer) && (key(b) == key(a) <==> up.perLayer == down.perLayer)
  {
    PredictionIsLinear(up, down, layers, a, b);
    SignOf(up.perLayer - down.perLayer, (b.cut - a.cut) as real);
  }

  lemma LeastOfFalling(table: seq<Row>, key: Key)
    requires table != [] && forall i, j :: 0 <= i < j < |table| ==> key(table[j]) < key(table[i])
    ensures FirstLeast(table, key) == |table| - 1
  {
    assert key(table[FirstLeast(table, key)]) <= key(table[|table| - 1]);
  }

  lemma LeastOfRising(table: seq<Row>, key: Key)
    requires table != [] && forall i, j :: 0 <= i < j < |table| ==> key(table[i]) <= key(table[j])
    ensures FirstLeast(table, key) == 0
  {
    assert key(table[FirstLeast(table, key)]) <= key(table[0]);
  }

  /** The model's favourite among the measured cuts is always an outermost one: the largest when
      a layer is cheaper upstream, the smallest otherwise. */
  lemma FavouriteIsOutermost(table: seq<Row>, up: Segment, down: Segment, layers: int)
    requires table != [] && Ascending(table)
    ensures FirstLeast(table, Predicted(up, down, layers)) == if up.perLayer < down.perLayer then |table| - 1 else 0
  {
    var key := Predicted(up, down, layers);
    forall i, j | 0 <= i < j < |table|
      ensures key(table[j]) < key(table[i]) <==> up.perLayer < down.perLayer
    {
      FartherCut(up, down, layers, table[i], table[j]);
    }
    if up.perLayer < down.perLayer {
      LeastOfFalling(table, key);
    } else {
      LeastOfRising(table, key);
    }
  }

  /** The verdict can pass exactly when the solver's cut was admitted and measured, and the
      favoured outermost cut measured best. */
  lemma PassesIff(table: seq<Row>, up: Segment, down: Segment, layers: int, admitted: bool, cuts: seq<int>)
    requires table != [] && Ascending(table)
    ensures var v := VerdictOf(table, up, down, layers, admitted, cuts);
            v.passed <==>
            && admitted && cuts != [] && (exists i :: 0 <= i < |table| && table[i].cut == cuts[0])
            && FirstLeast(table, Total()) == if up.perLayer < down.perLayer then |table| - 1 else 0
  {
    FavouriteIsOutermost(table, up, down, layers);
  }

  lemma HalfNonNegative(row: Row)
    ensures Half(row) >= 0.0
  {
    if |row.totals| >= 2 {
      LowestBelowHighest(row.totals);
    }
  }

  /** Whatever was fitted and whatever the solver answers: when the measurements show a
      significant interior optimum, the planner's verdict fails. */
  lemma SignificantFails(rows: seq<Row>, up: Segment, down: Segment, layers: int, admitted: bool, cuts: seq<int>)
    requires DistinctCuts(rows) && |rows| >= 2
    requires Significant(Sorted(rows, Cut()))
    ensures !VerdictOf(Sorted(rows, Cut()), up, down, layers, admitted, cuts).passed
  {
    var table := Sorted(rows, Cut());
    SortedAscends(rows);
    PassesIff(table, up, down, layers, admitted, cuts);
    var k := FirstLeast(Interior(table), Total());
    assert Interior(table)[k] == table[k + 1];
    HalfNonNegative(table[0]);
    HalfNonNegative(table[|table| - 1]);
    HalfNonNegative(table[k + 1]);
    assert Total()(table[k + 1]) < Total()(table[0]) && Total()(table[k + 1]) < Total()(table[|table| - 1]);
  }
}
