/**
 Stock balance summary: the bounded selection made by the summary query, the merge of
 per-chunk selections, and the dashboard built from either.
 Amounts are integers in ten-thousandths, so that sums of at most four decimals are exact.
 */
module StockChunks {
  import opened Options
  import opened Ranking
  import opened ChunkWire
  import opened Manifest
  import Text

  datatype StockRow = StockRow(code: string, name: string, balance: int, amountIn: int, amountOut: int)

  datatype Metrics = Metrics(itemCount: int, balance: int, amountIn: int, amountOut: int, rowCount: int) {
    function Plus(other: Metrics): Metrics {
      Metrics(itemCount + other.itemCount, balance + other.balance, amountIn + other.amountIn,
              amountOut + other.amountOut, rowCount + other.rowCount)
    }
  }

  type Wire = ChunkWire.Wire<StockRow, Metrics>

  predicate BalanceBefore(a: StockRow, b: StockRow) {
    Abs(a.balance) > Abs(b.balance) || (Abs(a.balance) == Abs(b.balance) && Text.Less(a.code, b.code))
  }

  function Movement(r: StockRow): nat {
    Abs(r.amountIn) + Abs(r.amountOut)
  }

  predicate MovementBefore(a: StockRow, b: StockRow) {
    Movement(a) > Movement(b) || (Movement(a) == Movement(b) && Text.Less(a.code, b.code))
  }

  predicate CodeBefore(a: StockRow, b: StockRow) {
    Text.Less(a.code, b.code)
  }

  // ---- The merge ----

  function TotalMetrics(chunks: seq<Wire>): Metrics {
    if chunks == [] then Metrics(0, 0, 0, 0, 0)
    else TotalMetrics(chunks[..|chunks| - 1]).Plus(MetricsIn(chunks[|chunks| - 1]).GetOr(Metrics(0, 0, 0, 0, 0)))
  }

  /** Rows by code; a later row with the same code replaces an earlier one. */
  function ByCode(rows: seq<StockRow>): map<string, StockRow> {
    if rows == [] then map[] else ByCode(rows[..|rows| - 1])[rows[|rows| - 1].code := rows[|rows| - 1]]
  }

  function Winners(rows: seq<StockRow>): seq<StockRow> {
    var byBalance := Sort(rows, BalanceBefore);
    FirstTen(byBalance) + FirstTen(Sort(byBalance, MovementBefore))
  }

  /** What the merge produces for any chunks: summed metrics and the winners listed by code. */
  ghost predicate IsMerge(chunks: seq<Wire>, merged: Wire) {
    && merged == Attach(RealRows(merged), TotalMetrics(chunks))
    && Ordered(RealRows(merged), CodeBefore)
    && Elements(RealRows(merged)) == ByCode(Winners(AllRows(chunks))).Values
  }

  lemma {:induction false} ByCodeKeys(rows: seq<StockRow>)
    ensures forall c | c in ByCode(rows) :: ByCode(rows)[c].code == c
  {
    if rows != [] {
      ByCodeKeys(rows[..|rows| - 1]);
    }
  }

  lemma TotalOnDistinctCodes(s: set<StockRow>)
    requires forall a, b | a in s && b in s && a.code == b.code :: a == b
    ensures TotalOn(s, BalanceBefore) && TotalOn(s, MovementBefore) && TotalOn(s, CodeBefore)
  {
    Text.LessIsStrictTotal();
  }

  method MergeStockSummary(chunks: seq<Wire>) returns (merged: Option<Wire>)
    ensures merged.None? <==> exists i :: 0 <= i < |chunks| && MetricsIn(chunks[i]).None?
    ensures merged.Some? ==> IsMerge(chunks, merged.value)
  {
    var totals := Metrics(0, 0, 0, 0, 0);
    var rows: seq<StockRow> := [];
    for i := 0 to |chunks|
      invariant totals == TotalMetrics(chunks[..i]) && rows == AllRows(chunks[..i])
      invariant forall j | 0 <= j < i :: MetricsIn(chunks[j]).Some?
    {
      if MetricsIn(chunks[i]).None? {
        return None;
      }
      assert chunks[..i + 1][..i] == chunks[..i];
      totals := totals.Plus(MetricsIn(chunks[i]).value);
      rows := rows + RealRows(chunks[i]);
    }
    assert chunks[..|chunks|] == chunks;
    var selected := SelectByCode(rows);
    var output: seq<StockRow> := [];
    var left := selected.Keys;
    ByCodeKeys(Winners(rows));
    while left != {}
      invariant left <= selected.Keys
      invariant Elements(output) == set c | c in selected.Keys - left :: selected[c]
      invariant Distinct(output)
    {
      var c :| c in left;
      assert selected[c] !in Elements(output);
      ghost var before := output;
      output := output + [selected[c]];
      assert Elements(output) == Elements(before) + {selected[c]};
      left := left - {c};
    }
    assert Elements(output) == selected.Values;
    TotalOnDistinctCodes(Elements(output));
    SortCorrect(output, CodeBefore);
    var listed := Sort(output, CodeBefore);
    AttachReadsBack(listed, totals);
    merged := Some(Attach(listed, totals));
  }

  /** The two passes over the ranked rows that fill the map of selected rows. */
  method SelectByCode(rows: seq<StockRow>) returns (selected: map<string, StockRow>)
    ensures selected == ByCode(Winners(rows))
  {
    var ranked := Sort(rows, BalanceBefore);
    selected := PutAll(map[], [], FirstTen(ranked));
    assert [] + FirstTen(ranked) == FirstTen(ranked);
    selected := PutAll(selected, FirstTen(ranked), FirstTen(Sort(ranked, MovementBefore)));
  }

  method PutAll(selected: map<string, StockRow>, ghost done: seq<StockRow>, rows: seq<StockRow>)
    returns (r: map<string, StockRow>)
    requires selected == ByCode(done)
    ensures r == ByCode(done + rows)
  {
    r := selected;
    assert done + rows[..0] == done;
    for index := 0 to |rows|
      invariant r == ByCode(done + rows[..index])
    {
      ByCodeNext(done + rows[..index], rows[index]);
      assert done + rows[..index + 1] == done + rows[..index] + [rows[index]];
      r := r[rows[index].code := rows[index]];
    }
    assert rows[..|rows|] == rows;
  }

  lemma ByCodeNext(rows: seq<StockRow>, r: StockRow)
    ensures ByCode(rows + [r]) == ByCode(rows)[r.code := r]
  {
    assert (rows + [r])[..|rows|] == rows;
  }

  // ---- The direct selection ----

  function MetricsOf(items: seq<StockRow>): Metrics {
    if items == [] then Metrics(0, 0, 0, 0, 0)
    else One(items[0]).Plus(MetricsOf(items[1..]))
  }

  function One(item: StockRow): Metrics {
    Metrics(1, item.balance, item.amountIn, item.amountOut, 1)
  }

  ghost predicate DistinctCodes(items: seq<StockRow>) {
    forall i, j | 0 <= i < j < |items| :: items[i].code != items[j].code
  }

  /** Rows whose row_number by balance or by movement is at most ten. */
  ghost function SelectedRows(items: set<StockRow>): set<StockRow> {
    TopK(items, BalanceBefore, 10) + TopK(items, MovementBefore, 10)
  }

  /** A result of the summary query over items; the row order is left open. */
  ghost predicate IsSummary(items: seq<StockRow>, wire: Wire) {
    && wire == Attach(RealRows(wire), MetricsOf(items))
    && Distinct(RealRows(wire))
    && Elements(RealRows(wire)) == SelectedRows(Elements(items))
  }

  lemma DistinctCodesAreTotal(items: seq<StockRow>)
    requires DistinctCodes(items)
    ensures TotalOn(Elements(items), BalanceBefore) && TotalOn(Elements(items), MovementBefore)
    ensures TotalOn(Elements(items), CodeBefore)
    ensures forall a, b | a in items && b in items && a.code == b.code :: a == b
  {
    TotalOnDistinctCodes(Elements(items));
  }

  /** The query's limit of twenty rows never cuts a selected row. */
  lemma SelectionFitsLimit(items: seq<StockRow>)
    requires DistinctCodes(items)
    ensures |SelectedRows(Elements(items))| <= 20
  {
    DistinctCodesAreTotal(items);
    TopKSize(Elements(items), BalanceBefore, 10);
    TopKSize(Elements(items), MovementBefore, 10);
    var a, b := TopK(Elements(items), BalanceBefore, 10), TopK(Elements(items), MovementBefore, 10);
    assert a + b == a + (b - a);
    SubsetSize(b - a, b);
  }

  // ---- Partitioning by unit key ----

  /** The rows of the chunk that owns the given unit keys. */
  function Owned(items: seq<StockRow>, keys: set<string>): seq<StockRow> {
    if items == [] then []
    else (if items[0].code in keys then [items[0]] else []) + Owned(items[1..], keys)
  }

  lemma {:induction false} OwnedElements(items: seq<StockRow>, keys: set<string>)
    ensures forall r :: r in Owned(items, keys) <==> r in items && r.code in keys
  {
    if items != [] {
      OwnedElements(items[1..], keys);
      assert items == [items[0]] + items[1..];
    }
  }

  function OwnedMetrics(items: seq<StockRow>, keys: set<string>): Metrics {
    if items == [] then Metrics(0, 0, 0, 0, 0)
    else if items[0].code in keys then One(items[0]).Plus(OwnedMetrics(items[1..], keys))
    else OwnedMetrics(items[1..], keys)
  }

  lemma {:induction false} MetricsOfOwned(items: seq<StockRow>, keys: set<string>)
    ensures MetricsOf(Owned(items, keys)) == OwnedMetrics(items, keys)
  {
    if items != [] {
      var rest := Owned(items[1..], keys);
      MetricsOfOwned(items[1..], keys);
      if items[0].code in keys {
        assert Owned(items, keys) == [items[0]] + rest && ([items[0]] + rest)[1..] == rest;
      } else {
        assert Owned(items, keys) == rest;
      }
    }
  }

  lemma {:induction false} OwnedMetricsOfUnion(items: seq<StockRow>, a: set<string>, b: set<string>, c: set<string>)
    requires forall k :: k in c <==> k in a || k in b
    requires forall k | k in a :: k !in b
    ensures OwnedMetrics(items, c) == OwnedMetrics(items, a).Plus(OwnedMetrics(items, b))
  {
    if items != [] {
      OwnedMetricsOfUnion(items[1..], a, b, c);
      var x, y := OwnedMetrics(items[1..], a), OwnedMetrics(items[1..], b);
      if items[0].code in a {
        assert OwnedMetrics(items, b) == y;
      } else if items[0].code in b {
        assert OwnedMetrics(items, a) == x;
      }
    }
  }

  lemma {:induction false} OwnedNone(items: seq<StockRow>)
    ensures Owned(items, {}) == []
  {
    if items != [] {
      OwnedNone(items[1..]);
    }
  }

  lemma {:induction false} OwnedAll(items: seq<StockRow>, keys: set<string>)
    requires forall r | r in items :: r.code in keys
    ensures Owned(items, keys) == items
  {
    if items != [] {
      OwnedAll(items[1..], keys);
    }
  }

  /** Every chunk is the summary of the rows it owns. */
  ghost predicate ChunkSummaries(items: seq<StockRow>, parts: seq<set<string>>, chunks: seq<Wire>) {
    && |chunks| == |parts|
    && forall i | 0 <= i < |parts| :: IsSummary(Owned(items, parts[i]), chunks[i])
  }

  lemma IsSummaryReads(items: seq<StockRow>, wire: Wire)
    requires IsSummary(items, wire)
    ensures MetricsIn(wire) == Some(MetricsOf(items))
  {
    AttachReadsBack(RealRows(wire), MetricsOf(items));
  }

  lemma {:induction false} ChunkMetricsAddUp(items: seq<StockRow>, parts: seq<set<string>>, chunks: seq<Wire>)
    requires Disjoint(parts) && ChunkSummaries(items, parts, chunks)
    ensures TotalMetrics(chunks) == MetricsOf(Owned(items, Union(parts)))
    decreases |parts|
  {
    if parts == [] {
      OwnedNone(items);
    } else {
      var n := |parts| - 1;
      ChunkMetricsAddUp(items, parts[..n], chunks[..n]);
      UnionFront(parts);
      OwnedMetricsOfUnion(items, Union(parts[..n]), parts[n], Union(parts));
      MetricsOfOwned(items, Union(parts[..n]));
      MetricsOfOwned(items, parts[n]);
      MetricsOfOwned(items, Union(parts));
      IsSummaryReads(Owned(items, parts[n]), chunks[n]);
    }
  }

  /** The rows handed to the merge: exactly the chunk winners, each once. */
  lemma {:induction false} ChunkRows(items: seq<StockRow>, parts: seq<set<string>>, chunks: seq<Wire>)
    requires DistinctCodes(items) && Disjoint(parts) && ChunkSummaries(items, parts, chunks)
    ensures Distinct(AllRows(chunks))
    ensures forall r | r in AllRows(chunks) :: r in items && r.code in Union(parts)
    decreases |parts|
  {
    if parts != [] {
      var n := |parts| - 1;
      ChunkRows(items, parts[..n], chunks[..n]);
      OwnedElements(items, parts[n]);
      var front, last := AllRows(chunks[..n]), RealRows(chunks[n]);
      assert forall r | r in last :: r in Elements(last);
      forall r | r in front
        ensures r !in last
      {
        UnionMember(parts[..n], r.code);
      }
      DistinctConcat(front, last);
    }
  }

  lemma KeptWinners(items: seq<StockRow>, parts: seq<set<string>>, chunks: seq<Wire>,
                    before: (StockRow, StockRow) -> bool)
    requires DistinctCodes(items) && Disjoint(parts) && ChunkSummaries(items, parts, chunks)
    requires forall r | r in items :: r.code in Union(parts)
    requires before == BalanceBefore || before == MovementBefore
    ensures TopK(Elements(AllRows(chunks)), before, 10) == TopK(Elements(items), before, 10)
  {
    var s, kept := Elements(items), Elements(AllRows(chunks));
    ChunkRows(items, parts, chunks);
    DistinctCodesAreTotal(items);
    forall x | x in TopK(s, before, 10)
      ensures x in kept
    {
      UnionMember(parts, x.code);
      var i :| 0 <= i < |parts| && x.code in parts[i];
      OwnedElements(items, parts[i]);
      var part := Elements(Owned(items, parts[i]));
      TopKOfPart(s, part, before, 10);
      assert x in TopK(part, before, 10);
      assert x in Elements(RealRows(chunks[i]));
      RowsArrive(chunks, i, x);
    }
    TopKOfKept(s, kept, before, 10);
  }

  lemma {:induction false} ByCodeValues(rows: seq<StockRow>)
    requires forall a, b | a in rows && b in rows && a.code == b.code :: a == b
    ensures ByCode(rows).Values == Elements(rows)
    ensures ByCode(rows).Keys == set r | r in rows :: r.code
  {
    if rows != [] {
      var front, last := rows[..|rows| - 1], rows[|rows| - 1];
      assert rows == front + [last];
      ByCodeValues(front);
      ByCodeKeys(front);
      ByCodeKeys(rows);
      assert ByCode(rows) == ByCode(front)[last.code := last];
      forall v | v in ByCode(rows).Values
        ensures v in rows
      {
        var c :| c in ByCode(rows) && ByCode(rows)[c] == v;
        if c != last.code {
          assert v in ByCode(front).Values;
          assert v in Elements(front);
        }
      }
      forall r | r in rows
        ensures r in ByCode(rows).Values
      {
        if r == last {
          assert ByCode(rows)[last.code] == last;
        } else {
          assert r in Elements(front);
          var c :| c in ByCode(front) && ByCode(front)[c] == r;
          assert ByCode(rows)[c] == r;
        }
      }
    }
  }

  lemma WinnersAreTopTen(rows: seq<StockRow>)
    requires Distinct(rows)
    requires forall a, b | a in rows && b in rows && a.code == b.code :: a == b
    ensures Elements(Winners(rows)) == SelectedRows(Elements(rows))
  {
    TotalOnDistinctCodes(Elements(rows));
    SortCorrect(rows, BalanceBefore);
    var byBalance := Sort(rows, BalanceBefore);
    OrderedIsDistinct(byBalance, BalanceBefore);
    SortCorrect(byBalance, MovementBefore);
    PrefixIsTopK(byBalance, Elements(rows), BalanceBefore, 10);
    PrefixIsTopK(Sort(byBalance, MovementBefore), Elements(rows), MovementBefore, 10);
    assert FirstTen(byBalance) == if 10 < |byBalance| then byBalance[..10] else byBalance;
    var a, b := FirstTen(byBalance), FirstTen(Sort(byBalance, MovementBefore));
    assert Elements(a + b) == Elements(a) + Elements(b);
  }

  lemma OrderedIsDistinct(a: seq<StockRow>, before: (StockRow, StockRow) -> bool)
    requires Ordered(a, before) && TotalOn(Elements(a), before)
    ensures Distinct(a)
  {
    assert forall i | 0 <= i < |a| :: a[i] in Elements(a);
  }

  // ---- The dashboard built from a result ----

  datatype StockDashboard = StockDashboard(kpis: Option<Metrics>, topValue: seq<(string, int)>,
                                           movement: seq<(string, int, int)>)

  predicate ValueBefore(a: StockRow, b: StockRow) {
    a.balance > b.balance || (a.balance == b.balance && Text.Less(a.code, b.code))
  }

  predicate TurnoverBefore(a: StockRow, b: StockRow) {
    a.amountIn + a.amountOut > b.amountIn + b.amountOut ||
    (a.amountIn + a.amountOut == b.amountIn + b.amountOut && Text.Less(a.code, b.code))
  }

  function Positive(rows: seq<StockRow>): seq<StockRow> {
    if rows == [] then []
    else (if rows[0].balance > 0 then [rows[0]] else []) + Positive(rows[1..])
  }

  function Label(r: StockRow): string {
    if r.name != "" then r.name else r.code
  }

  /** Codes are unique, so grouping the ranking by code leaves the rows as they are. */
  function Dashboard(wire: Wire): StockDashboard {
    var rows := RealRows(wire);
    var ranked := FirstTen(Sort(Positive(rows), ValueBefore));
    var moved := FirstTen(Sort(rows, TurnoverBefore));
    StockDashboard(MetricsIn(wire),
                   seq(|ranked|, i requires 0 <= i < |ranked| => (Label(ranked[i]), ranked[i].balance)),
                   seq(|moved|, i requires 0 <= i < |moved| => (Label(moved[i]), moved[i].amountIn,
                                                                moved[i].amountOut)))
  }

  lemma {:induction false} PositiveElements(rows: seq<StockRow>)
    ensures forall r :: r in Positive(rows) <==> r in rows && r.balance > 0
    ensures Distinct(rows) ==> Distinct(Positive(rows))
  {
    if rows != [] {
      PositiveElements(rows[1..]);
      assert rows == [rows[0]] + rows[1..];
      if Distinct(rows) {
        assert forall i | 1 <= i < |rows| :: rows[i] == rows[1..][i - 1];
        assert rows[0] !in rows[1..];
      }
    }
  }

  lemma SamePositive(a: seq<StockRow>, b: seq<StockRow>)
    requires Elements(a) == Elements(b) && Distinct(a) && Distinct(b)
    ensures Elements(Positive(a)) == Elements(Positive(b)) && Elements(Positive(a)) <= Elements(a)
    ensures Distinct(Positive(a)) && Distinct(Positive(b))
  {
    PositiveElements(a);
    PositiveElements(b);
    assert forall r :: r in a <==> r in Elements(a);
    assert forall r :: r in b <==> r in Elements(b);
  }

  /** The dashboard depends on the set of rows and the metrics, not on the row order. */
  lemma DashboardIgnoresOrder(a: Wire, b: Wire)
    requires MetricsIn(a) == MetricsIn(b) && Elements(RealRows(a)) == Elements(RealRows(b))
    requires Distinct(RealRows(a)) && Distinct(RealRows(b))
    requires TotalOn(Elements(RealRows(a)), TurnoverBefore) && TotalOn(Elements(RealRows(a)), ValueBefore)
    ensures Dashboard(a) == Dashboard(b)
  {
    var ra, rb := RealRows(a), RealRows(b);
    SortIgnoresOrder(ra, rb, TurnoverBefore);
    SamePositive(ra, rb);
    TotalOnPart(Elements(ra), Elements(Positive(ra)), ValueBefore);
    SortIgnoresOrder(Positive(ra), Positive(rb), ValueBefore);
  }

  lemma CodesOrderRows(rows: seq<StockRow>)
    requires forall x, y | x in rows && y in rows && x.code == y.code :: x == y
    ensures TotalOn(Elements(rows), TurnoverBefore) && TotalOn(Elements(rows), ValueBefore)
  {
    Text.LessIsStrictTotal();
  }

  // ---- Main result ----

  lemma MergedRows(items: seq<StockRow>, parts: seq<set<string>>, chunks: seq<Wire>, merged: Wire)
    requires DistinctCodes(items) && Disjoint(parts)
    requires forall r | r in items :: r.code in Union(parts)
    requires ChunkSummaries(items, parts, chunks) && IsMerge(chunks, merged)
    ensures Elements(RealRows(merged)) == SelectedRows(Elements(items))
  {
    var rows := AllRows(chunks);
    ChunkRows(items, parts, chunks);
    DistinctCodesAreTotal(items);
    WinnersAreTopTen(rows);
    KeptWinners(items, parts, chunks, BalanceBefore);
    KeptWinners(items, parts, chunks, MovementBefore);
    var winners := Winners(rows);
    assert Elements(winners) == SelectedRows(Elements(items));
    assert forall r | r in winners :: r in Elements(winners);
    ByCodeValues(winners);
  }

  lemma MergedMetrics(items: seq<StockRow>, parts: seq<set<string>>, chunks: seq<Wire>, merged: Wire)
    requires Disjoint(parts)
    requires forall r | r in items :: r.code in Union(parts)
    requires ChunkSummaries(items, parts, chunks) && IsMerge(chunks, merged)
    ensures MetricsIn(merged) == Some(MetricsOf(items))
  {
    ChunkMetricsAddUp(items, parts, chunks);
    OwnedAll(items, Union(parts));
    AttachReadsBack(RealRows(merged), TotalMetrics(chunks));
  }

  /**
   For every set of items and every way of splitting their codes into disjoint chunks,
   merging the chunk summaries selects the same rows, totals and dashboard as one
   summary over all items.
   */
  lemma ChunkedStockIsExact(items: seq<StockRow>, parts: seq<set<string>>, chunks: seq<Wire>, merged: Wire,
                            direct: Wire)
    requires DistinctCodes(items) && Disjoint(parts)
    requires forall r | r in items :: r.code in Union(parts)
    requires ChunkSummaries(items, parts, chunks)
    requires IsMerge(chunks, merged) && IsSummary(items, direct)
    ensures Elements(RealRows(merged)) == Elements(RealRows(direct))
    ensures MetricsIn(merged) == MetricsIn(direct)
    ensures Dashboard(merged) == Dashboard(direct)
  {
    MergedRows(items, parts, chunks, merged);
    MergedMetrics(items, parts, chunks, merged);
    IsSummaryReads(items, direct);
    DistinctCodesAreTotal(items);
    var rows := RealRows(merged);
    assert forall r | r in rows :: r in Elements(rows);
    assert TotalOn(Elements(rows), CodeBefore);
    OrderedIsDistinct(rows, CodeBefore);
    CodesOrderRows(rows);
    DashboardIgnoresOrder(merged, direct);
  }

  /**
   The same for a run as executed: the manifest rows are read, cut into chunks of the
   configured size, each chunk is summarised on its own, and the summaries are merged.
   */
  lemma ChunkedStockRunIsExact(items: seq<StockRow>, units: seq<string>, size: nat, keys: seq<string>,
                               chunks: seq<Wire>, merged: Wire, direct: Wire)
    requires DistinctCodes(items) && forall r | r in items :: r.code in units
    requires Ordered(keys, KeyBefore) && Elements(keys) == Elements(units)
    requires ChunkSummaries(items, KeySets(Split(keys, ChunkSize(size))), chunks)
    requires IsMerge(chunks, merged) && IsSummary(items, direct)
    ensures Elements(RealRows(merged)) == Elements(RealRows(direct))
    ensures MetricsIn(merged) == MetricsIn(direct)
    ensures Dashboard(merged) == Dashboard(direct)
  {
    SplitKeySets(keys, ChunkSize(size));
    assert forall u | u in units :: u in Elements(units);
    ChunkedStockIsExact(items, KeySets(Split(keys, ChunkSize(size))), chunks, merged, direct);
  }
}
