/** What the chunked heavy reports show, in amounts alone. */
module Selections {
  import opened Options
  import opened Ranking
  import opened ChunkWire
  import opened Manifest
  import Text
  import Stock = StockChunks
  import Ar = ArChunks

  function Sum(amounts: seq<int>): int {
    if amounts == [] then 0 else amounts[0] + Sum(amounts[1..])
  }

  function Least(a: nat, b: nat): nat {
    if a < b then a else b
  }

  // ---- Stock ----

  /** Items with a larger absolute balance, or an equal one and a smaller code. */
  ghost function HeavierStock(items: seq<Stock.StockRow>, r: Stock.StockRow): set<Stock.StockRow> {
    set y | y in items && (Abs(y.balance) > Abs(r.balance)
                           || (Abs(y.balance) == Abs(r.balance) && Text.Less(y.code, r.code)))
  }

  /** Items with more going in and out, or as much and a smaller code. */
  ghost function BusierStock(items: seq<Stock.StockRow>, r: Stock.StockRow): set<Stock.StockRow> {
    set y | y in items && (Abs(y.amountIn) + Abs(y.amountOut) > Abs(r.amountIn) + Abs(r.amountOut)
                           || (Abs(y.amountIn) + Abs(y.amountOut) == Abs(r.amountIn) + Abs(r.amountOut)
                               && Text.Less(y.code, r.code)))
  }

  lemma StockSelectionMeans(items: seq<Stock.StockRow>, r: Stock.StockRow)
    ensures r in Stock.SelectedRows(Elements(items)) <==>
              r in items && (|HeavierStock(items, r)| < 10 || |BusierStock(items, r)| < 10)
  {
    assert Ahead(Elements(items), Stock.BalanceBefore, r) == HeavierStock(items, r);
    assert Ahead(Elements(items), Stock.MovementBefore, r) == BusierStock(items, r);
  }

  /**
   However the items are split into chunks, an item is in the merged rows exactly when fewer than
   ten items are heavier or fewer than ten are busier; the unchunked summary has the same rows.
   */
  lemma StockInAmounts(items: seq<Stock.StockRow>, parts: seq<set<string>>, chunks: seq<Stock.Wire>,
                       merged: Stock.Wire, direct: Stock.Wire, r: Stock.StockRow)
    requires Stock.DistinctCodes(items) && Disjoint(parts)
    requires forall x | x in items :: x.code in Union(parts)
    requires Stock.ChunkSummaries(items, parts, chunks)
    requires Stock.IsMerge(chunks, merged) && Stock.IsSummary(items, direct)
    ensures r in RealRows(merged) <==>
              r in items && (|HeavierStock(items, r)| < 10 || |BusierStock(items, r)| < 10)
    ensures r in RealRows(direct) <==>
              r in items && (|HeavierStock(items, r)| < 10 || |BusierStock(items, r)| < 10)
  {
    Stock.MergedRows(items, parts, chunks, merged);
    assert r in RealRows(merged) <==> r in Elements(RealRows(merged));
    assert r in RealRows(direct) <==> r in Elements(RealRows(direct));
    StockSelectionMeans(items, r);
  }

  /** The metrics count the items and add up their amounts. */
  ghost predicate StockTotals(items: seq<Stock.StockRow>, m: Stock.Metrics) {
    && m.itemCount == m.rowCount == |items|
    && m.balance == Sum(seq(|items|, i requires 0 <= i < |items| => items[i].balance))
    && m.amountIn == Sum(seq(|items|, i requires 0 <= i < |items| => items[i].amountIn))
    && m.amountOut == Sum(seq(|items|, i requires 0 <= i < |items| => items[i].amountOut))
  }

  lemma {:induction false} StockMetricsAreTotals(items: seq<Stock.StockRow>)
    ensures StockTotals(items, Stock.MetricsOf(items))
  {
    if items != [] {
      var rest := items[1..];
      StockMetricsAreTotals(rest);
      assert seq(|items|, i requires 0 <= i < |items| => items[i].balance)[1..]
             == seq(|rest|, i requires 0 <= i < |rest| => rest[i].balance);
      assert seq(|items|, i requires 0 <= i < |items| => items[i].amountIn)[1..]
             == seq(|rest|, i requires 0 <= i < |rest| => rest[i].amountIn);
      assert seq(|items|, i requires 0 <= i < |items| => items[i].amountOut)[1..]
             == seq(|rest|, i requires 0 <= i < |rest| => rest[i].amountOut);
    }
  }

  /** The merged summary carries the totals of all items, as the unchunked one does. */
  lemma StockTotalsInAmounts(items: seq<Stock.StockRow>, parts: seq<set<string>>, chunks: seq<Stock.Wire>,
                             merged: Stock.Wire, direct: Stock.Wire)
    requires Disjoint(parts) && forall x | x in items :: x.code in Union(parts)
    requires Stock.ChunkSummaries(items, parts, chunks)
    requires Stock.IsMerge(chunks, merged) && Stock.IsSummary(items, direct)
    ensures MetricsIn(merged).Some? && StockTotals(items, MetricsIn(merged).value)
    ensures MetricsIn(direct) == MetricsIn(merged)
  {
    Stock.MergedMetrics(items, parts, chunks, merged);
    Stock.IsSummaryReads(items, direct);
    StockMetricsAreTotals(items);
  }

  /** Rows in stock that are worth more, or as much with a smaller code. */
  ghost function WorthMore(rows: seq<Stock.StockRow>, r: Stock.StockRow): set<Stock.StockRow> {
    set y | y in rows && y.balance > 0 && (y.balance > r.balance || (y.balance == r.balance && Text.Less(y.code, r.code)))
  }

  ghost function TurnedOverMore(rows: seq<Stock.StockRow>, r: Stock.StockRow): set<Stock.StockRow> {
    set y | y in rows && (y.amountIn + y.amountOut > r.amountIn + r.amountOut
                          || (y.amountIn + y.amountOut == r.amountIn + r.amountOut && Text.Less(y.code, r.code)))
  }

  lemma PlaceInFirstTen<T(!new)>(rows: seq<T>, before: (T, T) -> bool, r: T)
    requires Distinct(rows) && TotalOn(Elements(rows), before)
    ensures var listed := FirstTen(Sort(rows, before));
            && |listed| == Least(10, |rows|)
            && (r in rows && |Ahead(Elements(rows), before, r)| < 10 ==>
                  var place := |Ahead(Elements(rows), before, r)|; place < |listed| && listed[place] == r)
  {
    var sorted := Sort(rows, before);
    SortCorrect(rows, before);
    if r in rows {
      assert r in Elements(sorted);
      var i :| 0 <= i < |sorted| && sorted[i] == r;
      IndexIsRank(sorted, Elements(rows), before, i);
    }
  }

  ghost predicate OnePerItem(rows: seq<Stock.StockRow>) {
    Distinct(rows) && forall x, y | x in rows && y in rows && x.code == y.code :: x == y
  }

  /** The dashboard lists the ten rows in stock that are worth most, each in its place. */
  lemma StockWorthBoard(wire: Stock.Wire, r: Stock.StockRow)
    requires OnePerItem(RealRows(wire))
    ensures var rows, board := RealRows(wire), Stock.Dashboard(wire);
            var place := |WorthMore(rows, r)|;
            && board.kpis == MetricsIn(wire)
            && |board.topValue| == Least(10, |set x | x in rows && x.balance > 0|)
            && (r in rows && r.balance > 0 && place < 10 ==>
                  place < |board.topValue|
                  && board.topValue[place] == (if r.name != "" then r.name else r.code, r.balance))
  {
    var rows, positive := RealRows(wire), Stock.Positive(RealRows(wire));
    Stock.CodesOrderRows(rows);
    Stock.PositiveElements(rows);
    assert Elements(positive) == set x | x in rows && x.balance > 0;
    TotalOnPart(Elements(rows), Elements(positive), Stock.ValueBefore);
    DistinctSize(positive);
    PlaceInFirstTen(positive, Stock.ValueBefore, r);
    assert Ahead(Elements(positive), Stock.ValueBefore, r) == WorthMore(rows, r);
  }

  /** It lists the ten rows most turned over likewise. */
  lemma StockMovementBoard(wire: Stock.Wire, r: Stock.StockRow)
    requires OnePerItem(RealRows(wire))
    ensures var rows, board := RealRows(wire), Stock.Dashboard(wire);
            var place := |TurnedOverMore(rows, r)|;
            && |board.movement| == Least(10, |rows|)
            && (r in rows && place < 10 ==>
                  place < |board.movement|
                  && board.movement[place] == (if r.name != "" then r.name else r.code, r.amountIn, r.amountOut))
  {
    var rows := RealRows(wire);
    Stock.CodesOrderRows(rows);
    PlaceInFirstTen(rows, Stock.TurnoverBefore, r);
    assert Ahead(Elements(rows), Stock.TurnoverBefore, r) == TurnedOverMore(rows, r);
  }

  lemma {:induction false} DistinctSize<T(!new)>(a: seq<T>)
    requires Distinct(a)
    ensures |Elements(a)| == |a|
  {
    if a == [] {
      assert Elements(a) == {};
    } else {
      var front := a[..|a| - 1];
      DistinctSize(front);
      assert a == front + [a[|a| - 1]];
      assert Elements(a) == Elements(front) + {a[|a| - 1]};
    }
  }

  // ---- Customer movements ----

  /** The amount booked for a customer, documents of kind 2 and 3 being credit. */
  function Booked(rows: seq<Ar.MoveRow>, code: string, credit: bool): int {
    if rows == [] then 0
    else (if rows[0].cust == code && credit == (rows[0].docSort in {2, 3}) then rows[0].amount else 0)
         + Booked(rows[1..], code, credit)
  }

  function BookedInAll(rows: seq<Ar.MoveRow>, credit: bool): int {
    if rows == [] then 0
    else (if credit == (rows[0].docSort in {2, 3}) then rows[0].amount else 0) + BookedInAll(rows[1..], credit)
  }

  function Net(rows: seq<Ar.MoveRow>, code: string): int {
    Booked(rows, code, false) - Booked(rows, code, true)
  }

  /** Customers with a larger absolute net, or an equal one and a smaller code. */
  ghost function HeavierCustomers(rows: seq<Ar.MoveRow>, code: string): set<string> {
    set r | r in rows && (Abs(Net(rows, r.cust)) > Abs(Net(rows, code))
                          || (Abs(Net(rows, r.cust)) == Abs(Net(rows, code)) && Text.Less(r.cust, code))) :: r.cust
  }

  /** The last of the names under which a customer appears. */
  ghost predicate LastName(rows: seq<Ar.MoveRow>, code: string, name: string) {
    && (exists r | r in rows :: r.cust == code && r.name == name)
    && (forall r | r in rows && r.cust == code :: !Text.Less(name, r.name))
  }

  lemma {:induction false} BookedIs(rows: seq<Ar.MoveRow>, code: string)
    ensures Ar.Debit(rows, code) == Booked(rows, code, false)
    ensures Ar.Credit(rows, code) == Booked(rows, code, true)
  {
    if rows != [] {
      var front, r := rows[..|rows| - 1], rows[|rows| - 1];
      BookedIs(front, code);
      assert rows == front + [r];
      BookedNext(front, r, code);
    }
  }

  lemma {:induction false} BookedNext(rows: seq<Ar.MoveRow>, r: Ar.MoveRow, code: string)
    ensures forall credit :: Booked(rows + [r], code, credit) == Booked(rows, code, credit)
              + if r.cust == code && credit == (r.docSort in {2, 3}) then r.amount else 0
    ensures forall credit :: BookedInAll(rows + [r], credit) == BookedInAll(rows, credit)
              + if credit == (r.docSort in {2, 3}) then r.amount else 0
  {
    if rows != [] {
      BookedNext(rows[1..], r, code);
      assert (rows + [r])[1..] == rows[1..] + [r];
    }
  }

  lemma {:induction false} BookedInAllIs(rows: seq<Ar.MoveRow>)
    ensures Ar.TotalDebit(rows) == BookedInAll(rows, false)
    ensures Ar.TotalCredit(rows) == BookedInAll(rows, true)
  {
    if rows != [] {
      var front, r := rows[..|rows| - 1], rows[|rows| - 1];
      BookedInAllIs(front);
      assert rows == front + [r];
      BookedNext(front, r, "");
    }
  }

  lemma {:induction false} MaxNameIsLast(rows: seq<Ar.MoveRow>, code: string)
    ensures code in Ar.Codes(rows) ==> LastName(rows, code, Ar.MaxName(rows, code))
    ensures code !in Ar.Codes(rows) ==> Ar.MaxName(rows, code) == ""
  {
    if rows != [] {
      var front, r := rows[..|rows| - 1], rows[|rows| - 1];
      MaxNameIsLast(front, code);
      assert rows == front + [r];
      assert r in rows && forall x | x in front :: x in rows;
      Text.LessIsStrictTotal();
      if r.cust == code && code !in Ar.Codes(front) {
        assert r.name == "" || Text.Less("", r.name);
      }
      forall x | x in rows && x.cust == code
        ensures !Text.Less(Ar.MaxName(rows, code), x.name)
      {
        if x in front {
          assert x.cust in Ar.Codes(front) && !Text.Less(Ar.MaxName(front, code), x.name);
        }
      }
    }
  }

  lemma LastNameUnique(rows: seq<Ar.MoveRow>, code: string, a: string, b: string)
    requires LastName(rows, code, a) && LastName(rows, code, b)
    ensures a == b
  {
    Text.LessIsStrictTotal();
  }

  lemma {:induction false} CodesCount(customers: set<Ar.Customer>)
    requires Ar.OnePerCode(customers)
    ensures |set c | c in customers :: c.code| == |customers|
  {
    if customers != {} {
      var c :| c in customers;
      CodesCount(customers - {c});
      assert (set x | x in customers :: x.code) == (set x | x in customers - {c} :: x.code) + {c.code};
    }
  }

  lemma AheadAreHeavier(rows: seq<Ar.MoveRow>, c: Ar.Customer)
    requires c in Ar.CustomersOf(rows)
    ensures Rank(Ar.CustomersOf(rows), Ar.NetBefore, c) == |HeavierCustomers(rows, c.code)|
  {
    var ahead := Ahead(Ar.CustomersOf(rows), Ar.NetBefore, c);
    CodesCount(ahead);
    forall code | code in Ar.Codes(rows) || code == c.code
      ensures Ar.Debit(rows, code) == Booked(rows, code, false) && Ar.Credit(rows, code) == Booked(rows, code, true)
    {
      BookedIs(rows, code);
    }
    forall code | code in HeavierCustomers(rows, c.code)
      ensures code in set x | x in ahead :: x.code
    {
      var x := Ar.Customer(code, Ar.MaxName(rows, code), Ar.Debit(rows, code), Ar.Credit(rows, code));
      assert x in ahead;
    }
    assert (set x | x in ahead :: x.code) == HeavierCustomers(rows, c.code);
  }

  /** The two rows a customer travels in, when fewer than ten customers are heavier. */
  ghost predicate ShowsCustomer(rows: seq<Ar.MoveRow>, x: Ar.MoveRow) {
    && LastName(rows, x.cust, x.name)
    && (if x.docSort == 1 then x.amount == Booked(rows, x.cust, false)
        else x.docSort == 2 && x.amount == Booked(rows, x.cust, true))
    && |HeavierCustomers(rows, x.cust)| < 10
  }

  lemma CustomerRowMeans(rows: seq<Ar.MoveRow>, wire: Ar.Wire, x: Ar.MoveRow)
    requires Ar.ArePairs(RealRows(wire), Ar.ByCode(Ar.TopCustomers(rows)))
    ensures x in RealRows(wire) <==> ShowsCustomer(rows, x)
  {
    var top := Ar.ByCode(Ar.TopCustomers(rows));
    MaxNameIsLast(rows, x.cust);
    BookedIs(rows, x.cust);
    if x in RealRows(wire) {
      var c := top[x.cust];
      AheadAreHeavier(rows, c);
    }
    if ShowsCustomer(rows, x) {
      var c := Ar.Customer(x.cust, Ar.MaxName(rows, x.cust), Ar.Debit(rows, x.cust), Ar.Credit(rows, x.cust));
      assert x.cust in Ar.Codes(rows) && c in Ar.CustomersOf(rows);
      LastNameUnique(rows, x.cust, x.name, c.name);
      AheadAreHeavier(rows, c);
      assert c in Ar.TopCustomers(rows) && top[x.cust] == c;
    }
  }

  /**
   However the customers are split into chunks, the merged rows are the debit row and the credit row,
   with everything booked for the customer, of each customer than whom fewer than ten are heavier.
   */
  lemma CustomersInAmounts(rows: seq<Ar.MoveRow>, parts: seq<set<string>>, chunks: seq<Ar.Wire>,
                           ranked: seq<Ar.Customer>, merged: Ar.Wire, direct: Ar.Wire, x: Ar.MoveRow)
    requires Disjoint(parts) && forall r | r in rows :: r.cust in Union(parts)
    requires Ar.ChunkSummaries(rows, parts, chunks)
    requires Ar.IsMerge(chunks, ranked, merged) && Ar.IsSummary(rows, direct)
    ensures x in RealRows(merged) <==> ShowsCustomer(rows, x)
    ensures x in RealRows(direct) <==> ShowsCustomer(rows, x)
  {
    Ar.ChunkedArIsExact(rows, parts, chunks, ranked, merged, direct);
    CustomerRowMeans(rows, direct, x);
    assert x in RealRows(merged) <==> x in Elements(RealRows(merged));
    assert x in RealRows(direct) <==> x in Elements(RealRows(direct));
  }

  /** The merged metrics count the customers and add up everything booked. */
  lemma CustomerTotalsInAmounts(rows: seq<Ar.MoveRow>, parts: seq<set<string>>, chunks: seq<Ar.Wire>,
                                ranked: seq<Ar.Customer>, merged: Ar.Wire, direct: Ar.Wire)
    requires Disjoint(parts) && forall r | r in rows :: r.cust in Union(parts)
    requires Ar.ChunkSummaries(rows, parts, chunks)
    requires Ar.IsMerge(chunks, ranked, merged) && Ar.IsSummary(rows, direct)
    ensures MetricsIn(merged).Some? && MetricsIn(direct) == MetricsIn(merged)
    ensures var m := MetricsIn(merged).value;
            && m.customerCount == m.rowCount == |set r | r in rows :: r.cust|
            && m.debit == BookedInAll(rows, false) && m.credit == BookedInAll(rows, true)
            && m.net == m.debit - m.credit
  {
    Ar.ChunkedArIsExact(rows, parts, chunks, ranked, merged, direct);
    BookedInAllIs(rows);
  }

  lemma RankAmongTop<T(!new)>(s: set<T>, before: (T, T) -> bool, k: nat, x: T)
    requires TotalOn(s, before) && x in TopK(s, before, k)
    ensures Rank(TopK(s, before, k), before, x) == Rank(s, before, x)
  {
    forall y | y in Ahead(s, before, x)
      ensures y in TopK(s, before, k)
    {
      RankStrict(s, before, y, x);
    }
    assert Ahead(TopK(s, before, k), before, x) == Ahead(s, before, x);
  }

  /** What the dashboard says of a customer: its place, label, debit and credit. */
  ghost predicate Stands(rows: seq<Ar.MoveRow>, code: string, entry: (int, string, int, int)) {
    && (exists r | r in rows :: r.cust == code)
    && entry.0 == |HeavierCustomers(rows, code)| < 10
    && (exists name :: LastName(rows, code, name) && entry.1 == if name != "" then name else code)
    && entry.2 == Booked(rows, code, false) && entry.3 == Booked(rows, code, true)
  }

  lemma BoardCustomers(rows: seq<Ar.MoveRow>, direct: Ar.Wire)
    requires Ar.IsSummary(rows, direct) && rows != []
    ensures Ar.Regrouped(Ar.VisibleRows(direct)) == Ar.TopCustomers(rows)
    ensures TopK(Ar.TopCustomers(rows), Ar.NetBefore, 10) == Ar.TopCustomers(rows)
  {
    var all, top := Ar.CustomersOf(rows), Ar.TopCustomers(rows);
    Ar.TotalOnOnePerCode(all);
    TopKOfKept(all, top, Ar.NetBefore, 10);
    Ar.ValuesByCode(top);
    Ar.PairsShow(direct, RealRows(direct), Ar.MetricsOf(rows), Ar.ByCode(top));
    TopKSize(all, Ar.NetBefore, 10);
    assert rows[0].cust in Ar.Codes(rows);
    assert Ar.Customer(rows[0].cust, Ar.MaxName(rows, rows[0].cust), Ar.Debit(rows, rows[0].cust),
                       Ar.Credit(rows, rows[0].cust)) in all;
    assert top != {};
    var c :| c in top;
    assert c.code in Ar.ByCode(top);
  }

  lemma StandsIsTop(rows: seq<Ar.MoveRow>, c: Ar.Customer)
    requires c in Ar.TopCustomers(rows)
    ensures Stands(rows, c.code, (Rank(Ar.TopCustomers(rows), Ar.NetBefore, c), Ar.Label(c), c.debit, c.credit))
  {
    Ar.TotalOnOnePerCode(Ar.CustomersOf(rows));
    RankAmongTop(Ar.CustomersOf(rows), Ar.NetBefore, 10, c);
    AheadAreHeavier(rows, c);
    MaxNameIsLast(rows, c.code);
    BookedIs(rows, c.code);
    assert LastName(rows, c.code, c.name);
  }

  /** The ranking of the merged summary has every such customer at the place of its absolute net. */
  lemma CustomerBoard(rows: seq<Ar.MoveRow>, parts: seq<set<string>>, chunks: seq<Ar.Wire>,
                      ranked: seq<Ar.Customer>, merged: Ar.Wire, direct: Ar.Wire, entry: (int, string, int, int))
    requires rows != [] && Disjoint(parts) && forall r | r in rows :: r.cust in Union(parts)
    requires Ar.ChunkSummaries(rows, parts, chunks)
    requires Ar.IsMerge(chunks, ranked, merged) && Ar.IsSummary(rows, direct)
    ensures Ar.Dashboard(merged).kpis == MetricsIn(merged)
    ensures entry in Ar.Dashboard(merged).ranking <==> exists code :: Stands(rows, code, entry)
  {
    var top := Ar.TopCustomers(rows);
    Ar.ChunkedArIsExact(rows, parts, chunks, ranked, merged, direct);
    BoardCustomers(rows, direct);
    if entry in Ar.Dashboard(direct).ranking {
      var c :| c in top && entry == (Rank(top, Ar.NetBefore, c), Ar.Label(c), c.debit, c.credit);
      StandsIsTop(rows, c);
    }
    if code :| Stands(rows, code, entry) {
      var c := Ar.Customer(code, Ar.MaxName(rows, code), Ar.Debit(rows, code), Ar.Credit(rows, code));
      assert code in Ar.Codes(rows) && c in Ar.CustomersOf(rows);
      AheadAreHeavier(rows, c);
      assert c in top;
      StandsIsTop(rows, c);
      NamesAgree(rows, code, entry, (Rank(top, Ar.NetBefore, c), Ar.Label(c), c.debit, c.credit));
    }
  }

  lemma NamesAgree(rows: seq<Ar.MoveRow>, code: string, a: (int, string, int, int), b: (int, string, int, int))
    requires Stands(rows, code, a) && Stands(rows, code, b)
    ensures a == b
  {
    var x :| LastName(rows, code, x) && a.1 == if x != "" then x else code;
    var y :| LastName(rows, code, y) && b.1 == if y != "" then y else code;
    LastNameUnique(rows, code, x, y);
  }
}
