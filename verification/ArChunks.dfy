/**
 Customer movement summary: per-customer totals, the bounded selection of the summary query, and the
 merge that regroups the two rows of each selected customer. Amounts are in ten-thousandths.
 */
module ArChunks {
  import opened Options
  import opened Ranking
  import opened ChunkWire
  import opened Manifest
  import Text

  datatype MoveRow = MoveRow(cust: string, name: string, docSort: int, amount: int)

  datatype Customer = Customer(code: string, name: string, debit: int, credit: int)

  datatype Metrics = Metrics(customerCount: int, net: int, debit: int, credit: int, rowCount: int) {
    function Plus(other: Metrics): Metrics {
      Metrics(customerCount + other.customerCount, net + other.net, debit + other.debit,
              credit + other.credit, rowCount + other.rowCount)
    }
  }

  type Wire = ChunkWire.Wire<MoveRow, Metrics>

  predicate IsCredit(r: MoveRow) {
    r.docSort == 2 || r.docSort == 3
  }

  predicate NetBefore(a: Customer, b: Customer) {
    Abs(a.debit - a.credit) > Abs(b.debit - b.credit) ||
    (Abs(a.debit - a.credit) == Abs(b.debit - b.credit) && Text.Less(a.code, b.code))
  }

  // ---- Totals per customer ----

  function Debit(rows: seq<MoveRow>, code: string): int {
    if rows == [] then 0
    else var r := rows[|rows| - 1];
         Debit(rows[..|rows| - 1], code) + if r.cust == code && !IsCredit(r) then r.amount else 0
  }

  function Credit(rows: seq<MoveRow>, code: string): int {
    if rows == [] then 0
    else var r := rows[|rows| - 1];
         Credit(rows[..|rows| - 1], code) + if r.cust == code && IsCredit(r) then r.amount else 0
  }

  ghost function Codes(rows: seq<MoveRow>): set<string> {
    set r | r in rows :: r.cust
  }

  /** SQL's max(cust_name) over the rows of a customer. */
  function MaxName(rows: seq<MoveRow>, code: string): string {
    if rows == [] then ""
    else var before, r := MaxName(rows[..|rows| - 1], code), rows[|rows| - 1];
         if r.cust == code && Text.Less(before, r.name) then r.name else before
  }

  /** The name met first, which is the one the merge keeps. */
  function FirstName(rows: seq<MoveRow>, code: string): string {
    if rows == [] then ""
    else if rows[0].cust == code then rows[0].name
    else FirstName(rows[1..], code)
  }

  /** customer_totals of the summary query. */
  ghost function CustomersOf(rows: seq<MoveRow>): set<Customer> {
    set c | c in Codes(rows) :: Customer(c, MaxName(rows, c), Debit(rows, c), Credit(rows, c))
  }

  /** Totals over all customers are totals over all rows. */
  function TotalDebit(rows: seq<MoveRow>): int {
    if rows == [] then 0
    else TotalDebit(rows[..|rows| - 1]) + if IsCredit(rows[|rows| - 1]) then 0 else rows[|rows| - 1].amount
  }

  function TotalCredit(rows: seq<MoveRow>): int {
    if rows == [] then 0
    else TotalCredit(rows[..|rows| - 1]) + if IsCredit(rows[|rows| - 1]) then rows[|rows| - 1].amount else 0
  }

  ghost function MetricsOf(rows: seq<MoveRow>): Metrics {
    var d, c := TotalDebit(rows), TotalCredit(rows);
    Metrics(|Codes(rows)|, d - c, d, c, |Codes(rows)|)
  }

  // ---- The bounded selection ----

  /** The two rows a selected customer travels in. */
  function DebitRow(c: Customer): MoveRow {
    MoveRow(c.code, c.name, 1, c.debit)
  }

  function CreditRow(c: Customer): MoveRow {
    MoveRow(c.code, c.name, 2, c.credit)
  }

  predicate OfCustomer(r: MoveRow, c: Customer) {
    r == DebitRow(c) || r == CreditRow(c)
  }

  ghost predicate OnePerCode(s: set<Customer>) {
    forall a, b | a in s && b in s && a.code == b.code :: a == b
  }

  ghost function ByCode(s: set<Customer>): (m: map<string, Customer>)
    requires OnePerCode(s)
    ensures forall c | c in s :: c.code in m && m[c.code] == c
    ensures forall k | k in m :: m[k] in s && m[k].code == k
  {
    map c | c in s :: c.code := c
  }

  /** rows are the two rows of each customer, each once and in any order. */
  ghost predicate ArePairs(rows: seq<MoveRow>, customers: map<string, Customer>) {
    && Distinct(rows)
    && (forall k | k in customers ::
        customers[k].code == k && DebitRow(customers[k]) in rows && CreditRow(customers[k]) in rows)
    && (forall r | r in rows :: r.cust in customers && OfCustomer(r, customers[r.cust]))
  }

  ghost function TopCustomers(rows: seq<MoveRow>): (s: set<Customer>)
    ensures OnePerCode(s)
  {
    TopK(CustomersOf(rows), NetBefore, 10)
  }

  /** A result of the summary query over rows; the row order is left open. */
  ghost predicate IsSummary(rows: seq<MoveRow>, wire: Wire) {
    && wire == Attach(RealRows(wire), MetricsOf(rows))
    && ArePairs(RealRows(wire), ByCode(TopCustomers(rows)))
  }

  lemma TotalOnOnePerCode(s: set<Customer>)
    requires OnePerCode(s)
    ensures TotalOn(s, NetBefore)
  {
    Text.LessIsStrictTotal();
  }

  // ---- The merge ----

  /** Customers as the merge regroups them from the rows of all chunks. */
  ghost function Regrouped(rows: seq<MoveRow>): set<Customer> {
    set c | c in Codes(rows) :: CustomerIn(rows, c)
  }

  function CustomerIn(rows: seq<MoveRow>, code: string): Customer {
    Customer(code, FirstName(rows, code), Debit(rows, code), Credit(rows, code))
  }

  ghost function TotalMetrics(chunks: seq<Wire>): Metrics {
    if chunks == [] then Metrics(0, 0, 0, 0, 0)
    else TotalMetrics(chunks[..|chunks| - 1]).Plus(MetricsIn(chunks[|chunks| - 1]).GetOr(Metrics(0, 0, 0, 0, 0)))
  }

  function TwoRows(customers: seq<Customer>): seq<MoveRow> {
    if customers == [] then []
    else var c := customers[|customers| - 1];
         TwoRows(customers[..|customers| - 1]) + [DebitRow(c), CreditRow(c)]
  }

  ghost predicate IsMerge(chunks: seq<Wire>, ranked: seq<Customer>, merged: Wire) {
    && Ordered(ranked, NetBefore)
    && Elements(ranked) == Regrouped(AllRows(chunks))
    && merged == Attach(TwoRows(FirstTen(ranked)), TotalMetrics(chunks))
  }

  lemma {:induction false} FirstNameNext(rows: seq<MoveRow>, r: MoveRow, code: string)
    ensures FirstName(rows + [r], code) == if code in Codes(rows) then FirstName(rows, code)
            else if r.cust == code then r.name else ""
  {
    if rows == [] {
      assert ([] + [r])[1..] == [];
    } else {
      assert (rows + [r])[1..] == rows[1..] + [r];
      FirstNameNext(rows[1..], r, code);
      assert rows == [rows[0]] + rows[1..];
    }
  }

  ghost predicate Grouped(customers: map<string, Customer>, rows: seq<MoveRow>) {
    && customers.Keys == Codes(rows)
    && forall c | c in customers :: customers[c] == CustomerIn(rows, c)
  }

  lemma GroupRow(customers: map<string, Customer>, rows: seq<MoveRow>, i: nat, next: Customer)
    requires i < |rows| && Grouped(customers, rows[..i])
    requires var r := rows[i];
             var before := if r.cust in customers then customers[r.cust] else Customer(r.cust, r.name, 0, 0);
             next == if IsCredit(r) then before.(credit := before.credit + r.amount)
               else before.(debit := before.debit + r.amount)
    ensures Grouped(customers[rows[i].cust := next], rows[..i + 1])
  {
    assert rows[..i + 1] == rows[..i] + [rows[i]];
    GroupNext(customers, rows[..i], rows[i], next);
  }

  lemma GroupNext(customers: map<string, Customer>, rows: seq<MoveRow>, r: MoveRow, next: Customer)
    requires Grouped(customers, rows)
    requires var before := if r.cust in customers then customers[r.cust] else Customer(r.cust, r.name, 0, 0);
             next == if IsCredit(r) then before.(credit := before.credit + r.amount)
               else before.(debit := before.debit + r.amount)
    ensures Grouped(customers[r.cust := next], rows + [r])
  {
    var more := rows + [r];
    assert more[..|rows|] == rows;
    assert Codes(more) == Codes(rows) + {r.cust};
    forall c | c in Codes(more)
      ensures Debit(more, c) == Debit(rows, c) + if r.cust == c && !IsCredit(r) then r.amount else 0
      ensures Credit(more, c) == Credit(rows, c) + if r.cust == c && IsCredit(r) then r.amount else 0
      ensures FirstName(more, c) == if c in Codes(rows) then FirstName(rows, c) else r.name
    {
      FirstNameNext(rows, r, c);
    }
    if r.cust !in customers {
      NothingFor(rows, r.cust);
    }
  }

  lemma {:induction false} NothingFor(rows: seq<MoveRow>, code: string)
    requires code !in Codes(rows)
    ensures Debit(rows, code) == 0 && Credit(rows, code) == 0
  {
    if rows != [] {
      assert rows[|rows| - 1].cust in Codes(rows);
      assert Codes(rows[..|rows| - 1]) <= Codes(rows);
      NothingFor(rows[..|rows| - 1], code);
    }
  }

  method Regroup(rows: seq<MoveRow>) returns (customers: map<string, Customer>)
    ensures Grouped(customers, rows)
  {
    customers := map[];
    for i := 0 to |rows|
      invariant Grouped(customers, rows[..i])
    {
      var row := rows[i];
      var item := if row.cust in customers then customers[row.cust] else Customer(row.cust, row.name, 0, 0);
      if IsCredit(row) {
        item := item.(credit := item.credit + row.amount);
      } else {
        item := item.(debit := item.debit + row.amount);
      }
      GroupRow(customers, rows, i, item);
      customers := customers[row.cust := item];
    }
    assert rows[..|rows|] == rows;
  }

  method Ranked(customers: map<string, Customer>) returns (ranked: seq<Customer>)
    requires forall c | c in customers :: customers[c].code == c
    ensures Ordered(ranked, NetBefore)
    ensures Elements(ranked) == customers.Values
  {
    var items: seq<Customer> := [];
    var left := customers.Keys;
    while left != {}
      invariant left <= customers.Keys
      invariant Elements(items) == set c | c in customers.Keys - left :: customers[c]
      invariant Distinct(items)
    {
      var c :| c in left;
      assert customers[c] !in Elements(items);
      ghost var before := items;
      items := items + [customers[c]];
      assert Elements(items) == Elements(before) + {customers[c]};
      left := left - {c};
    }
    assert Elements(items) == customers.Values;
    TotalOnOnePerCode(Elements(items));
    SortCorrect(items, NetBefore);
    ranked := Sort(items, NetBefore);
  }

  method MergeArSummary(chunks: seq<Wire>) returns (merged: Option<Wire>, ghost ranked: seq<Customer>)
    ensures merged.None? <==> exists i :: 0 <= i < |chunks| && MetricsIn(chunks[i]).None?
    ensures merged.Some? ==> IsMerge(chunks, ranked, merged.value)
  {
    var totals := Metrics(0, 0, 0, 0, 0);
    var rows: seq<MoveRow> := [];
    for i := 0 to |chunks|
      invariant totals == TotalMetrics(chunks[..i]) && rows == AllRows(chunks[..i])
      invariant forall j | 0 <= j < i :: MetricsIn(chunks[j]).Some?
    {
      if MetricsIn(chunks[i]).None? {
        return None, [];
      }
      assert chunks[..i + 1][..i] == chunks[..i];
      totals := totals.Plus(MetricsIn(chunks[i]).value);
      rows := rows + RealRows(chunks[i]);
    }
    assert chunks[..|chunks|] == chunks;
    var customers := Regroup(rows);
    assert customers.Values == Regrouped(rows);
    var items := Ranked(customers);
    ranked := items;
    if |items| > 10 {
      items := items[..10];
    }
    var output: seq<MoveRow> := [];
    for i := 0 to |items|
      invariant output == TwoRows(items[..i])
    {
      var item := items[i];
      assert items[..i + 1][..i] == items[..i];
      output := output + [DebitRow(item), CreditRow(item)];
    }
    assert items[..|items|] == items;
    merged := Some(Attach(output, totals));
  }

  // ---- Partitioning by customer ----

  function Owned(rows: seq<MoveRow>, keys: set<string>): seq<MoveRow> {
    if rows == [] then []
    else if rows[|rows| - 1].cust in keys then Owned(rows[..|rows| - 1], keys) + [rows[|rows| - 1]]
    else Owned(rows[..|rows| - 1], keys)
  }

  lemma {:induction false} OwnedCodes(rows: seq<MoveRow>, keys: set<string>)
    ensures Codes(Owned(rows, keys)) == Codes(rows) * keys
  {
    if rows != [] {
      var front, r := rows[..|rows| - 1], rows[|rows| - 1];
      OwnedCodes(front, keys);
      assert rows == front + [r];
      assert Codes(rows) == Codes(front) + {r.cust};
      assert Codes(Owned(front, keys) + [r]) == Codes(Owned(front, keys)) + {r.cust};
    }
  }

  lemma {:induction false} OwnedTotals(rows: seq<MoveRow>, keys: set<string>, code: string)
    requires code in keys
    ensures Debit(Owned(rows, keys), code) == Debit(rows, code)
    ensures Credit(Owned(rows, keys), code) == Credit(rows, code)
    ensures MaxName(Owned(rows, keys), code) == MaxName(rows, code)
  {
    if rows != [] {
      var front, r := rows[..|rows| - 1], rows[|rows| - 1];
      OwnedTotals(front, keys, code);
      assert (Owned(front, keys) + [r])[..|Owned(front, keys)|] == Owned(front, keys);
    }
  }

  /** A chunk sees exactly the customers it owns, with their full totals. */
  lemma OwnedCustomers(rows: seq<MoveRow>, keys: set<string>)
    ensures CustomersOf(Owned(rows, keys)) == set c | c in CustomersOf(rows) && c.code in keys
  {
    OwnedCodes(rows, keys);
    forall code | code in Codes(Owned(rows, keys))
      ensures code in keys && code in Codes(rows)
      ensures Debit(Owned(rows, keys), code) == Debit(rows, code)
      ensures Credit(Owned(rows, keys), code) == Credit(rows, code)
      ensures MaxName(Owned(rows, keys), code) == MaxName(rows, code)
    {
      OwnedTotals(rows, keys, code);
    }
  }

  function OwnedDebit(rows: seq<MoveRow>, keys: set<string>): int {
    if rows == [] then 0
    else var r := rows[|rows| - 1];
         OwnedDebit(rows[..|rows| - 1], keys) + if r.cust in keys && !IsCredit(r) then r.amount else 0
  }

  function OwnedCredit(rows: seq<MoveRow>, keys: set<string>): int {
    if rows == [] then 0
    else var r := rows[|rows| - 1];
         OwnedCredit(rows[..|rows| - 1], keys) + if r.cust in keys && IsCredit(r) then r.amount else 0
  }

  lemma {:induction false} TotalsOfOwned(rows: seq<MoveRow>, keys: set<string>)
    ensures TotalDebit(Owned(rows, keys)) == OwnedDebit(rows, keys)
    ensures TotalCredit(Owned(rows, keys)) == OwnedCredit(rows, keys)
  {
    if rows != [] {
      var front, r := rows[..|rows| - 1], rows[|rows| - 1];
      TotalsOfOwned(front, keys);
      assert (Owned(front, keys) + [r])[..|Owned(front, keys)|] == Owned(front, keys);
    }
  }

  lemma {:induction false} OwnedTotalsOfUnion(rows: seq<MoveRow>, a: set<string>, b: set<string>, c: set<string>)
    requires forall k :: k in c <==> k in a || k in b
    requires forall k | k in a :: k !in b
    ensures OwnedDebit(rows, c) == OwnedDebit(rows, a) + OwnedDebit(rows, b)
    ensures OwnedCredit(rows, c) == OwnedCredit(rows, a) + OwnedCredit(rows, b)
  {
    if rows != [] {
      OwnedTotalsOfUnion(rows[..|rows| - 1], a, b, c);
    }
  }

  lemma MetricsOfUnion(rows: seq<MoveRow>, a: set<string>, b: set<string>)
    requires a !! b
    ensures MetricsOf(Owned(rows, a + b)) == MetricsOf(Owned(rows, a)).Plus(MetricsOf(Owned(rows, b)))
  {
    OwnedTotalsOfUnion(rows, a, b, a + b);
    TotalsOfOwned(rows, a);
    TotalsOfOwned(rows, b);
    TotalsOfOwned(rows, a + b);
    CodesOfUnion(rows, a, b);
  }

  lemma CodesOfUnion(rows: seq<MoveRow>, a: set<string>, b: set<string>)
    requires a !! b
    ensures |Codes(Owned(rows, a + b))| == |Codes(Owned(rows, a))| + |Codes(Owned(rows, b))|
  {
    OwnedCodes(rows, a);
    OwnedCodes(rows, b);
    OwnedCodes(rows, a + b);
    var x, y := Codes(rows) * a, Codes(rows) * b;
    assert Codes(rows) * (a + b) == x + y;
    assert x !! y;
  }

  lemma {:induction false} OwnedNone(rows: seq<MoveRow>)
    ensures Owned(rows, {}) == []
  {
    if rows != [] {
      OwnedNone(rows[..|rows| - 1]);
    }
  }

  lemma {:induction false} OwnedAll(rows: seq<MoveRow>, keys: set<string>)
    requires forall r | r in rows :: r.cust in keys
    ensures Owned(rows, keys) == rows
  {
    if rows != [] {
      var front, last := rows[..|rows| - 1], rows[|rows| - 1];
      OwnedAll(front, keys);
      assert rows == front + [last] && last in rows;
    }
  }

  ghost predicate ChunkSummaries(rows: seq<MoveRow>, parts: seq<set<string>>, chunks: seq<Wire>) {
    && |chunks| == |parts|
    && forall i | 0 <= i < |parts| :: IsSummary(Owned(rows, parts[i]), chunks[i])
  }

  lemma IsSummaryReads(rows: seq<MoveRow>, wire: Wire)
    requires IsSummary(rows, wire)
    ensures MetricsIn(wire) == Some(MetricsOf(rows))
  {
    AttachReadsBack(RealRows(wire), MetricsOf(rows));
  }

  /** All chunks but the last are summaries too. */
  lemma FrontSummaries(rows: seq<MoveRow>, parts: seq<set<string>>, chunks: seq<Wire>)
    requires parts != [] && Disjoint(parts) && ChunkSummaries(rows, parts, chunks)
    ensures var n := |parts| - 1; Disjoint(parts[..n]) && ChunkSummaries(rows, parts[..n], chunks[..n])
  {
    var n := |parts| - 1;
    assert forall i | 0 <= i < n :: parts[..n][i] == parts[i] && chunks[..n][i] == chunks[i];
  }

  /** The last chunk adds its metrics to those of the customers of the other chunks. */
  lemma LastMetrics(rows: seq<MoveRow>, parts: seq<set<string>>, chunks: seq<Wire>)
    requires parts != [] && Disjoint(parts) && ChunkSummaries(rows, parts, chunks)
    ensures var n := |parts| - 1;
            && MetricsIn(chunks[n]).Some?
            && MetricsOf(Owned(rows, Union(parts)))
               == MetricsOf(Owned(rows, Union(parts[..n]))).Plus(MetricsIn(chunks[n]).value)
  {
    var n := |parts| - 1;
    UnionFront(parts);
    MetricsOfUnion(rows, Union(parts[..n]), parts[n]);
    IsSummaryReads(Owned(rows, parts[n]), chunks[n]);
  }

  lemma {:induction false} ChunkMetricsAddUp(rows: seq<MoveRow>, parts: seq<set<string>>, chunks: seq<Wire>)
    requires Disjoint(parts) && ChunkSummaries(rows, parts, chunks)
    ensures TotalMetrics(chunks) == MetricsOf(Owned(rows, Union(parts)))
    decreases |parts|
  {
    if parts == [] {
      OwnedNone(rows);
      assert Codes([]) == {};
    } else {
      FrontSummaries(rows, parts, chunks);
      ChunkMetricsAddUp(rows, parts[..|parts| - 1], chunks[..|parts| - 1]);
      LastMetrics(rows, parts, chunks);
    }
  }

  // ---- Regrouping gives the selected customers back ----

  lemma {:induction false} DebitOfPair(rows: seq<MoveRow>, c: Customer)
    requires Distinct(rows)
    requires forall r | r in rows && r.cust == c.code :: OfCustomer(r, c)
    ensures Debit(rows, c.code) == if DebitRow(c) in rows then c.debit else 0
    ensures Credit(rows, c.code) == if CreditRow(c) in rows then c.credit else 0
  {
    if rows != [] {
      var front, r := rows[..|rows| - 1], rows[|rows| - 1];
      assert rows == front + [r];
      assert r !in front;
      DebitOfPair(front, c);
    }
  }

  lemma {:induction false} FirstNameOfPair(rows: seq<MoveRow>, c: Customer)
    requires c.code in Codes(rows)
    requires forall r | r in rows && r.cust == c.code :: OfCustomer(r, c)
    ensures FirstName(rows, c.code) == c.name
  {
    assert rows == [rows[0]] + rows[1..];
    if rows[0].cust != c.code {
      assert Codes(rows) == {rows[0].cust} + Codes(rows[1..]);
      FirstNameOfPair(rows[1..], c);
    } else {
      assert rows[0] in rows;
    }
  }

  /** Pairs of distinct customers regroup to those customers. */
  lemma RegroupPairs(rows: seq<MoveRow>, customers: map<string, Customer>)
    requires ArePairs(rows, customers)
    ensures Regrouped(rows) == customers.Values
  {
    forall code | code in customers
      ensures code in Codes(rows) && CustomerIn(rows, code) == customers[code]
    {
      RegroupOne(rows, customers, code);
    }
    assert Codes(rows) == customers.Keys;
  }

  lemma RegroupOne(rows: seq<MoveRow>, customers: map<string, Customer>, code: string)
    requires ArePairs(rows, customers) && code in customers
    ensures code in Codes(rows)
    ensures CustomerIn(rows, code) == customers[code]
  {
    var c := customers[code];
    assert DebitRow(c) in rows && CreditRow(c) in rows;
    DebitOfPair(rows, c);
    FirstNameOfPair(rows, c);
  }

  /** The customers that reach the merge: the winners of each chunk. */
  ghost function Kept(rows: seq<MoveRow>, parts: seq<set<string>>): (s: set<Customer>)
    ensures OnePerCode(s)
  {
    set c | c in CustomersOf(rows) && exists i :: 0 <= i < |parts| && c in TopCustomers(Owned(rows, parts[i]))
  }

  ghost predicate Within(rows: seq<MoveRow>, all: map<string, Customer>, keys: set<string>) {
    Distinct(rows) && forall r | r in rows :: r.cust in keys && r.cust in all && OfCustomer(r, all[r.cust])
  }

  lemma PairsWithin(rows: seq<MoveRow>, top: map<string, Customer>, all: map<string, Customer>, keys: set<string>)
    requires ArePairs(rows, top) && top.Keys <= keys
    requires forall k | k in top :: k in all && all[k] == top[k]
    ensures Within(rows, all, keys)
  {
  }

  lemma AppendApart(a: seq<MoveRow>, b: seq<MoveRow>, all: map<string, Customer>, keysA: set<string>,
                    keysB: set<string>)
    requires Within(a, all, keysA) && Within(b, all, keysB) && keysA !! keysB
    ensures Within(a + b, all, keysA + keysB)
  {
    assert forall i | 0 <= i < |a| :: a[i] in a;
    assert forall i | 0 <= i < |b| :: b[i] in b;
  }

  lemma {:induction false} ChunkRowsWithin(parts: seq<set<string>>, chunks: seq<Wire>, all: map<string, Customer>)
    requires Disjoint(parts) && |parts| == |chunks|
    requires forall i | 0 <= i < |parts| :: Within(RealRows(chunks[i]), all, parts[i])
    ensures Within(AllRows(chunks), all, Union(parts))
    decreases |parts|
  {
    if parts != [] {
      var n := |parts| - 1;
      ChunkRowsWithin(parts[..n], chunks[..n], all);
      UnionFront(parts);
      AppendApart(AllRows(chunks[..n]), RealRows(chunks[n]), all, Union(parts[..n]), parts[n]);
      assert AllRows(chunks) == AllRows(chunks[..n]) + RealRows(chunks[n]);
    }
  }

  lemma KeptArrives(rows: seq<MoveRow>, parts: seq<set<string>>, chunks: seq<Wire>, c: Customer)
    requires ChunkSummaries(rows, parts, chunks) && c in Kept(rows, parts)
    ensures DebitRow(c) in AllRows(chunks) && CreditRow(c) in AllRows(chunks)
  {
    var i :| 0 <= i < |parts| && c in TopCustomers(Owned(rows, parts[i]));
    var top := ByCode(TopCustomers(Owned(rows, parts[i])));
    assert ArePairs(RealRows(chunks[i]), top) && c.code in top && top[c.code] == c;
    RowsArrive(chunks, i, DebitRow(c));
    RowsArrive(chunks, i, CreditRow(c));
  }

  lemma ChunkWithinKept(rows: seq<MoveRow>, parts: seq<set<string>>, chunks: seq<Wire>, i: nat)
    requires ChunkSummaries(rows, parts, chunks) && i < |parts|
    ensures Within(RealRows(chunks[i]), ByCode(Kept(rows, parts)), parts[i])
  {
    var top, kept := ByCode(TopCustomers(Owned(rows, parts[i]))), ByCode(Kept(rows, parts));
    forall k | k in top
      ensures k in parts[i] && k in kept && kept[k] == top[k]
    {
      ChunkWinner(rows, parts, i, top[k]);
    }
    PairsWithin(RealRows(chunks[i]), top, kept, parts[i]);
  }

  lemma KeptArePairs(rows: seq<MoveRow>, parts: seq<set<string>>, chunks: seq<Wire>)
    requires Disjoint(parts) && ChunkSummaries(rows, parts, chunks)
    ensures ArePairs(AllRows(chunks), ByCode(Kept(rows, parts)))
  {
    forall i | 0 <= i < |parts|
      ensures Within(RealRows(chunks[i]), ByCode(Kept(rows, parts)), parts[i])
    {
      ChunkWithinKept(rows, parts, chunks, i);
    }
    ChunkRowsWithin(parts, chunks, ByCode(Kept(rows, parts)));
    KeptRowsArrive(rows, parts, chunks);
  }

  lemma KeptRowsArrive(rows: seq<MoveRow>, parts: seq<set<string>>, chunks: seq<Wire>)
    requires ChunkSummaries(rows, parts, chunks)
    ensures var kept := ByCode(Kept(rows, parts));
            forall k | k in kept :: DebitRow(kept[k]) in AllRows(chunks) && CreditRow(kept[k]) in AllRows(chunks)
  {
    var kept := ByCode(Kept(rows, parts));
    forall k | k in kept
      ensures DebitRow(kept[k]) in AllRows(chunks) && CreditRow(kept[k]) in AllRows(chunks)
    {
      KeptArrives(rows, parts, chunks, kept[k]);
    }
  }

  lemma ValuesByCode(s: set<Customer>)
    requires OnePerCode(s)
    ensures ByCode(s).Values == s
  {
    assert forall c | c in s :: c.code in ByCode(s) && ByCode(s)[c.code] == c;
  }

  lemma MergeSeesKept(rows: seq<MoveRow>, parts: seq<set<string>>, chunks: seq<Wire>)
    requires Disjoint(parts) && ChunkSummaries(rows, parts, chunks)
    ensures Regrouped(AllRows(chunks)) == Kept(rows, parts)
  {
    KeptArePairs(rows, parts, chunks);
    RegroupPairs(AllRows(chunks), ByCode(Kept(rows, parts)));
    ValuesByCode(Kept(rows, parts));
  }

  lemma ChunkWinner(rows: seq<MoveRow>, parts: seq<set<string>>, i: nat, c: Customer)
    requires i < |parts| && c in TopCustomers(Owned(rows, parts[i]))
    ensures c.code in parts[i] && c in Kept(rows, parts)
  {
    OwnedCustomers(rows, parts[i]);
    assert c in CustomersOf(Owned(rows, parts[i]));
  }

  lemma KeptHoldsTheWinners(rows: seq<MoveRow>, parts: seq<set<string>>)
    requires forall r | r in rows :: r.cust in Union(parts)
    ensures TopK(Kept(rows, parts), NetBefore, 10) == TopCustomers(rows)
  {
    var s := CustomersOf(rows);
    TotalOnOnePerCode(s);
    forall c | c in TopCustomers(rows)
      ensures c in Kept(rows, parts)
    {
      var r :| r in rows && r.cust == c.code;
      UnionMember(parts, c.code);
      var i :| 0 <= i < |parts| && c.code in parts[i];
      OwnedCustomers(rows, parts[i]);
      TopKOfPart(s, CustomersOf(Owned(rows, parts[i])), NetBefore, 10);
      assert c in TopCustomers(Owned(rows, parts[i]));
    }
    TopKOfKept(s, Kept(rows, parts), NetBefore, 10);
  }

  lemma {:induction false} TwoRowsArePairs(items: seq<Customer>, customers: map<string, Customer>)
    requires Distinct(items)
    requires forall i | 0 <= i < |items| :: items[i].code in customers && customers[items[i].code] == items[i]
    ensures Distinct(TwoRows(items))
    ensures forall r | r in TwoRows(items) ::
            r.cust in customers && OfCustomer(r, customers[r.cust]) && customers[r.cust] in items
    ensures forall i | 0 <= i < |items| :: DebitRow(items[i]) in TwoRows(items) && CreditRow(items[i]) in TwoRows(items)
  {
    if items != [] {
      var front, c := items[..|items| - 1], items[|items| - 1];
      assert items == front + [c];
      TwoRowsArePairs(front, customers);
      DistinctConcat(TwoRows(front), [DebitRow(c), CreditRow(c)]);
      forall i | 0 <= i < |items|
        ensures DebitRow(items[i]) in TwoRows(items) && CreditRow(items[i]) in TwoRows(items)
      {
        if i < |front| {
          assert DebitRow(front[i]) in TwoRows(front) && CreditRow(front[i]) in TwoRows(front);
        }
      }
    }
  }

  // ---- The dashboard built from a result ----

  datatype ArDashboard = ArDashboard(kpis: Option<Metrics>, ranking: set<(int, string, int, int)>)

  /** A metric-only row is read as a customer without code, name or amount. */
  function VisibleRows(wire: Wire): seq<MoveRow> {
    if wire == [] then []
    else [match wire[0].item case Some(r) => r case None => MoveRow("", "", 0, 0)] + VisibleRows(wire[1..])
  }

  function Label(c: Customer): string {
    if c.name != "" then c.name else c.code
  }

  /** The ranked customers, each with its place, label, debit and credit. */
  ghost function Dashboard(wire: Wire): ArDashboard {
    var customers := Regrouped(VisibleRows(wire));
    ArDashboard(MetricsIn(wire),
                set c | c in TopK(customers, NetBefore, 10) ::
                  (Rank(customers, NetBefore, c), Label(c), c.debit, c.credit))
  }

  lemma {:induction false} VisibleIsReal(rows: seq<MoveRow>, metrics: Metrics)
    ensures VisibleRows(Attach(rows, metrics)) == if rows == [] then [MoveRow("", "", 0, 0)] else rows
  {
    if |rows| > 1 {
      VisibleIsReal(rows[1..], metrics);
      assert Attach(rows, metrics)[1..] == Attach(rows[1..], metrics);
      assert rows == [rows[0]] + rows[1..];
    } else {
      assert Attach(rows, metrics)[1..] == [];
    }
  }

  lemma PairsShow(wire: Wire, rows: seq<MoveRow>, metrics: Metrics, customers: map<string, Customer>)
    requires wire == Attach(rows, metrics)
    requires ArePairs(rows, customers)
    ensures customers != map[] ==> Regrouped(VisibleRows(wire)) == customers.Values
    ensures customers == map[] ==> rows == []
  {
    VisibleIsReal(rows, metrics);
    assert rows == [] || rows[0] in rows;
    if customers != map[] {
      RegroupPairs(rows, customers);
      var k :| k in customers;
      assert DebitRow(customers[k]) in rows;
    }
  }

  // ---- Main result ----

  /**
   For every set of movement rows and every way of splitting the customers into disjoint
   chunks, merging the chunk summaries yields the overall top ten customers with their full
   debit and credit, the overall totals, and the same dashboard as one summary.
   */
  lemma ChunkedArIsExact(rows: seq<MoveRow>, parts: seq<set<string>>, chunks: seq<Wire>,
                         ranked: seq<Customer>, merged: Wire, direct: Wire)
    requires Disjoint(parts)
    requires forall r | r in rows :: r.cust in Union(parts)
    requires ChunkSummaries(rows, parts, chunks)
    requires IsMerge(chunks, ranked, merged) && IsSummary(rows, direct)
    ensures Elements(FirstTen(ranked)) == TopCustomers(rows)
    ensures Elements(RealRows(merged)) == Elements(RealRows(direct))
    ensures MetricsIn(merged) == MetricsIn(direct) == Some(MetricsOf(rows))
    ensures Dashboard(merged) == Dashboard(direct)
  {
    var top, winners := FirstTen(ranked), ByCode(TopCustomers(rows));
    WinnersAreMerged(rows, parts, chunks, ranked);
    TopPairs(rows, top);
    ChunkMetricsAddUp(rows, parts, chunks);
    OwnedAll(rows, Union(parts));
    AttachReadsBack(TwoRows(top), MetricsOf(rows));
    IsSummaryReads(rows, direct);
    SameRows(RealRows(merged), RealRows(direct), winners);
    SameDashboard(merged, direct, TwoRows(top), RealRows(direct), MetricsOf(rows), winners);
  }

  lemma WinnersAreMerged(rows: seq<MoveRow>, parts: seq<set<string>>, chunks: seq<Wire>, ranked: seq<Customer>)
    requires Disjoint(parts)
    requires forall r | r in rows :: r.cust in Union(parts)
    requires ChunkSummaries(rows, parts, chunks)
    requires Ordered(ranked, NetBefore) && Elements(ranked) == Regrouped(AllRows(chunks))
    ensures Elements(FirstTen(ranked)) == TopCustomers(rows) && Distinct(FirstTen(ranked))
  {
    var kept := Kept(rows, parts);
    MergeSeesKept(rows, parts, chunks);
    KeptHoldsTheWinners(rows, parts);
    TotalOnOnePerCode(kept);
    PrefixIsTopK(ranked, kept, NetBefore, 10);
    TopIsDistinct(ranked, kept);
  }

  lemma TopPairs(rows: seq<MoveRow>, top: seq<Customer>)
    requires Elements(top) == TopCustomers(rows) && Distinct(top)
    ensures ArePairs(TwoRows(top), ByCode(TopCustomers(rows)))
  {
    assert forall i | 0 <= i < |top| :: top[i] in Elements(top);
    TwoRowsArePairs(top, ByCode(TopCustomers(rows)));
  }

  lemma SameDashboard(merged: Wire, direct: Wire, a: seq<MoveRow>, b: seq<MoveRow>, metrics: Metrics,
                      customers: map<string, Customer>)
    requires merged == Attach(a, metrics) && direct == Attach(b, metrics)
    requires ArePairs(a, customers) && ArePairs(b, customers)
    requires MetricsIn(merged) == MetricsIn(direct)
    ensures Dashboard(merged) == Dashboard(direct)
  {
    PairsShow(merged, a, metrics, customers);
    PairsShow(direct, b, metrics, customers);
    if customers == map[] {
      assert merged == direct;
    } else {
      assert Regrouped(VisibleRows(merged)) == Regrouped(VisibleRows(direct));
    }
  }

  lemma SameRows(a: seq<MoveRow>, b: seq<MoveRow>, customers: map<string, Customer>)
    requires ArePairs(a, customers) && ArePairs(b, customers)
    ensures Elements(a) == Elements(b)
  {
    forall r | r in a
      ensures r in b
    {
      assert r.cust in customers && OfCustomer(r, customers[r.cust]);
    }
    forall r | r in b
      ensures r in a
    {
      assert r.cust in customers && OfCustomer(r, customers[r.cust]);
    }
  }

  lemma TopIsDistinct(ranked: seq<Customer>, kept: set<Customer>)
    requires Ordered(ranked, NetBefore) && Elements(ranked) == kept && OnePerCode(kept)
    ensures Distinct(FirstTen(ranked)) && OnePerCode(Elements(FirstTen(ranked)))
  {
    TotalOnOnePerCode(kept);
    assert forall i | 0 <= i < |ranked| :: ranked[i] in Elements(ranked);
    assert forall i | 0 <= i < |FirstTen(ranked)| :: FirstTen(ranked)[i] == ranked[i];
  }

  /** The same for a run as executed, from the manifest rows and the configured size. */
  lemma ChunkedArRunIsExact(rows: seq<MoveRow>, units: seq<string>, size: nat, keys: seq<string>, chunks: seq<Wire>,
                            ranked: seq<Customer>, merged: Wire, direct: Wire)
    requires forall r | r in rows :: r.cust in units
    requires Ordered(keys, KeyBefore) && Elements(keys) == Elements(units)
    requires ChunkSummaries(rows, KeySets(Split(keys, ChunkSize(size))), chunks)
    requires IsMerge(chunks, ranked, merged) && IsSummary(rows, direct)
    ensures Elements(RealRows(merged)) == Elements(RealRows(direct))
    ensures MetricsIn(merged) == MetricsIn(direct)
    ensures Dashboard(merged) == Dashboard(direct)
  {
    SplitKeySets(keys, ChunkSize(size));
    assert forall u | u in units :: u in Elements(units);
    ChunkedArIsExact(rows, KeySets(Split(keys, ChunkSize(size))), chunks, ranked, merged, direct);
  }
}
