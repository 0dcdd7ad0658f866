/**
 The row form in which a summary result travels: every row repeats the metrics of the
 whole result, and a result without rows is one row that only carries metrics.
 */
module ChunkWire {
  import opened Options

  datatype WireRow<+R, +M> = WireRow(item: Option<R>, metrics: M)

  type Wire<R, M> = seq<WireRow<R, M>>

  function Attach<R, M>(rows: seq<R>, metrics: M): Wire<R, M> {
    if rows == [] then [WireRow(None, metrics)]
    else seq(|rows|, i requires 0 <= i < |rows| => WireRow(Some(rows[i]), metrics))
  }

  function RealRows<R, M>(wire: Wire<R, M>): seq<R> {
    if wire == [] then []
    else (match wire[0].item case Some(r) => [r] case None => []) + RealRows(wire[1..])
  }

  /** The first row carrying metrics answers; a result without any row has none. */
  function MetricsIn<R, M>(wire: Wire<R, M>): Option<M> {
    if wire == [] then None else Some(wire[0].metrics)
  }

  /** What is attached is read back: the rows in order and the metrics. */
  lemma {:induction false} AttachReadsBack<R, M>(rows: seq<R>, metrics: M)
    ensures RealRows(Attach(rows, metrics)) == rows
    ensures MetricsIn(Attach(rows, metrics)) == Some(metrics)
  {
    if |rows| > 1 {
      AttachReadsBack(rows[1..], metrics);
      assert Attach(rows, metrics)[1..] == Attach(rows[1..], metrics);
      assert rows == [rows[0]] + rows[1..];
    } else if |rows| == 1 {
      assert Attach(rows, metrics)[1..] == [];
    }
  }

  /** The rows of all chunks, in chunk order. */
  function AllRows<R, M>(chunks: seq<Wire<R, M>>): seq<R> {
    if chunks == [] then [] else AllRows(chunks[..|chunks| - 1]) + RealRows(chunks[|chunks| - 1])
  }

  lemma {:induction false} RowsArrive<R, M>(chunks: seq<Wire<R, M>>, i: nat, r: R)
    requires i < |chunks| && r in RealRows(chunks[i])
    ensures r in AllRows(chunks)
    decreases |chunks|
  {
    var n := |chunks| - 1;
    if i < n {
      RowsArrive(chunks[..n], i, r);
    }
  }

  function FirstTen<T>(a: seq<T>): seq<T> {
    if |a| > 10 then a[..10] else a
  }

  function Abs(n: int): (size: nat)
    ensures size == n || size == -n
  {
    if n < 0 then -n else n
  }
}
