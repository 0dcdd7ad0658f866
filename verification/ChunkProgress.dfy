/**
 Chunk rows and the progress counters of a run, and the loop that works the chunks off. The run
 row may change between any two calls: heartbeats extend it, recovery may fail it.
 */
module ChunkProgress {
  import opened Options
  import opened ReportTables
  import ReportSteps

  datatype ChunkStatus = Waiting | Working | Done | Lost

  datatype Progress = Progress(run: Run, completed: nat, total: nat, chunks: seq<ChunkStatus>)

  predicate Held(r: Run, worker: WorkerId, now: int) {
    r.status.Running? && r.claimedBy == Some(worker) && r.lease.Some? && now <= r.lease.value
  }

  /** The same lease that guards the calls on the run itself. */
  lemma HeldByLease(runs: map<RunId, Run>, id: RunId, worker: WorkerId, now: int)
    requires id in runs
    ensures Held(runs[id], worker, now) <==> runs[id].status.Running? && ReportSteps.Holds(runs, id, worker, now)
  {
  }

  /** Chunk numbers start at one. */
  predicate InState(chunks: seq<ChunkStatus>, number: nat, status: ChunkStatus) {
    1 <= number <= |chunks| && chunks[number - 1] == status
  }

  datatype Call =
    | Prepare(count: nat)
    | Start(number: nat)
    | Complete(number: nat)
    | Fail(number: nat)
    | RowBecomes(row: Run)

  function Apply(p: Progress, c: Call, worker: WorkerId, now: int): Progress {
    match c
    case RowBecomes(row) => p.(run := row)
    case Prepare(count) =>
      if Held(p.run, worker, now) then Progress(p.run, 0, count, seq(count, i => Waiting)) else p
    case Start(number) =>
      if Held(p.run, worker, now) && InState(p.chunks, number, Waiting) then
        p.(chunks := p.chunks[number - 1 := Working]) else p
    case Complete(number) =>
      if Held(p.run, worker, now) && InState(p.chunks, number, Working) then
        p.(chunks := p.chunks[number - 1 := Done], completed := p.completed + 1)
      else p
    case Fail(number) =>
      if Held(p.run, worker, now) && InState(p.chunks, number, Working) then p.(chunks := p.chunks[number - 1 := Lost])
      else p
  }

  function CountDone(chunks: seq<ChunkStatus>): nat {
    if chunks == [] then 0 else CountDone(chunks[..|chunks| - 1]) + if chunks[|chunks| - 1].Done? then 1 else 0
  }

  ghost predicate Tracks(p: Progress) {
    p.total == |p.chunks| && p.completed == CountDone(p.chunks)
  }

  lemma {:induction false} CountDoneUpdate(chunks: seq<ChunkStatus>, i: nat, s: ChunkStatus)
    requires i < |chunks| && !chunks[i].Done?
    ensures CountDone(chunks[i := s]) == CountDone(chunks) + if s.Done? then 1 else 0
  {
    var n := |chunks| - 1;
    if i < n {
      CountDoneUpdate(chunks[..n], i, s);
      assert chunks[i := s][..n] == chunks[..n][i := s];
    } else {
      assert chunks[i := s][..n] == chunks[..n];
    }
  }

  lemma {:induction false} CountDoneNone(chunks: seq<ChunkStatus>)
    requires forall c | c in chunks :: !c.Done?
    ensures CountDone(chunks) == 0
  {
    if chunks != [] {
      CountDoneNone(chunks[..|chunks| - 1]);
    }
  }

  lemma {:induction false} CountDoneAll(chunks: seq<ChunkStatus>)
    ensures CountDone(chunks) <= |chunks|
    ensures CountDone(chunks) == |chunks| <==> forall c | c in chunks :: c.Done?
  {
    if chunks != [] {
      var front, last := chunks[..|chunks| - 1], chunks[|chunks| - 1];
      CountDoneAll(front);
      assert chunks == front + [last];
    }
  }

  lemma ApplyTracks(p: Progress, c: Call, worker: WorkerId, now: int)
    requires Tracks(p)
    ensures Tracks(Apply(p, c, worker, now))
  {
    match c
    case Prepare(count) => CountDoneNone(seq(count, i => Waiting));
    case Start(number) => if InState(p.chunks, number, Waiting) { CountDoneUpdate(p.chunks, number - 1, Working); }
    case Complete(number) => if InState(p.chunks, number, Working) { CountDoneUpdate(p.chunks, number - 1, Done); }
    case Fail(number) => if InState(p.chunks, number, Working) { CountDoneUpdate(p.chunks, number - 1, Lost); }
    case RowBecomes(_) =>
  }

  datatype TimedCall = TimedCall(worker: WorkerId, now: int, call: Call)

  function Replay(p: Progress, calls: seq<TimedCall>): Progress {
    if calls == [] then p
    else var c := calls[|calls| - 1]; Apply(Replay(p, calls[..|calls| - 1]), c.call, c.worker, c.now)
  }

  /** Whoever calls what and when, the counter is the number of finished chunks and never exceeds the total. */
  lemma {:induction false} CounterIsExact(row: Run, calls: seq<TimedCall>)
    ensures var p := Replay(Progress(row, 0, 0, []), calls);
            Tracks(p) && p.completed <= p.total && (p.completed == p.total <==> forall c | c in p.chunks :: c.Done?)
  {
    var p := Replay(Progress(row, 0, 0, []), calls);
    if calls != [] {
      var c := calls[|calls| - 1];
      CounterIsExact(row, calls[..|calls| - 1]);
      ApplyTracks(Replay(Progress(row, 0, 0, []), calls[..|calls| - 1]), c.call, c.worker, c.now);
    }
    CountDoneAll(p.chunks);
  }

  class ChunkStore {
    var run: Run
    var completed: nat
    var total: nat
    var chunks: seq<ChunkStatus>

    constructor (row: Run)
      ensures State() == Progress(row, 0, 0, []) && Tracks(State())
    {
      run, completed, total, chunks := row, 0, 0, [];
    }

    function State(): Progress
      reads this
    {
      Progress(run, completed, total, chunks)
    }

    method PrepareChunks(worker: WorkerId, count: nat, now: int) returns (ok: bool)
      modifies `completed, `total, `chunks
      ensures ok == Held(old(run), worker, now)
      ensures State() == Apply(old(State()), Prepare(count), worker, now)
      ensures ok ==> completed == 0 && total == |chunks| == count && forall c | c in chunks :: c.Waiting?
    {
      ok := Held(run, worker, now);
      if ok {
        completed, total, chunks := 0, count, [];
        for i := 0 to count
          invariant chunks == seq(i, k => Waiting) && completed == 0 && total == count
        {
          chunks := chunks + [Waiting];
        }
      }
    }

    method StartChunk(worker: WorkerId, number: nat, now: int) returns (ok: bool)
      modifies `chunks
      ensures ok == (Held(old(run), worker, now) && InState(old(chunks), number, Waiting))
      ensures State() == Apply(old(State()), Start(number), worker, now)
      ensures chunks == if ok then old(chunks)[number - 1 := Working] else old(chunks)
    {
      ok := Held(run, worker, now) && InState(chunks, number, Waiting);
      if ok {
        chunks := chunks[number - 1 := Working];
      }
    }

    method CompleteChunk(worker: WorkerId, number: nat, now: int) returns (ok: bool)
      modifies `completed, `chunks
      ensures ok == (Held(old(run), worker, now) && InState(old(chunks), number, Working))
      ensures State() == Apply(old(State()), Complete(number), worker, now)
      ensures chunks == if ok then old(chunks)[number - 1 := Done] else old(chunks)
    {
      ok := Held(run, worker, now) && InState(chunks, number, Working);
      if ok {
        chunks := chunks[number - 1 := Done];
        completed := completed + 1;
      }
    }

    method FailChunk(worker: WorkerId, number: nat, now: int) returns (ok: bool)
      modifies `chunks
      ensures ok == (Held(old(run), worker, now) && InState(old(chunks), number, Working))
      ensures State() == Apply(old(State()), Fail(number), worker, now)
      ensures chunks == if ok then old(chunks)[number - 1 := Lost] else old(chunks)
    {
      ok := Held(run, worker, now) && InState(chunks, number, Working);
      if ok {
        chunks := chunks[number - 1 := Lost];
      }
    }

    /** One turn of the loop; row and later are the run rows its two calls find. */
    method WorkChunk(worker: WorkerId, i: nat, row: Run, later: Run, start: int, end: int, answered: bool)
      returns (ok: bool)
      requires Tracks(State()) && i < total
      modifies this
      ensures Tracks(State()) && total == old(total)
      ensures ok ==> chunks == old(chunks)[i := Done]
      ensures ok == (answered && old(chunks)[i].Waiting? && Held(row, worker, start) && Held(later, worker, end))
    {
      run := row;
      ghost var before := State();
      ok := StartChunk(worker, i + 1, start);
      ApplyTracks(before, Start(i + 1), worker, start);
      if !ok {
        return false;
      }
      run := later;
      before := State();
      if answered {
        ok := CompleteChunk(worker, i + 1, end);
        ApplyTracks(before, Complete(i + 1), worker, end);
      } else {
        var _ := FailChunk(worker, i + 1, end);
        ApplyTracks(before, Fail(i + 1), worker, end);
        ok := false;
      }
    }

    /** The worker holds the run in both calls of chunk i. */
    static predicate HeldThrough(worker: WorkerId, i: nat, row: nat -> Run, clock: nat -> int) {
      Held(row(2 * i + 1), worker, clock(2 * i + 1)) && Held(row(2 * i + 2), worker, clock(2 * i + 2))
    }

    /**
     The chunk loop of the worker. row(k) is the run row the k-th call finds, clock(k) the time of
     that call, and answered(i) says whether the queries of chunk i succeeded.
     */
    method ExecuteChunked(worker: WorkerId, count: nat, row: nat -> Run, clock: nat -> int, answered: nat -> bool)
      returns (finished: bool)
      requires Tracks(State())
      modifies this
      ensures Tracks(State())
      ensures finished ==> completed == total == count && forall c | c in chunks :: c.Done?
      ensures finished <==> Held(row(0), worker, clock(0)) && forall i | 0 <= i < count ::
                answered(i) && HeldThrough(worker, i, row, clock)
    {
      run := row(0);
      ghost var before := State();
      var ok := PrepareChunks(worker, count, clock(0));
      ApplyTracks(before, Prepare(count), worker, clock(0));
      if !ok {
        return false;
      }
      for i := 0 to count
        invariant Tracks(State()) && total == count
        invariant forall k | i <= k < count :: chunks[k].Waiting?
        invariant forall k | 0 <= k < i :: chunks[k].Done? && answered(k) && HeldThrough(worker, k, row, clock)
      {
        ok := WorkChunk(worker, i, row(2 * i + 1), row(2 * i + 2), clock(2 * i + 1), clock(2 * i + 2), answered(i));
        if !ok {
          return false;
        }
      }
      CountDoneAll(chunks);
      finished := true;
    }
  }
}
