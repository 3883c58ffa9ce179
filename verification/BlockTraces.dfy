/**
  What the refinement means for the engine: whenever the lock is free, the native trace of a host
  is what its run has on record, block after block. So `qwfsUpdate` never sees a partly published
  batch, and one `Update`'s progress, responses and status have no call of the worker between them.
 */
module BlockTraces {
  import opened NativeTrace
  import opened HostProtocol
  import opened HostInvariants
  import opened BlockRecords
  import opened AtomicHost

  predicate WellFormed(rec: Record) {
    match rec
    case Lifecycle(e) => e.who.AppThread? && LifecycleCall(e.call)
    case Batch(b, k, Complete) => k == Length(b)
    case Batch(b, k, CallThrew) => k < Length(b)
    case Batch(b, k, Faulted) => b.Publish? && k <= Length(b)
    case Turn(_, _) => true
  }

  /** `t` followed by the first k calls of the block, each begun and returned, nothing in between. */
  function Completed(t: Trace, b: Block, k: nat): Trace
    requires k <= Length(b)
  {
    if k == 0 then t
    else
      var c := CallAt(b, k - 1);
      Then(Then(Completed(t, b, k - 1), Begin(AppThread, c)), Return(AppThread, c))
  }

  function Play(t: Trace, rec: Record): Trace
    requires WellFormed(rec)
  {
    match rec
    case Lifecycle(e) => Then(t, e)
    case Batch(b, k, CallThrew) =>
      Then(Then(Completed(t, b, k), Begin(AppThread, CallAt(b, k))), Throw(AppThread, CallAt(b, k)))
    case Batch(b, k, _) => Completed(t, b, k)
    case Turn(j, ok) => Then(Then(t, Begin(WorkerThread, JobCall(j))), Ended(ok, WorkerThread, JobCall(j)))
  }

  predicate AllWellFormed(recs: seq<Record>) {
    forall i :: 0 <= i < |recs| ==> WellFormed(recs[i])
  }

  function Replay(recs: seq<Record>): Trace
    requires AllWellFormed(recs)
  {
    if recs == [] then Empty else Play(Replay(recs[..|recs|-1]), recs[|recs|-1])
  }

  // ---------------------------------------------------------------------------------------------
  // One block

  /** Where an uninterrupted application block stands, by its own tally. */
  predicate AppBlockAt(v: View, w: View, t: Tally) {
    && v.app.Wanting?
    && AppHoldsLock(w) && w.app.b == v.app.b
    && match w.app
       case Holding(b, i) => t == Tally(i, Complete) && i <= Length(b) && w.calls == Completed(v.calls, b, i)
       case Calling(b, i) =>
         t == Tally(i, Complete) && i < Length(b) && w.calls == Then(Completed(v.calls, b, i), Begin(AppThread, CallAt(b, i)))
       case Raised(b) =>
         var rec := Batch(b, t.returned, t.outcome);
         !t.outcome.Complete? && WellFormed(rec) && w.calls == Play(v.calls, rec)
       case _ => false
  }

  lemma AppBlockStep(v: View, w: View, a: Action, t: Tally)
    requires AppBlockAt(v, w, t) && Enabled(w, a) && Inner(AppThread, a)
    ensures AppBlockAt(v, After(w, a), Tallied(t, a))
  {
  }

  lemma {:induction false} AppBlockUnderway(v: View, acts: seq<Action>)
    requires CanDo(v, acts) && Opened(AppThread, acts)
    ensures AppBlockAt(v, Do(v, acts), TallyOf(acts))
  {
    var before, a := acts[..|acts|-1], acts[|acts|-1];
    if before == [] {
      assert Do(v, before) == v;
    } else {
      assert Opened(AppThread, before);
      AppBlockUnderway(v, before);
      AppBlockStep(v, Do(v, before), a, TallyOf(before));
    }
  }

  /** A whole block of the application extends the native trace by its own calls and nothing else. */
  lemma AppBlockPlays(v: View, acts: seq<Action>)
    requires CanDo(v, acts) && WholeBlock(AppThread, acts)
    ensures v.app.Wanting?
    ensures var t := TallyOf(acts[..|acts|-1]);
            var rec := Batch(v.app.b, t.returned, t.outcome);
            && Concluded(Do(v, acts[..|acts|-1]), t, acts[|acts|-1]) == [rec]
            && WellFormed(rec)
            && Do(v, acts).calls == Play(v.calls, rec)
            && (Do(v, acts).app.Returning? <==> rec.b.Poll? && rec.outcome.Complete?)
  {
    AppBlockUnderway(v, acts[..|acts|-1]);
  }

  predicate WorkerBlockAt(v: View, w: View) {
    && v.worker.WWanting?
    && WorkerHoldsLock(w) && w.worker.job == v.worker.job
    && var begun := Then(v.calls, Begin(WorkerThread, JobCall(v.worker.job)));
       match w.worker
       case WHolding(_) => w.calls == v.calls
       case WCalling(_) => w.calls == begun
       case WReturned(j) => w.calls == Then(begun, Return(WorkerThread, JobCall(j)))
       case WRaised(j) => w.calls == Then(begun, Throw(WorkerThread, JobCall(j)))
       case _ => false
  }

  lemma {:induction false} WorkerBlockUnderway(v: View, acts: seq<Action>)
    requires CanDo(v, acts) && Opened(WorkerThread, acts)
    ensures WorkerBlockAt(v, Do(v, acts))
  {
    var before := acts[..|acts|-1];
    if before == [] {
      assert Do(v, before) == v;
    } else {
      assert Opened(WorkerThread, before);
      WorkerBlockUnderway(v, before);
    }
  }

  /** A whole block of the worker is one native call. */
  lemma WorkerBlockPlays(v: View, acts: seq<Action>)
    requires CanDo(v, acts) && WholeBlock(WorkerThread, acts)
    ensures v.worker.WWanting?
    ensures var w := Do(v, acts[..|acts|-1]);
            var rec := Turn(v.worker.job, w.worker.WReturned?);
            && Concluded(w, TallyOf(acts[..|acts|-1]), acts[|acts|-1]) == [rec]
            && Do(v, acts).calls == Play(v.calls, rec)
  {
    WorkerBlockUnderway(v, acts[..|acts|-1]);
  }

  // ---------------------------------------------------------------------------------------------
  // Whole runs

  lemma Appended(recs: seq<Record>, rec: Record)
    requires AllWellFormed(recs) && WellFormed(rec)
    ensures AllWellFormed(recs + [rec]) && Replay(recs + [rec]) == Play(Replay(recs), rec)
  {
    assert (recs + [rec])[..|recs + [rec]|-1] == recs;
  }

  lemma CreationReplays()
    ensures AllWellFormed(Creation) && Replay(Creation) == Born.calls
  {
    var create := Lifecycle(Begin(AppThread, Create));
    Appended([], create);
    Appended([create], Lifecycle(Return(AppThread, Create)));
    assert [] + [create] == [create];
    assert [create] + [Lifecycle(Return(AppThread, Create))] == Creation;
  }

  lemma SingleReplays(recs: seq<Record>, v: View, a: Action)
    requires AllWellFormed(recs) && Replay(recs) == v.calls && Enabled(v, a) && Unlocked(a)
    ensures var more := recs + Concluded(v, Opening, a);
            AllWellFormed(more) && Replay(more) == After(v, a).calls
  {
    var rec := Concluded(v, Opening, a);
    if rec == [] {
      assert recs + rec == recs;
    } else {
      Appended(recs, rec[0]);
    }
  }

  lemma {:induction false} AtomicTraceReplays(ar: AtomicRun)
    requires AtomicValid(ar)
    ensures AllWellFormed(AtomicRecords(ar)) && Replay(AtomicRecords(ar)) == AtomicEnd(ar).calls
  {
    match ar
    case Start => CreationReplays();
    case Next(earlier, step) =>
      AtomicTraceReplays(earlier);
      var v := AtomicEnd(earlier);
      match step {
        case Single(a) => SingleReplays(AtomicRecords(earlier), v, a);
        case Atomic(t, acts) =>
          var before := acts[..|acts|-1];
          if t.AppThread? {
            AppBlockPlays(v, acts);
          } else {
            WorkerBlockPlays(v, acts);
          }
          Appended(AtomicRecords(earlier), Concluded(Do(v, before), TallyOf(before), acts[|acts|-1])[0]);
      }
  }

  /**
    In every concurrent run, whenever the lock is free, the native trace is what the run has on
    record, one whole block after the other.
   */
  lemma NativeTraceIsWholeBlocks(r: Run)
    requires Valid(r) && End(r).lock.Free?
    ensures AllWellFormed(Records(r)) && Replay(Records(r)) == End(r).calls
  {
    var ar, open := Atomise(r);
    AtomicTraceReplays(ar);
  }

  /** The blocks the application has entered, in order. */
  function Entered(r: Run): seq<Block> {
    match r
    case Birth => []
    case Act(earlier, a) => Entered(earlier) + if a.Enter? then [a.b] else []
  }

  /** The application's blocks on record. */
  function Blocks(recs: seq<Record>): seq<Block> {
    if recs == [] then []
    else Blocks(recs[..|recs|-1]) + if recs[|recs|-1].Batch? then [recs[|recs|-1].b] else []
  }

  lemma {:induction false} BlocksConcat(recs: seq<Record>, more: seq<Record>)
    ensures Blocks(recs + more) == Blocks(recs) + Blocks(more)
  {
    if more == [] {
      assert recs + more == recs;
    } else {
      var before := more[..|more|-1];
      assert (recs + more)[..|recs + more|-1] == recs + before;
      BlocksConcat(recs, before);
    }
  }

  lemma NoBlockInCreation()
    ensures Blocks(Creation) == []
  {
    assert Creation[..1] == [Creation[0]];
    assert Blocks([Creation[0]]) == [];
  }

  predicate InOpenBlock(v: View) {
    v.app.Wanting? || AppHoldsLock(v)
  }

  /** The block the application is in, until it gives the lock back. */
  function OpenBlock(v: View): seq<Block> {
    if InOpenBlock(v) then [v.app.b] else []
  }

  /** An action enters a block, puts the open one on record, or leaves both alone. */
  lemma BlockStep(v: View, t: Tally, a: Action)
    requires Inv(v) && Enabled(v, a)
    ensures OpenBlock(v) + (if a.Enter? then [a.b] else []) == Blocks(Concluded(v, t, a)) + OpenBlock(After(v, a))
  {
    if OfWorker(a) {
      WorkerBlockStep(v, t, a);
    }
  }

  lemma WorkerBlockStep(v: View, t: Tally, a: Action)
    requires WorkerEnabled(v, a) && OfWorker(a)
    ensures Blocks(Concluded(v, t, a)) == [] && OpenBlock(WorkerAfter(v, a)) == OpenBlock(v)
  {
  }

  lemma Regroup<T>(xs: seq<T>, open: seq<T>, entered: seq<T>, recorded: seq<T>, open': seq<T>)
    requires open + entered == recorded + open'
    ensures xs + open + entered == xs + recorded + open'
  {
    assert xs + open + entered == xs + (open + entered);
    assert xs + recorded + open' == xs + (recorded + open');
  }

  /** The blocks on record are those the application entered, in that order, but for the one it is in. */
  lemma {:induction false} RecordedBlocksWereEntered(r: Run)
    requires Valid(r)
    ensures Entered(r) == Blocks(Records(r)) + OpenBlock(End(r))
  {
    match r
    case Birth => NoBlockInCreation();
    case Act(earlier, a) =>
      var v := End(earlier);
      var c := Concluded(v, RunTally(earlier), a);
      RecordedBlocksWereEntered(earlier);
      RunKeepsInv(earlier);
      BlockStep(v, RunTally(earlier), a);
      BlocksConcat(Records(earlier), c);
      Regroup(Blocks(Records(earlier)), OpenBlock(v), if a.Enter? then [a.b] else [], Blocks(c), OpenBlock(After(v, a)));
  }

  /**
    And when `qwfsUpdate`, or any other call of the worker, begins, nothing but what is on record
    came before, the application is in no block, and every block it entered and that is not still
    waiting for the lock is on record as a whole: all its calls, unless something threw.
   */
  lemma WorkerSeesWholeBlocks(r: Run)
    requires Valid(r) && End(r).worker.WCalling?
    ensures AllWellFormed(Records(r)) && !AppHoldsLock(End(r))
    ensures End(r).calls == Then(Replay(Records(r)), Begin(WorkerThread, JobCall(End(r).worker.job)))
    ensures Entered(r) == Blocks(Records(r)) + if End(r).app.Wanting? then [End(r).app.b] else []
    ensures forall i :: 0 <= i < |Records(r)| && Records(r)[i].Batch? && Records(r)[i].outcome.Complete? ==>
              Records(r)[i].returned == Length(Records(r)[i].b)
  {
    var ar, open := Atomise(r);
    RunKeepsInv(r);
    WorkerBlockUnderway(AtomicEnd(ar), open);
    AtomicTraceReplays(ar);
    RecordedBlocksWereEntered(r);
  }

  // ---------------------------------------------------------------------------------------------
  // Update and PublishRequest, call by call

  /** While the application holds the lock, what is on record is followed by its own calls only. */
  lemma AppAddsItsOwnCalls(r: Run)
    requires Valid(r) && End(r).lock.ByApp?
    ensures AllWellFormed(Records(r))
    ensures exists start: View :: start.calls == Replay(Records(r)) && AppBlockAt(start, End(r), RunTally(r))
  {
    var ar, open := Atomise(r);
    AtomicTraceReplays(ar);
    AppBlockUnderway(AtomicEnd(ar), open);
    assert AtomicEnd(ar).calls == Replay(Records(r)) && AppBlockAt(AtomicEnd(ar), End(r), RunTally(r));
  }

  function Called(t: Trace, who: Thread, c: Call): Trace {
    Then(Then(t, Begin(who, c)), Return(who, c))
  }

  /**
    When an `Update` in which nothing threw gives the lock back, the native trace ends in its
    progress, callbacks and status, right after what was on record when it took the lock.
   */
  lemma UpdateIsThreeCalls(r: Run)
    requires Valid(r) && Enabled(End(r), Release) && End(r).app.b.Poll? && RunTally(r).outcome.Complete?
    ensures AllWellFormed(Records(r))
    ensures End(r).calls ==
            Called(Called(Called(Replay(Records(r)), AppThread, GetProgress), AppThread, IssueCallbacks), AppThread, GetStatus)
    ensures After(End(r), Release).app.Returning?
  {
    RunKeepsInv(r);
    AppAddsItsOwnCalls(r);
    var t := Replay(Records(r));
    assert Completed(t, Poll, 1) == Called(t, AppThread, GetProgress);
    assert Completed(t, Poll, 2) == Called(Completed(t, Poll, 1), AppThread, IssueCallbacks);
  }

  /** And an error query in which nothing threw has made its one call. */
  lemma DetailIsOneCall(r: Run)
    requires Valid(r) && Enabled(End(r), Release) && End(r).app.b.Detail? && RunTally(r).outcome.Complete?
    ensures AllWellFormed(Records(r))
    ensures End(r).calls == Called(Replay(Records(r)), AppThread, GetErrorDetail)
    ensures After(End(r), Release).app.Away?
  {
    RunKeepsInv(r);
    AppAddsItsOwnCalls(r);
    assert Completed(Replay(Records(r)), Detail, 1) == Called(Replay(Records(r)), AppThread, GetErrorDetail);
  }

  /** The request submissions of a trace that returned, as indices into their batches, oldest first. */
  function Indices(t: Trace): seq<nat> {
    match t
    case Empty => []
    case Then(before, Return(_, GetRequest(k))) => Indices(before) + [k]
    case Then(before, _) => Indices(before)
  }

  function UpTo(k: nat): seq<nat> {
    seq(k, i requires 0 <= i => i)
  }

  /** 0, 1, ..., k - 1 for every batch that got k requests through. */
  function Submitted(recs: seq<Record>): seq<nat> {
    if recs == [] then []
    else
      var rec := recs[|recs|-1];
      Submitted(recs[..|recs|-1]) + if rec.Batch? && rec.b.Publish? then UpTo(rec.returned) else []
  }

  lemma {:induction false} CompletedIndices(t: Trace, b: Block, k: nat)
    requires k <= Length(b)
    ensures Indices(Completed(t, b, k)) == Indices(t) + if b.Publish? then UpTo(k) else []
  {
    if k > 0 {
      CompletedIndices(t, b, k - 1);
      if b.Publish? {
        assert Indices(Completed(t, b, k)) == Indices(Completed(t, b, k - 1)) + [k - 1];
      }
    }
  }

  lemma {:induction false} ReplayedIndices(recs: seq<Record>)
    requires AllWellFormed(recs)
    ensures Indices(Replay(recs)) == Submitted(recs)
  {
    if recs != [] {
      ReplayedIndices(recs[..|recs|-1]);
      var rec := recs[|recs|-1];
      if rec.Batch? {
        CompletedIndices(Replay(recs[..|recs|-1]), rec.b, rec.returned);
      }
    }
  }

  /**
    Over a whole run the requests that reached the engine are, batch after batch, those of the
    batches entered: each batch's first ones in order, each once, and all of them unless something
    threw -- whatever the worker did in between.
   */
  lemma BatchesAreSubmittedInOrder(r: Run)
    requires Valid(r) && End(r).lock.Free?
    ensures Indices(End(r).calls) == Submitted(Records(r))
    ensures forall i :: 0 <= i < |Records(r)| && Records(r)[i].Batch? ==>
              var Batch(b, returned, outcome) := Records(r)[i];
              returned <= Length(b) && (outcome.Complete? ==> returned == Length(b))
  {
    NativeTraceIsWholeBlocks(r);
    ReplayedIndices(Records(r));
  }
}
