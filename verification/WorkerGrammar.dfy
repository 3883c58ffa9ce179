/** The worker's native calls come in iterations of the same shape, whatever the application does. */
module WorkerGrammar {
  import opened NativeTrace
  import opened HostProtocol
  import opened HostInvariants

  /** A native call of the worker that has ended. */
  datatype Done = Done(call: Call, ok: bool)

  /** The worker's finished calls, oldest first. */
  function Finished(t: Trace): seq<Done> {
    match t
    case Empty => []
    case Then(before, Return(WorkerThread, c)) => Finished(before) + [Done(c, true)]
    case Then(before, Throw(WorkerThread, c)) => Finished(before) + [Done(c, false)]
    case Then(before, _) => Finished(before)
  }

  /** The order of the calls within an iteration: retry, abort, reconnect, update. */
  function Place(c: Call): int {
    match c
    case Run(Retry) => 0
    case Run(Abort) => 1
    case Run(Reconnect) => 2
    case Update => 3
    case _ => -1
  }

  /** Part of an iteration: calls in order, each at most once, none of which threw. */
  predicate Partial(calls: seq<Done>) {
    && (forall i :: 0 <= i < |calls| ==> WorkerCall(calls[i].call) && calls[i].ok)
    && (forall i, j :: 0 <= i < j < |calls| ==> Place(calls[i].call) < Place(calls[j].call))
  }

  /** A whole iteration ends with the update, or with the first call that throws. */
  predicate Iteration(calls: seq<Done>) {
    && calls != []
    && Partial(calls[..|calls|-1])
    && WorkerCall(calls[|calls|-1].call)
    && (forall i :: 0 <= i < |calls|-1 ==> Place(calls[i].call) < Place(calls[|calls|-1].call))
    && (calls[|calls|-1].call == Update || !calls[|calls|-1].ok)
  }

  function Concat(its: seq<seq<Done>>): seq<Done> {
    if its == [] then [] else Concat(its[..|its|-1]) + its[|its|-1]
  }

  /** The iteration under way, as the worker's program counter sees it. */
  predicate Underway(w: WorkerPc, tail: seq<Done>) {
    match w
    case Test(c) => Partial(tail) && Below(tail, Place(Run(c)))
    case WWanting(j) => Partial(tail) && Below(tail, Place(JobCall(j)))
    case WHolding(j) => Partial(tail) && Below(tail, Place(JobCall(j)))
    case WCalling(j) => Partial(tail) && Below(tail, Place(JobCall(j)))
    case WReturned(Command(c)) => Partial(tail) && Below(tail, Place(Run(c)) + 1)
    case _ => tail == []
  }

  predicate Below(calls: seq<Done>, limit: int) {
    forall i :: 0 <= i < |calls| ==> Place(calls[i].call) < limit
  }

  /** The worker's calls split into whole iterations and the one under way. */
  ghost predicate Splits(v: View, its: seq<seq<Done>>, tail: seq<Done>) {
    Grouped(Finished(v.calls), its, tail) && Underway(v.worker, tail)
  }

  /** Only the end of a worker call adds to the finished calls. */
  lemma OtherStepsFinishNothing(v: View, a: Action)
    requires Enabled(v, a) && !a.WEnd?
    ensures Finished(After(v, a).calls) == Finished(v.calls)
  {
    if !OfWorker(a) {
      AppFinishesNothing(v, a);
    }
  }

  lemma AppFinishesNothing(v: View, a: Action)
    requires AppEnabled(v, a)
    ensures Finished(AppAfter(v, a).calls) == Finished(v.calls)
  {
  }

  lemma OtherStepsKeepTheTail(v: View, a: Action, tail: seq<Done>)
    requires Inv(v) && Enabled(v, a) && !a.WEnd? && Underway(v.worker, tail)
    ensures Underway(After(v, a).worker, tail)
  {
    var w := After(v, a).worker;
    if w != v.worker {
      match a
      case Look => assert tail == [];
      case Take =>
      case WAcquire =>
      case WBegin =>
      case WRelease => assert v.worker.WReturned? && v.worker.job.Command? ==> w == AfterTest(v.worker.job.command);
      case _ =>
    }
  }

  /** The end of a worker call adds that call. */
  lemma CallEndFinishesOne(v: View, a: Action)
    requires Enabled(v, a) && a.WEnd?
    ensures Finished(After(v, a).calls) == Finished(v.calls) + [Done(JobCall(v.worker.job), a.ok)]
    ensures After(v, a).worker == if a.ok then WReturned(v.worker.job) else WRaised(v.worker.job)
  {
  }

  lemma CallStaysUnderway(tail: seq<Done>, d: Done)
    requires Partial(tail) && Below(tail, Place(d.call)) && WorkerCall(d.call) && d.ok
    ensures Partial(tail + [d]) && Below(tail + [d], Place(d.call) + 1)
  {
  }

  /** Whole iterations and one under way. */
  predicate Grouped(calls: seq<Done>, its: seq<seq<Done>>, tail: seq<Done>) {
    calls == Concat(its) + tail && forall i :: 0 <= i < |its| ==> Iteration(its[i])
  }

  lemma GroupGrows(calls: seq<Done>, its: seq<seq<Done>>, tail: seq<Done>, d: Done)
    requires Grouped(calls, its, tail)
    ensures Grouped(calls + [d], its, tail + [d])
  {
    assert Concat(its) + (tail + [d]) == Concat(its) + tail + [d];
  }

  lemma GroupCloses(calls: seq<Done>, its: seq<seq<Done>>, tail: seq<Done>, d: Done)
    requires Grouped(calls, its, tail)
    requires Partial(tail) && Below(tail, Place(d.call)) && WorkerCall(d.call) && (d.call == Update || !d.ok)
    ensures Grouped(calls + [d], its + [tail + [d]], [])
  {
    var last := tail + [d];
    var more := its + [last];
    GroupGrows(calls, its, tail, d);
    assert last[..|tail|] == tail;
    assert Iteration(last);
    assert more[..|its|] == its;
    assert Concat(more) + [] == Concat(more);
  }

  lemma CallEndSplits(v: View, a: Action, its: seq<seq<Done>>, tail: seq<Done>)
    returns (its': seq<seq<Done>>, tail': seq<Done>)
    requires Enabled(v, a) && Splits(v, its, tail) && a.WEnd?
    ensures Splits(After(v, a), its', tail')
  {
    var d := Done(JobCall(v.worker.job), a.ok);
    CallEndFinishesOne(v, a);
    if a.ok && d.call != Update {
      CallStaysUnderway(tail, d);
      GroupGrows(Finished(v.calls), its, tail, d);
      its', tail' := its, tail + [d];
    } else {
      GroupCloses(Finished(v.calls), its, tail, d);
      its', tail' := its + [tail + [d]], [];
    }
  }

  /**
    Grammar: in every run the worker's finished calls are whole iterations followed by an
    iteration under way; each is optional retry, optional abort, optional reconnect, update,
    and only a throwing call stops one early. A worker that has seen the cancellation has no
    iteration under way, so cancellation takes effect only between iterations.
   */
  lemma {:induction false} WorkerCallsFormIterations(r: Run) returns (its: seq<seq<Done>>, tail: seq<Done>)
    requires Valid(r)
    ensures Splits(End(r), its, tail)
    ensures Partial(tail)
    ensures End(r).worker.Leaving? || End(r).worker.Exited? || End(r).worker.Top? ==> tail == []
  {
    match r
    case Birth =>
      its, tail := [], [];
      assert Finished(Born.calls) == Finished(Then(Empty, Begin(AppThread, Create)));
    case Act(earlier, a) =>
      its, tail := WorkerCallsFormIterations(earlier);
      RunKeepsInv(earlier);
      if a.WEnd? {
        its, tail := CallEndSplits(End(earlier), a, its, tail);
      } else {
        OtherStepsFinishNothing(End(earlier), a);
        OtherStepsKeepTheTail(End(earlier), a, tail);
      }
  }
}
