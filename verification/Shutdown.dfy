/** `Destroy` always gets past its join, and no reachable state is stuck. */
module Shutdown {
  import opened NativeTrace
  import opened HostProtocol
  import opened HostInvariants

  function Rank(j: Job): nat {
    match j
    case Command(Retry) => 0
    case Command(Abort) => 1
    case Command(Reconnect) => 2
    case Refresh => 3
  }

  /** Worker steps that remain once the token is cancelled. */
  function StepsLeft(w: WorkerPc): nat {
    match w
    case NotStarted => 0
    case Exited => 0
    case Leaving => 1
    case Top => 2
    case Sleeping => 3
    case Catching => 3
    case WRaised(_) => 4
    case WReturned(j) => 4 + 5 * (3 - Rank(j))
    case WCalling(j) => 5 + 5 * (3 - Rank(j))
    case WHolding(j) => 6 + 5 * (3 - Rank(j))
    case WWanting(j) => 7 + 5 * (3 - Rank(j))
    case Test(c) => 8 + 5 * (3 - Rank(Command(c)))
  }

  /** Native calls the worker can still begin once the token is cancelled. */
  function CallsLeft(w: WorkerPc): nat {
    match w
    case Test(c) => 4 - Rank(Command(c))
    case WWanting(j) => 4 - Rank(j)
    case WHolding(j) => 4 - Rank(j)
    case WCalling(j) => 3 - Rank(j)
    case WReturned(j) => 3 - Rank(j)
    case _ => 0
  }

  function WorkerSteps(acts: seq<Action>): nat {
    if acts == [] then 0
    else WorkerSteps(acts[..|acts|-1]) + if OfWorker(acts[|acts|-1]) then 1 else 0
  }

  function WorkerBegins(acts: seq<Action>): nat {
    if acts == [] then 0
    else WorkerBegins(acts[..|acts|-1]) + if acts[|acts|-1].WBegin? then 1 else 0
  }

  /** One step of either thread after the cancellation. */
  lemma StepTowardsExit(v: View, a: Action)
    requires Inv(v) && Enabled(v, a) && !v.token.Live? && !v.worker.NotStarted?
    ensures var n := After(v, a);
            && !n.token.Live? && !n.worker.NotStarted?
            && StepsLeft(n.worker) + (if OfWorker(a) then 1 else 0) <= StepsLeft(v.worker)
            && CallsLeft(n.worker) + (if a.WBegin? then 1 else 0) <= CallsLeft(v.worker)
  {
  }

  /**
    After `Cancel`, however the threads interleave and whatever throws, the worker takes at most
    23 more steps and begins at most four more native calls.
   */
  lemma {:induction false} ShutdownIsBounded(v: View, acts: seq<Action>)
    requires Inv(v) && CanDo(v, acts) && !v.token.Live? && !v.worker.NotStarted?
    ensures var n := Do(v, acts);
            && !n.token.Live? && !n.worker.NotStarted?
            && WorkerSteps(acts) + StepsLeft(n.worker) <= StepsLeft(v.worker) <= 23
            && WorkerBegins(acts) + CallsLeft(n.worker) <= CallsLeft(v.worker) <= 4
  {
    if acts != [] {
      var before := acts[..|acts|-1];
      ShutdownIsBounded(v, before);
      StretchKeepsInv(v, before);
      StepTowardsExit(Do(v, before), acts[|acts|-1]);
    }
  }

  /** The worker's next action; `ok` and `queue` are the engine's answer to a call in progress. */
  function WorkerMove(w: WorkerPc, ok: bool, queue: seq<Completion>): Action
    requires !w.NotStarted? && !w.Exited?
  {
    match w
    case Top => Look
    case Test(_) => Take
    case WWanting(_) => WAcquire
    case WHolding(_) => WBegin
    case WCalling(_) => WEnd(ok, queue)
    case WReturned(_) => WRelease
    case WRaised(_) => WRelease
    case Sleeping => Doze
    case Catching => Doze
    case Leaving => Dispose
  }

  /** While `Destroy` waits for the worker it holds no lock, so the worker is never blocked. */
  lemma WorkerNeverBlockedByDestroy(v: View, ok: bool, queue: seq<Completion>)
    requires Inv(v) && Awaiting(v) && !v.worker.Exited?
    ensures v.lock != ByApp
    ensures Enabled(v, WorkerMove(v.worker, ok, queue))
  {
  }

  /** Once the worker has taken its bounded number of steps it has exited, without the lock, and the join returns. */
  lemma JoinReturns(v: View, acts: seq<Action>)
    requires Inv(v) && CanDo(v, acts) && Awaiting(v)
    requires WorkerSteps(acts) >= StepsLeft(v.worker)
    requires Do(v, acts).app.Joining?
    ensures var n := Do(v, acts);
            n.worker.Exited? && n.lock == Free && Enabled(n, Join)
  {
    ShutdownIsBounded(v, acts);
    StretchKeepsInv(v, acts);
  }

  /** From `Cancel`, running the worker alone reaches a state in which the join can return. */
  lemma {:induction false} WorkerRunsOut(v: View) returns (acts: seq<Action>)
    requires Inv(v) && v.app.Joining?
    ensures CanDo(v, acts) && |acts| <= 23
    ensures forall a :: a in acts ==> OfWorker(a)
    ensures Enabled(Do(v, acts), Join)
  {
    acts := WorkerRunsOutFrom(v, v, []);
    ShutdownIsBounded(v, acts);
    AllWorkerSteps(acts);
  }

  lemma {:induction false} AllWorkerSteps(acts: seq<Action>)
    requires forall a :: a in acts ==> OfWorker(a)
    ensures WorkerSteps(acts) == |acts|
  {
    if acts != [] {
      AllWorkerSteps(acts[..|acts|-1]);
    }
  }

  lemma {:induction false} WorkerRunsOutFrom(start: View, v: View, done: seq<Action>) returns (acts: seq<Action>)
    requires Inv(v) && v.app.Joining?
    requires CanDo(start, done) && Do(start, done) == v
    requires forall a :: a in done ==> OfWorker(a)
    ensures CanDo(start, acts)
    ensures forall a :: a in acts ==> OfWorker(a)
    ensures Enabled(Do(start, acts), Join)
    decreases StepsLeft(v.worker)
  {
    acts := done;
    if !v.worker.Exited? {
      var a := WorkerMove(v.worker, true, v.queue);
      WorkerNeverBlockedByDestroy(v, true, v.queue);
      StepTowardsExit(v, a);
      StepKeepsInv(v, a);
      assert (done + [a])[..|done|] == done;
      acts := WorkerRunsOutFrom(start, After(v, a), done + [a]);
    }
  }

  /** The application's next action inside an operation; the engine answers calls with `ok`. */
  function AppMove(v: View, ok: bool): Action
    requires !v.app.Away?
  {
    match v.app
    case Made => AddResults
    case Prepared => BeginOptions
    case SettingOptions => EndOptions(ok)
    case Configured => Enlist
    case Enlisted => StartTask
    case Cancelling(_) => Cancel
    case Signalled(_) => EndCancel
    case Joining(_) => Join
    case Joined(_) => BeginDestroy
    case Destroying(_) => EndDestroy(ok)
    case Forgetting(_) => DropResults
    case Unlisting => Unlist
    case Wanting(_) => Acquire
    case Holding(b, i) => if i == Length(b) then Release else BeginCall
    case Calling(b, i) => if InIssue(v) && v.queue != [] then Deliver else EndCall(ok, v.queue)
    case Raised(_) => Release
    case Returning => HandOver
  }

  lemma AppCanMove(v: View, ok: bool)
    requires Inv(v) && !v.app.Away?
    requires v.app.Wanting? ==> v.lock.Free?
    requires v.app.Joining? ==> v.worker.Exited?
    ensures Enabled(v, AppMove(v, ok))
  {
  }

  lemma WorkerCanMove(v: View, ok: bool)
    requires Inv(v)
    requires (v.app.Wanting? && !v.lock.Free?) || (v.app.Joining? && !v.worker.Exited?)
    ensures !v.worker.NotStarted? && !v.worker.Exited?
    ensures Enabled(v, WorkerMove(v.worker, ok, v.queue))
  {
  }

  /**
    No deadlock: inside an operation the application can move, unless it waits for the lock or
    for the worker, and then the worker can.
   */
  lemma NoDeadlock(r: Run, ok: bool)
    requires Valid(r) && !End(r).app.Away?
    ensures var v := End(r);
            || Enabled(v, AppMove(v, ok))
            || ((v.app.Wanting? || v.app.Joining?) && !v.worker.NotStarted? && !v.worker.Exited?
                && Enabled(v, WorkerMove(v.worker, ok, v.queue)))
  {
    RunKeepsInv(r);
    var v := End(r);
    if (v.app.Wanting? && !v.lock.Free?) || (v.app.Joining? && !v.worker.Exited?) {
      WorkerCanMove(v, ok);
    } else {
      AppCanMove(v, ok);
    }
  }

  /** The owner of the lock is never blocked: whichever thread holds it has an enabled step. */
  lemma LockOwnerCanStep(r: Run, ok: bool)
    requires Valid(r) && !End(r).lock.Free?
    ensures var v := End(r);
            if v.lock == ByApp
            then !v.app.Away? && Enabled(v, AppMove(v, ok))
            else !v.worker.NotStarted? && !v.worker.Exited? && Enabled(v, WorkerMove(v.worker, ok, v.queue))
  {
    RunKeepsInv(r);
  }

  /** A listed, uncancelled instance can start any operation, and any host with a task its `Destroy`. */
  lemma OperationsCanStart(r: Run, c: NativeTrace.Command, b: Block, remove: bool)
    requires Valid(r) && End(r).app.Away?
    ensures var v := End(r);
            && (Usable(v) ==> Enabled(v, Ask(c)) && Enabled(v, Enter(b)) && After(v, Enter(b)).app == Wanting(b))
            && (!v.worker.NotStarted? ==>
                  Enabled(v, EnterDestroy(remove)) && After(v, EnterDestroy(remove)).app == if v.listed then Cancelling(remove) else Away)
            && (Usable(v) <==> !v.worker.NotStarted? && v.token.Live?)
  {
    RunKeepsInv(r);
  }

  /** Everything that can throw may: directory creation, preparing a request, and each native call, leaving any queue behind. */
  lemma AnythingCanThrow(v: View, queue: seq<Completion>)
    requires LockInv(v)
    ensures v.app.Prepared? ==> Enabled(v, DirectoryFails)
    ensures v.app.SettingOptions? ==> Enabled(v, EndOptions(false))
    ensures v.app.Destroying? ==> Enabled(v, EndDestroy(false))
    ensures v.app.Holding? && v.app.b.Publish? ==> Enabled(v, Fault)
    ensures v.app.Calling? ==> Enabled(v, EndCall(false, queue))
    ensures v.worker.WCalling? ==> Enabled(v, WEnd(false, queue))
  {
  }
}
