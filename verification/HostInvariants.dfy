/** What every interleaving of the application and one host's worker keeps. */
module HostInvariants {
  import opened NativeTrace
  import opened HostProtocol

  predicate AppHoldsLock(v: View) {
    v.app.Holding? || v.app.Calling? || v.app.Raised?
  }

  predicate WorkerHoldsLock(v: View) {
    v.worker.WHolding? || v.worker.WCalling? || v.worker.WReturned? || v.worker.WRaised?
  }

  predicate Constructing(v: View) {
    v.app.Made? || v.app.Prepared? || v.app.SettingOptions? || v.app.Configured? || v.app.Enlisted?
  }

  predicate InBlock(v: View) {
    v.app.Wanting? || AppHoldsLock(v) || v.app.Returning?
  }

  /** In `Destroy`, from the moment the worker can see the cancellation to the join. */
  predicate Awaiting(v: View) {
    v.app.Signalled? || v.app.Joining?
  }

  /** In `Destroy`, after the join. */
  predicate Finishing(v: View) {
    v.app.Joined? || v.app.Destroying? || v.app.Forgetting? || v.app.Unlisting?
  }

  /** The constructor threw after `qwfsCreate`: a native handle that no instance will destroy. */
  predicate Orphan(v: View) {
    v.app.Away? && v.worker.NotStarted?
  }

  predicate LockInv(v: View) {
    && (v.lock == ByApp <==> AppHoldsLock(v))
    && (v.lock == ByWorker <==> WorkerHoldsLock(v))
    && (v.app.Holding? ==> v.app.i <= Length(v.app.b))
    && (v.app.Calling? ==> v.app.i < Length(v.app.b))
  }

  /** Task start, cancellation and join order the phases of an instance. */
  predicate LifeInv(v: View) {
    && (v.token.Disposed? <==> v.worker.Exited?)
    && (v.token.Live? ==> !v.worker.Leaving?)
    && (v.token.Cancelled? ==> Awaiting(v))
    && (Awaiting(v) ==> !v.token.Live?)
    && (Constructing(v) ==> v.worker.NotStarted?)
    && (v.worker.NotStarted? ==> v.token.Live? && v.flags == {} && (Constructing(v) || Orphan(v)))
    && (InBlock(v) ==> v.token.Live?)
    && (Finishing(v) ==> v.worker.Exited?)
  }

  /** How the two dictionaries follow the life of the instance. */
  predicate RegistryInv(v: View) {
    && (v.worker.NotStarted? ==> (v.listed <==> v.app.Enlisted?))
    && (Constructing(v) ==> (v.results.None? <==> v.app.Made?))
    && (!v.worker.NotStarted? && !v.token.Disposed? ==> v.listed && v.results.Some?)
    && (v.app.Cancelling? || Awaiting(v) || Finishing(v) ==> v.listed)
    && (Awaiting(v) || v.app.Joined? || v.app.Destroying? || v.app.Forgetting? ==> v.results.Some?)
    && (v.app.Unlisting? ==> v.results.None?)
    && ((v.app.Away? || v.app.Cancelling?) && v.token.Disposed? ==>
          (PhaseOf(v.calls) == Closed && v.results.None?) || (PhaseOf(v.calls) == CloseFailed && v.listed && v.results.Some?))
  }

  /** The program counters say which native call, if any, is in progress. */
  predicate TraceInv(v: View) {
    var p := PhaseOf(v.calls);
    if v.app.Made? || v.app.Prepared? then p == Created
    else if v.app.SettingOptions? then p == Phase.Configuring
    else if v.app.Destroying? then p == Closing
    else if v.app.Forgetting? || v.app.Unlisting? then p == Closed
    else if Orphan(v) then p == Created || p == Abandoned
    else if (v.app.Away? || v.app.Cancelling?) && v.token.Disposed? then p == Closed || p == CloseFailed
    else if v.app.Calling? then v.app.i < Length(v.app.b) && p == InCall(AppThread, CallAt(v.app.b, v.app.i))
    else if v.worker.WCalling? then p == InCall(WorkerThread, JobCall(v.worker.job))
    else p == Ready
  }

  predicate Inv(v: View) {
    LockInv(v) && LifeInv(v) && RegistryInv(v) && TraceInv(v)
  }

  lemma BornKeepsInv()
    ensures Inv(Born)
  {
    var created := Then(Empty, Begin(AppThread, Create));
    assert PhaseOf(created) == Creating;
    assert PhaseOf(Born.calls) == Created;
  }

  lemma StepKeepsInv(v: View, a: Action)
    requires Inv(v) && Enabled(v, a)
    ensures Inv(After(v, a))
  {
    if OfWorker(a) {
      WorkerStepKeepsInv(v, a);
    } else if OfConstructor(a) {
      ConstructorStepKeepsInv(v, a);
    } else if OfDestruction(a) {
      DestructionStepKeepsInv(v, a);
    } else {
      BlockStepKeepsInv(v, a);
    }
  }

  lemma WorkerStepKeepsInv(v: View, a: Action)
    requires Inv(v) && Enabled(v, a) && OfWorker(a)
    ensures Inv(After(v, a))
  {
  }

  predicate OfConstructor(a: Action) {
    a.AddResults? || a.DirectoryFails? || a.BeginOptions? || a.EndOptions? || a.Enlist? || a.StartTask?
  }

  predicate OfDestruction(a: Action) {
    a.EnterDestroy? || a.Cancel? || a.EndCancel? || a.Join? || a.BeginDestroy? || a.EndDestroy? || a.DropResults? || a.Unlist? || a.Wipe?
  }

  lemma ConstructorStepKeepsInv(v: View, a: Action)
    requires Inv(v) && Enabled(v, a) && OfConstructor(a)
    ensures Inv(After(v, a))
  {
  }

  lemma DestructionStepKeepsInv(v: View, a: Action)
    requires Inv(v) && Enabled(v, a) && OfDestruction(a)
    ensures Inv(After(v, a))
  {
  }

  lemma BlockStepKeepsInv(v: View, a: Action)
    requires Inv(v) && Enabled(v, a) && !OfWorker(a) && !OfConstructor(a) && !OfDestruction(a)
    ensures Inv(After(v, a))
  {
  }

  lemma {:induction false} RunKeepsInv(r: Run)
    requires Valid(r)
    ensures Inv(End(r))
  {
    match r
    case Birth => BornKeepsInv();
    case Act(earlier, a) =>
      RunKeepsInv(earlier);
      StepKeepsInv(End(earlier), a);
  }

  lemma {:induction false} StretchKeepsInv(v: View, acts: seq<Action>)
    requires Inv(v) && CanDo(v, acts)
    ensures Inv(Do(v, acts))
  {
    if acts != [] {
      StretchKeepsInv(v, acts[..|acts|-1]);
      StepKeepsInv(Do(v, acts[..|acts|-1]), acts[|acts|-1]);
    }
  }
}
