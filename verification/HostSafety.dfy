/** Exclusion, handle lifecycle and token safety over every run of one host. */
module HostSafety {
  import opened NativeTrace
  import opened HostProtocol
  import opened HostInvariants

  /** The application thread is inside a native call, locked or not. */
  predicate AppInside(v: View) {
    v.app.SettingOptions? || v.app.Calling? || v.app.Destroying?
  }

  predicate WorkerInside(v: View) {
    v.worker.WCalling?
  }

  /**
    Exclusion: the threads inside a native call are exactly the calls the engine has in progress,
    and they are never two. Set-options and destroy run without the lock.
   */
  lemma NativeCallsExclude(r: Run)
    requires Valid(r)
    ensures var v := End(r);
            && InProgress(v.calls) == (if AppInside(v) then 1 else 0) + (if WorkerInside(v) then 1 else 0)
            && InProgress(v.calls) <= 1
  {
    RunKeepsInv(r);
    LegalRunsOneCallAtATime(End(r).calls);
  }

  /**
    Lifecycle: the native trace is create, set-options, everyday calls, then at most one destroy
    with nothing after it, whatever throws; an everyday call has a configured, undestroyed handle.
   */
  lemma TraceIsLegal(r: Run)
    requires Valid(r)
    ensures var v := End(r);
            && Legal(v.calls)
            && Begun(v.calls, Create) == 1
            && Begun(v.calls, SetOptions) <= 1
            && Begun(v.calls, Destroy) <= 1
            && (Begun(v.calls, Destroy) == 1 ==> v.worker.Exited? && !WorkerInside(v))
            && (v.app.Calling? || WorkerInside(v) ==> Begun(v.calls, SetOptions) == 1 && Begun(v.calls, Destroy) == 0)
  {
    RunKeepsInv(r);
    LegalLifecycleCounts(End(r).calls);
  }

  /** The native trace only grows: no step rewrites what the engine has already seen. */
  lemma {:induction false} CallsOnlyGrow(v: View, acts: seq<Action>)
    requires CanDo(v, acts)
    ensures Continues(Do(v, acts).calls, v.calls)
  {
    if acts != [] {
      CallsOnlyGrow(v, acts[..|acts|-1]);
    }
  }

  /** After a destroy has ended, no continuation of the run makes another native call for the host. */
  lemma {:induction false} NoCallAfterDestroy(v: View, acts: seq<Action>)
    requires Inv(v) && CanDo(v, acts)
    requires PhaseOf(v.calls) in {Closed, CloseFailed}
    ensures Do(v, acts).calls == v.calls
  {
    StretchKeepsInv(v, acts);
    CallsOnlyGrow(v, acts);
    assert Legal(Do(v, acts).calls);
    NothingAfterDestroy(v.calls, Do(v, acts).calls);
  }

  /**
    Token safety: the worker never reads a disposed token and disposes only a cancelled one.
    `Destroy` reaches `Cancel` on a live token or on a disposed one, never on one already
    cancelled; the disposed case, which throws, is exactly a second `Destroy` of a host that is
    still listed after its `qwfsDestroy` has begun.
    From the moment the worker can see the cancellation the token is no longer live, and it may
    be disposed before `Cancel` returns (`DisposedInsideCancel`).
   */
  lemma TokenUse(r: Run)
    requires Valid(r)
    ensures var v := End(r);
            && (v.worker.Top? ==> !v.token.Disposed?)
            && (v.worker.Leaving? ==> v.token.Cancelled?)
            && (v.app.Cancelling? ==> !v.token.Cancelled? && (v.token.Disposed? <==> Begun(v.calls, Destroy) == 1))
            && (Awaiting(v) ==> !v.token.Live? && Begun(v.calls, Destroy) == 0)
  {
    RunKeepsInv(r);
    LegalLifecycleCounts(End(r).calls);
  }

  lemma Extend(r: Run, a: Action) returns (n: Run)
    requires Valid(r) && Enabled(End(r), a)
    ensures n == Act(r, a) && Valid(n) && End(n) == After(End(r), a)
  {
    n := Act(r, a);
  }

  lemma Configure() returns (r: Run)
    ensures Valid(r) && End(r) == Born.(app := Configured, results := Some([]), calls := End(r).calls)
  {
    r := Extend(Birth, AddResults);
    r := Extend(r, BeginOptions);
    r := Extend(r, EndOptions(true));
  }

  /** Create an instance. */
  lemma Construct() returns (r: Run)
    ensures Valid(r) && End(r) == Born.(app := Away, worker := Top, listed := true, results := Some([]), calls := End(r).calls)
  {
    r := Configure();
    r := Extend(r, Enlist);
    r := Extend(r, StartTask);
  }

  /** Call `Destroy`, up to the wait for the worker. */
  lemma CancelWorker(r0: Run) returns (r: Run)
    requires Valid(r0) && End(r0).app.Away? && End(r0).worker.Top? && End(r0).listed && End(r0).token.Live?
    ensures Valid(r) && End(r) == End(r0).(app := Joining(true), token := Cancelled)
  {
    r := Extend(r0, EnterDestroy(true));
    r := Extend(r, Action.Cancel);
    r := Extend(r, EndCancel);
  }

  /** Destroy it, up to the native call. */
  lemma JoinWorker(r0: Run) returns (r: Run)
    requires Valid(r0) && End(r0).app.Away? && End(r0).worker.Top? && End(r0).listed && End(r0).token.Live?
    ensures Valid(r) && End(r).app == Joined(true) && End(r).worker.Exited? && End(r).token.Disposed? && End(r).listed
  {
    r := CancelWorker(r0);
    r := Extend(r, Look);
    r := Extend(r, Dispose);
    r := Extend(r, Action.Join);
  }

  /** Create an instance and call `Destroy`, whose `qwfsDestroy` throws. */
  lemma DestroyThrows() returns (r: Run)
    ensures Valid(r)
    ensures var v := End(r);
            v.app.Away? && v.worker.Exited? && v.token.Disposed? && v.listed
  {
    r := Construct();
    r := JoinWorker(r);
    r := Extend(r, BeginDestroy);
    r := Extend(r, EndDestroy(false));
  }

  /** The promise that `Cancel` never meets a disposed token fails when `qwfsDestroy` throws and `Destroy` is called again. */
  lemma ThrowingDestroyLeavesADeadToken() returns (r: Run)
    ensures Valid(r) && End(r).app.Cancelling? && End(r).token.Disposed?
  {
    r := DestroyThrows();
    r := Extend(r, EnterDestroy(true));
  }

  /** The worker can dispose the token while the application is still inside the `Cancel` that it reacts to. */
  lemma DisposedInsideCancel() returns (r: Run)
    ensures Valid(r) && End(r).app.Signalled? && End(r).token.Disposed?
  {
    r := Construct();
    r := Extend(r, EnterDestroy(true));
    r := Extend(r, Action.Cancel);
    r := Extend(r, Look);
    r := Extend(r, Dispose);
  }
}
