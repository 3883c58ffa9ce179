/** Retry, abort and reconnect requests are coalesced but never lost, whatever throws in between. */
module Commands {
  import opened NativeTrace
  import opened HostProtocol
  import opened HostInvariants
  import opened Shutdown

  /** The worker has consumed the flag of `c` but not begun the call yet. */
  predicate Pending(w: WorkerPc, c: Command) {
    (w.WWanting? || w.WHolding?) && w.job == Command(c)
  }

  /** How often the application has requested `c`. */
  function Requests(r: Run, c: Command): nat {
    match r
    case Birth => 0
    case Act(earlier, a) => Requests(earlier, c) + if a == Ask(c) then 1 else 0
  }

  /** The action with which the worker begins the native call for `c`. */
  predicate Begins(v: View, a: Action, c: Command) {
    a.WBegin? && v.worker == WHolding(Command(c))
  }

  /** Some request for `c` has no native call for `c` that began after it. */
  predicate Owed(r: Run, c: Command)
    requires Valid(r)
  {
    match r
    case Birth => false
    case Act(earlier, a) => a == Ask(c) || (Owed(earlier, c) && !Begins(End(earlier), a, c))
  }

  function Bit(b: bool): nat {
    if b then 1 else 0
  }

  /** Coalescing: native calls, a set flag and a consumed flag together never exceed the requests. */
  lemma {:induction false} CallsNeverExceedRequests(r: Run, c: Command)
    requires Valid(r)
    ensures var v := End(r);
            Begun(v.calls, Run(c)) + Bit(c in v.flags) + Bit(Pending(v.worker, c)) <= Requests(r, c)
  {
    match r
    case Birth =>
    case Act(earlier, a) =>
      CallsNeverExceedRequests(earlier, c);
      RunKeepsInv(earlier);
      StepConserves(End(earlier), a, c);
  }

  /** What a step does to the calls, flag and pending command of `c`, `asked` counting its requests. */
  predicate Conserves(v: View, n: View, c: Command, begins: bool, asked: bool) {
    && Begun(n.calls, Run(c)) == Begun(v.calls, Run(c)) + Bit(begins)
    && Begun(n.calls, Run(c)) + Bit(c in n.flags) + Bit(Pending(n.worker, c))
       <= Begun(v.calls, Run(c)) + Bit(c in v.flags) + Bit(Pending(v.worker, c)) + Bit(asked)
  }

  lemma WorkerConserves(v: View, a: Action, c: Command)
    requires WorkerEnabled(v, a)
    ensures Conserves(v, WorkerAfter(v, a), c, Begins(v, a, c), false)
  {
  }

  lemma AppBeginsNoCommand(v: View, a: Action, c: Command)
    requires AppEnabled(v, a)
    ensures Begun(AppAfter(v, a).calls, Run(c)) == Begun(v.calls, Run(c))
  {
  }

  lemma AppOnlyAsks(v: View, a: Action, c: Command)
    requires (Constructing(v) ==> v.worker.NotStarted?) && AppEnabled(v, a)
    ensures var n := AppAfter(v, a);
            && (c in n.flags <==> c in v.flags || a == Ask(c))
            && (Pending(n.worker, c) <==> Pending(v.worker, c))
  {
  }

  lemma AppConserves(v: View, a: Action, c: Command)
    requires Inv(v) && AppEnabled(v, a)
    ensures Conserves(v, AppAfter(v, a), c, false, a == Ask(c))
  {
    AppBeginsNoCommand(v, a, c);
    AppOnlyAsks(v, a, c);
  }

  lemma StepConserves(v: View, a: Action, c: Command)
    requires Inv(v) && Enabled(v, a)
    ensures Conserves(v, After(v, a), c, Begins(v, a, c), a == Ask(c))
  {
    if OfWorker(a) {
      WorkerConserves(v, a, c);
    } else {
      AppConserves(v, a, c);
    }
  }

  /** An outstanding command: its flag is set, or the worker has taken it over. */
  predicate Outstanding(v: View, c: Command) {
    c in v.flags || Pending(v.worker, c)
  }

  lemma StepKeepsOutstanding(v: View, a: Action, c: Command)
    requires Inv(v) && Enabled(v, a) && (Outstanding(v, c) || a == Ask(c))
    ensures Begins(v, a, c) || Outstanding(After(v, a), c)
    ensures a == Ask(c) ==> Outstanding(After(v, a), c)
  {
    if OfWorker(a) {
      WorkerKeepsOutstanding(v, a, c);
    } else {
      AppOnlyAsks(v, a, c);
    }
  }

  lemma WorkerKeepsOutstanding(v: View, a: Action, c: Command)
    requires WorkerEnabled(v, a) && Outstanding(v, c)
    ensures Begins(v, a, c) || Outstanding(WorkerAfter(v, a), c)
  {
  }

  /**
    No lost command: a request that no later native call answers is still outstanding. A
    throwing command earlier in the same iteration changes nothing here.
   */
  lemma {:induction false} NoRequestIsLost(r: Run, c: Command)
    requires Valid(r) && Owed(r, c)
    ensures Outstanding(End(r), c)
  {
    var earlier, a := r.earlier, r.a;
    RunKeepsInv(earlier);
    if a != Ask(c) {
      NoRequestIsLost(earlier, c);
    }
    StepKeepsOutstanding(End(earlier), a, c);
  }

  /** Conversely, nothing is outstanding without a request that no native call has used up. */
  lemma NothingWithoutARequest(r: Run, c: Command)
    requires Valid(r) && Outstanding(End(r), c)
    ensures Begun(End(r).calls, Run(c)) < Requests(r, c)
  {
    CallsNeverExceedRequests(r, c);
  }

  // ---------------------------------------------------------------------------------------------
  // A request is answered soon

  /** Worker steps until the call for `c` begins, if no native call throws and no cancellation comes. */
  function Distance(w: WorkerPc, c: Command): int {
    var target := StepsLeft(WHolding(Command(c)));
    if StepsLeft(w) >= target then StepsLeft(w) - target + 1 else StepsLeft(w) - target + 23
  }

  lemma WorkerComesNearer(v: View, a: Action, c: Command)
    requires Inv(v) && WorkerEnabled(v, a) && v.token.Live? && Outstanding(v, c)
    requires !(a.WEnd? && !a.ok) && !Begins(v, a, c)
    ensures Distance(WorkerAfter(v, a).worker, c) < Distance(v.worker, c)
  {
  }

  lemma AppLeavesWorkerAlone(v: View, a: Action)
    requires Inv(v) && Enabled(v, a) && !v.worker.NotStarted? && !OfWorker(a)
    ensures After(v, a).worker == v.worker
  {
  }

  /**
    As long as the token is live, each step of the worker other than a throwing native call
    begins the call for an outstanding command or brings it nearer; no step of the application
    pushes it away.
   */
  lemma OutstandingComesNearer(v: View, a: Action, c: Command)
    requires Inv(v) && Enabled(v, a) && v.token.Live? && Outstanding(v, c)
    requires !(a.WEnd? && !a.ok)
    ensures var n := After(v, a);
            || Begins(v, a, c)
            || (Outstanding(n, c) && Distance(n.worker, c) + Bit(OfWorker(a)) <= Distance(v.worker, c))
  {
    StepKeepsOutstanding(v, a, c);
    if !OfWorker(a) {
      AppLeavesWorkerAlone(v, a);
    } else if !Begins(v, a, c) {
      WorkerComesNearer(v, a, c);
    }
  }

  predicate NoThrow(acts: seq<Action>) {
    forall i :: 0 <= i < |acts| ==> !(acts[i].WEnd? && !acts[i].ok)
  }

  /** The call for `c` begins somewhere in the stretch. */
  predicate BeginsWithin(v: View, acts: seq<Action>, c: Command)
    requires CanDo(v, acts)
  {
    acts != [] &&
    (BeginsWithin(v, acts[..|acts|-1], c) || Begins(Do(v, acts[..|acts|-1]), acts[|acts|-1], c))
  }

  lemma DistanceBounds(v: View, c: Command)
    requires Inv(v) && v.token.Live? && !v.worker.NotStarted?
    ensures 1 <= Distance(v.worker, c) <= 22
  {
  }

  lemma TokenNeverRevives(v: View, a: Action)
    requires Enabled(v, a) && After(v, a).token.Live?
    ensures v.token.Live?
  {
  }

  lemma {:induction false} OutstandingApproaches(v: View, acts: seq<Action>, c: Command)
    requires Inv(v) && Outstanding(v, c) && CanDo(v, acts) && Do(v, acts).token.Live? && NoThrow(acts)
    ensures BeginsWithin(v, acts, c)
            || (Outstanding(Do(v, acts), c) && Distance(Do(v, acts).worker, c) + WorkerSteps(acts) <= Distance(v.worker, c))
  {
    if acts != [] {
      var before, a := acts[..|acts|-1], acts[|acts|-1];
      var w := Do(v, before);
      TokenNeverRevives(w, a);
      OutstandingApproaches(v, before, c);
      if !BeginsWithin(v, before, c) && !Begins(w, a, c) {
        StretchKeepsInv(v, before);
        OutstandingComesNearer(w, a, c);
      }
    }
  }

  lemma {:induction false} TokenWasLive(v: View, acts: seq<Action>)
    requires CanDo(v, acts) && Do(v, acts).token.Live?
    ensures v.token.Live?
  {
    if acts != [] {
      TokenNeverRevives(Do(v, acts[..|acts|-1]), acts[|acts|-1]);
      TokenWasLive(v, acts[..|acts|-1]);
    }
  }

  /**
    Prompt service: however the threads interleave, an outstanding command's call begins within
    22 steps of the worker, unless a native call throws or `Destroy` cancels before.
   */
  lemma OutstandingIsServed(v: View, acts: seq<Action>, c: Command)
    requires Inv(v) && Outstanding(v, c) && CanDo(v, acts)
    requires Do(v, acts).token.Live? && NoThrow(acts)
    requires WorkerSteps(acts) >= 22
    ensures BeginsWithin(v, acts, c)
  {
    OutstandingApproaches(v, acts, c);
    StretchKeepsInv(v, acts);
    TokenWasLive(v, acts);
    DistanceBounds(v, c);
    if Outstanding(Do(v, acts), c) {
      DistanceBounds(Do(v, acts), c);
    }
  }
}
