/**
  The native engine as the managed driver sees it: a trace, per host, of calls that begin and
  then return or throw. Nothing is assumed about what a call does inside the engine.

  A trace is a list that grows at its end, so what a function says of a longer trace unfolds
  from what it says of the shorter one.
 */
module NativeTrace {

  /** The three requests an application can leave for a host's worker. */
  datatype Command = Retry | Abort | Reconnect

  datatype Thread = AppThread | WorkerThread

  /** `GetRequest(k)` submits the k-th request of a batch. */
  datatype Call =
    | Create
    | SetOptions
    | Destroy
    | GetRequest(index: nat)
    | GetProgress
    | IssueCallbacks
    | GetStatus
    | GetErrorDetail
    | Run(command: Command)
    | Update

  datatype Event =
    | Begin(who: Thread, call: Call)
    | Return(who: Thread, call: Call)
    | Throw(who: Thread, call: Call)

  datatype Trace = Empty | Then(before: Trace, last: Event)

  /** The calls a host's worker makes; every other call belongs to the application thread. */
  predicate WorkerCall(c: Call) {
    c.Run? || c.Update?
  }

  predicate LifecycleCall(c: Call) {
    c.Create? || c.SetOptions? || c.Destroy?
  }

  /** May `who` make the everyday call `c`, one that is neither create, set-options nor destroy? */
  predicate Everyday(who: Thread, c: Call) {
    !LifecycleCall(c) && (who == WorkerThread <==> WorkerCall(c))
  }

  // ---------------------------------------------------------------------------------------------
  // The life of a handle

  datatype Phase =
    | NoHandle
    | Creating
    | Created
    | Configuring
    | Abandoned                       // set-options threw
    | Ready
    | InCall(who: Thread, call: Call)  // exactly one everyday call is in progress
    | Closing
    | Closed
    | CloseFailed                     // destroy threw
    | Illegal

  function NextPhase(p: Phase, e: Event): Phase {
    match p
    case NoHandle => if e == Begin(AppThread, Create) then Creating else Illegal
    case Creating => if e == Return(AppThread, Create) then Created else Illegal
    case Created => if e == Begin(AppThread, SetOptions) then Configuring else Illegal
    case Configuring =>
      if e == Return(AppThread, SetOptions) then Ready
      else if e == Throw(AppThread, SetOptions) then Abandoned
      else Illegal
    case Ready =>
      if e == Begin(AppThread, Destroy) then Closing
      else if e.Begin? && Everyday(e.who, e.call) then InCall(e.who, e.call)
      else Illegal
    case InCall(who, call) =>
      if e == Return(who, call) || e == Throw(who, call) then Ready else Illegal
    case Closing =>
      if e == Return(AppThread, Destroy) then Closed
      else if e == Throw(AppThread, Destroy) then CloseFailed
      else Illegal
    case _ => Illegal
  }

  function PhaseOf(t: Trace): Phase {
    match t
    case Empty => NoHandle
    case Then(before, e) => NextPhase(PhaseOf(before), e)
  }

  /** Create, set-options, everyday calls one at a time, then at most one destroy and nothing more. */
  predicate Legal(t: Trace) {
    PhaseOf(t) != Illegal
  }

  // ---------------------------------------------------------------------------------------------
  // What a legal trace rules out, said without phases

  /** How many calls have begun and neither returned nor thrown. */
  function InProgress(t: Trace): int {
    match t
    case Empty => 0
    case Then(before, e) => InProgress(before) + if e.Begin? then 1 else -1
  }

  /** How often `c` has begun. */
  function Begun(t: Trace, c: Call): nat {
    match t
    case Empty => 0
    case Then(before, e) => Begun(before, c) + if e.Begin? && e.call == c then 1 else 0
  }

  /** Phases in which one call is in progress. */
  predicate Busy(p: Phase) {
    p.Creating? || p.Configuring? || p.InCall? || p.Closing?
  }

  lemma {:induction false} LegalRunsOneCallAtATime(t: Trace)
    requires Legal(t)
    ensures InProgress(t) == if Busy(PhaseOf(t)) then 1 else 0
  {
    match t
    case Empty =>
    case Then(before, e) => LegalRunsOneCallAtATime(before);
  }

  lemma {:induction false} LegalLifecycleCounts(t: Trace)
    requires Legal(t)
    ensures Begun(t, Create) == if PhaseOf(t) == NoHandle then 0 else 1
    ensures Begun(t, SetOptions) == if PhaseOf(t) in {NoHandle, Creating, Created} then 0 else 1
    ensures Begun(t, Destroy) == if PhaseOf(t) in {Closing, Closed, CloseFailed} then 1 else 0
  {
    match t
    case Empty =>
    case Then(before, e) => LegalLifecycleCounts(before);
  }

  /** Does `longer` start with `t`? */
  predicate Continues(longer: Trace, t: Trace) {
    longer == t || (longer.Then? && Continues(longer.before, t))
  }

  /** Once the destroy has finished, returned or thrown, no legal trace goes on. */
  lemma {:induction false} NothingAfterDestroy(t: Trace, longer: Trace)
    requires PhaseOf(t) in {Closed, CloseFailed}
    requires Legal(longer) && Continues(longer, t)
    ensures longer == t
  {
    if longer != t {
      NothingAfterDestroy(t, longer.before);
    }
  }

  /** An everyday call begins only on a handle that was created and configured before. */
  lemma {:induction false} EverydayCallsNeedAConfiguredHandle(t: Trace, who: Thread, c: Call)
    requires Legal(Then(t, Begin(who, c))) && !LifecycleCall(c)
    ensures Begun(t, Create) == 1 && Begun(t, SetOptions) == 1 && Begun(t, Destroy) == 0
    ensures InProgress(t) == 0
    ensures match c
            case Run(_) => who == WorkerThread
            case Update => who == WorkerThread
            case _ => who == AppThread
  {
    LegalLifecycleCounts(t);
    LegalRunsOneCallAtATime(t);
  }
}
