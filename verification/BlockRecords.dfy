/**
  What a run has done to the engine so far, told from the actions of its two threads: lifecycle
  events, the application's finished blocks and the worker's finished calls, in order of release.
 */
module BlockRecords {
  import opened NativeTrace
  import opened HostProtocol

  datatype Outcome =
    | Complete   // no exception
    | CallThrew  // a native call threw
    | Faulted    // enumerating the batch or preparing a request threw, between two calls

  datatype Record =
    | Lifecycle(e: Event)
    | Batch(b: Block, returned: nat, outcome: Outcome)
    | Turn(job: Job, ok: bool)

  /** Of the application's latest block: how many calls have returned, and what exception there was. */
  datatype Tally = Tally(returned: nat, outcome: Outcome)

  const Opening: Tally := Tally(0, Complete)

  function Tallied(t: Tally, a: Action): Tally {
    match a
    case Acquire => Opening
    case EndCall(ok, _) => if ok then t.(returned := t.returned + 1) else t.(outcome := CallThrew)
    case Fault => t.(outcome := Faulted)
    case _ => t
  }

  function TallyOf(acts: seq<Action>): Tally {
    if acts == [] then Opening else Tallied(TallyOf(acts[..|acts|-1]), acts[|acts|-1])
  }

  function RunTally(r: Run): Tally {
    match r
    case Birth => Opening
    case Act(earlier, a) => Tallied(RunTally(earlier), a)
  }

  /** What the action, taken in v, puts on record. */
  function Concluded(v: View, t: Tally, a: Action): seq<Record>
    requires Enabled(v, a)
  {
    match a
    case BeginOptions => [Lifecycle(Begin(AppThread, SetOptions))]
    case EndOptions(ok) => [Lifecycle(Ended(ok, AppThread, SetOptions))]
    case BeginDestroy => [Lifecycle(Begin(AppThread, Destroy))]
    case EndDestroy(ok) => [Lifecycle(Ended(ok, AppThread, Destroy))]
    case Release => [Batch(v.app.b, t.returned, t.outcome)]
    case WRelease => [Turn(v.worker.job, v.worker.WReturned?)]
    case _ => []
  }

  const Creation: seq<Record> := [Lifecycle(Begin(AppThread, Create)), Lifecycle(Return(AppThread, Create))]

  function Records(r: Run): seq<Record>
    requires Valid(r)
  {
    match r
    case Birth => Creation
    case Act(earlier, a) => Records(earlier) + Concluded(End(earlier), RunTally(earlier), a)
  }

  /** The actions of one thread, in its own order. */
  function Own(t: Thread, r: Run): seq<Action> {
    match r
    case Birth => []
    case Act(earlier, a) => Own(t, earlier) + if Actor(a) == t then [a] else []
  }
}
