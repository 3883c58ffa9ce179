/**
  The driver protocol of one host: the application thread and the host's worker thread, which
  share a lock, three command flags and a cancellation token.

  `Enabled` says which actions a state allows and `After` what each does. Lock acquisition,
  the start and the end of a native call, lock release and the exception exit are separate
  actions, so every interleaving of the two threads is a run. The choices the program does
  not make (does a call throw, what does the engine queue) are part of the action.
 */
module HostProtocol {
  import opened NativeTrace

  /** What a result callback hands over; here only its identity matters. */
  type Completion = nat

  datatype Option<T> = None | Some(value: T)

  /** The application's locked blocks: a batch of n requests, an update, an error query. */
  datatype Block = Publish(size: nat) | Poll | Detail

  /** How many native calls the block makes when nothing throws. */
  function Length(b: Block): nat {
    match b
    case Publish(n) => n
    case Poll => 3
    case Detail => 1
  }

  function CallAt(b: Block, i: nat): Call
    requires i < Length(b)
  {
    match b
    case Publish(_) => GetRequest(i)
    case Poll => if i == 0 then GetProgress else if i == 1 then IssueCallbacks else GetStatus
    case Detail => GetErrorDetail
  }

  /** Where the application thread is, as far as this host is concerned. */
  datatype AppPc =
    | Away
    // constructor
    | Made | Prepared | SettingOptions | Configured | Enlisted
    // Destroy; Signalled is inside Cancel, after the worker can see the cancellation
    | Cancelling(remove: bool) | Signalled(remove: bool) | Joining(remove: bool) | Joined(remove: bool)
    | Destroying(remove: bool) | Forgetting(remove: bool) | Unlisting
    // a locked block; i counts the calls that have returned
    | Wanting(b: Block) | Holding(b: Block, i: nat) | Calling(b: Block, i: nat) | Raised(b: Block)
    | Returning

  datatype Job = Command(command: Command) | Refresh

  function JobCall(j: Job): Call {
    match j
    case Command(c) => Run(c)
    case Refresh => Update
  }

  /** Where the worker is in its loop. */
  datatype WorkerPc =
    | NotStarted
    | Top
    | Test(command: Command)
    | WWanting(job: Job) | WHolding(job: Job) | WCalling(job: Job) | WReturned(job: Job) | WRaised(job: Job)
    | Sleeping
    | Catching
    | Leaving
    | Exited

  function AfterTest(c: Command): WorkerPc {
    match c
    case Retry => Test(Abort)
    case Abort => Test(Reconnect)
    case Reconnect => WWanting(Refresh)
  }

  function AfterJob(j: Job): WorkerPc {
    match j
    case Command(c) => AfterTest(c)
    case Refresh => Sleeping
  }

  datatype Owner = Free | ByApp | ByWorker

  datatype Token = Live | Cancelled | Disposed

  datatype View = View(
    app: AppPc,
    worker: WorkerPc,
    lock: Owner,
    flags: set<Command>,
    token: Token,
    listed: bool,                     // the host is a key of the instance dictionary
    results: Option<seq<Completion>>, // its entry in the response dictionary
    queue: seq<Completion>,           // completions the engine holds for this host
    calls: Trace)

  /** A host right after its `qwfsCreate` returned. */
  const Born: View := View(Made, NotStarted, Free, {}, Live, false, None, [],
                           Then(Then(Empty, Begin(AppThread, Create)), Return(AppThread, Create)))

  datatype Action =
    // constructor
    | AddResults | DirectoryFails | BeginOptions | EndOptions(ok: bool) | Enlist | StartTask
    // Destroy, and the two Clear calls of Uninitialize
    | EnterDestroy(remove: bool) | Cancel | EndCancel | Join | BeginDestroy | EndDestroy(ok: bool) | DropResults | Unlist
    | Wipe
    // commands
    | Ask(command: Command)
    // locked blocks
    | Enter(b: Block) | Acquire | Fault | BeginCall | Deliver | EndCall(ok: bool, queue: seq<Completion>)
    | Release | HandOver
    // worker
    | Look | Take | WAcquire | WBegin | WEnd(ok: bool, queue: seq<Completion>) | WRelease | Doze | Dispose

  predicate OfWorker(a: Action) {
    a.Look? || a.Take? || a.WAcquire? || a.WBegin? || a.WEnd? || a.WRelease? || a.Doze? || a.Dispose?
  }

  function Actor(a: Action): Thread {
    if OfWorker(a) then WorkerThread else AppThread
  }

  /** The constructor finished and `Destroy` was not called yet: an instance its caller may still use. */
  predicate Usable(v: View) {
    v.listed && v.token.Live?
  }

  predicate AppEnabled(v: View, a: Action) {
    match a
    case AddResults => v.app.Made?
    case DirectoryFails => v.app.Prepared?
    case BeginOptions => v.app.Prepared?
    case EndOptions(_) => v.app.SettingOptions?
    case Enlist => v.app.Configured?
    case StartTask => v.app.Enlisted?
    case EnterDestroy(_) => v.app.Away? && !v.worker.NotStarted?
    case Cancel => v.app.Cancelling?
    case EndCancel => v.app.Signalled?
    case Join => v.app.Joining? && v.worker.Exited?
    case BeginDestroy => v.app.Joined?
    case EndDestroy(_) => v.app.Destroying?
    case DropResults => v.app.Forgetting?
    case Unlist => v.app.Unlisting?
    case Wipe => v.app.Away? && (v.listed ==> PhaseOf(v.calls) == Closed)
    case Ask(_) => v.app.Away? && Usable(v)
    case Enter(_) => v.app.Away? && Usable(v) && v.results.Some?
    case Acquire => v.app.Wanting? && v.lock.Free?
    case Fault => v.app.Holding? && v.app.b.Publish?
    case BeginCall => v.app.Holding? && v.app.i < Length(v.app.b)
    case Deliver => InIssue(v) && v.queue != [] && v.results.Some?
    case EndCall(ok, queue) =>
      && v.app.Calling?
      && v.app.i < Length(v.app.b)
      && (InIssue(v) && ok ==> queue == v.queue == [])
    case Release => v.app.Raised? || (v.app.Holding? && v.app.i == Length(v.app.b))
    case HandOver => v.app.Returning? && v.results.Some?
    case _ => false
  }

  predicate WorkerEnabled(v: View, a: Action) {
    match a
    case Look => v.worker.Top?
    case Take => v.worker.Test?
    case WAcquire => v.worker.WWanting? && v.lock.Free?
    case WBegin => v.worker.WHolding?
    case WEnd(_, _) => v.worker.WCalling?
    case WRelease => v.worker.WReturned? || v.worker.WRaised?
    case Doze => v.worker.Sleeping? || v.worker.Catching?
    case Dispose => v.worker.Leaving?
    case _ => false
  }

  /** The state allows the action. */
  predicate Enabled(v: View, a: Action) {
    if OfWorker(a) then WorkerEnabled(v, a) else AppEnabled(v, a)
  }

  /** The application is inside `qwfsIssueCallbacks`, the only call that runs result callbacks. */
  predicate InIssue(v: View) {
    v.app.Calling? && v.app.b.Poll? && v.app.i == 1
  }

  function Ended(ok: bool, who: Thread, c: Call): Event {
    if ok then Return(who, c) else Throw(who, c)
  }

  function AppAfter(v: View, a: Action): View
    requires AppEnabled(v, a)
  {
    match a
    // constructor
    case AddResults => v.(app := Prepared, results := Some([]))
    case DirectoryFails => v.(app := Away)
    case BeginOptions => v.(app := SettingOptions, calls := Then(v.calls, Begin(AppThread, SetOptions)))
    case EndOptions(ok) =>
      v.(app := if ok then Configured else Away, calls := Then(v.calls, Ended(ok, AppThread, SetOptions)))
    case Enlist => v.(app := Enlisted, listed := true)
    case StartTask => v.(app := Away, worker := Top)

    // Destroy
    case EnterDestroy(remove) => if v.listed then v.(app := Cancelling(remove)) else v
    case Cancel =>
      // cancelling a disposed token source throws
      if v.token.Disposed? then v.(app := Away) else v.(app := Signalled(v.app.remove), token := Cancelled)
    case EndCancel => v.(app := Joining(v.app.remove))
    case Join => v.(app := Joined(v.app.remove))
    case BeginDestroy => v.(app := Destroying(v.app.remove), calls := Then(v.calls, Begin(AppThread, Destroy)))
    case EndDestroy(ok) =>
      v.(app := if ok then Forgetting(v.app.remove) else Away, calls := Then(v.calls, Ended(ok, AppThread, Destroy)))
    case DropResults => v.(app := if v.app.remove then Unlisting else Away, results := None)
    case Unlist => v.(app := Away, listed := false)
    case Wipe => v.(listed := false, results := None)

    case Ask(c) => v.(flags := v.flags + {c})

    // locked blocks; Update empties the host's list before it takes the lock
    case Enter(b) =>
      if b.Poll?
      then v.(app := Wanting(b), results := Some([]))
      else v.(app := Wanting(b))
    case Acquire => v.(app := Holding(v.app.b, 0), lock := ByApp)
    case Fault => v.(app := Raised(v.app.b))
    case BeginCall =>
      v.(app := Calling(v.app.b, v.app.i), calls := Then(v.calls, Begin(AppThread, CallAt(v.app.b, v.app.i))))
    case Deliver =>
      v.(queue := v.queue[1..], results := Some(v.results.value + [v.queue[0]]))
    case EndCall(ok, queue) =>
      v.(app := if ok then Holding(v.app.b, v.app.i + 1) else Raised(v.app.b),
         queue := queue,
         calls := Then(v.calls, Ended(ok, AppThread, CallAt(v.app.b, v.app.i))))
    case Release =>
      v.(app := if v.app.Holding? && v.app.b.Poll? then Returning else Away, lock := Free)
    case HandOver => v.(app := Away)
  }

  function WorkerAfter(v: View, a: Action): View
    requires WorkerEnabled(v, a)
  {
    match a
    case Look => v.(worker := if v.token.Cancelled? then Leaving else Test(Retry))
    case Take =>
      var c := v.worker.command;
      if c in v.flags then v.(flags := v.flags - {c}, worker := WWanting(Command(c))) else v.(worker := AfterTest(c))
    case WAcquire => v.(worker := WHolding(v.worker.job), lock := ByWorker)
    case WBegin =>
      v.(worker := WCalling(v.worker.job), calls := Then(v.calls, Begin(WorkerThread, JobCall(v.worker.job))))
    case WEnd(ok, queue) =>
      v.(worker := if ok then WReturned(v.worker.job) else WRaised(v.worker.job),
         queue := queue,
         calls := Then(v.calls, Ended(ok, WorkerThread, JobCall(v.worker.job))))
    case WRelease =>
      v.(worker := if v.worker.WReturned? then AfterJob(v.worker.job) else Catching, lock := Free)
    case Doze => v.(worker := Top)
    case Dispose => v.(worker := Exited, token := Disposed)
  }

  /** The state after the action. */
  function After(v: View, a: Action): View
    requires Enabled(v, a)
  {
    if OfWorker(a) then WorkerAfter(v, a) else AppAfter(v, a)
  }

  // ---------------------------------------------------------------------------------------------
  // Runs

  datatype Run = Birth | Act(earlier: Run, a: Action)

  predicate Valid(r: Run)
    decreases r, 0
  {
    r.Birth? || (Valid(r.earlier) && Enabled(End(r.earlier), r.a))
  }

  function End(r: Run): View
    requires Valid(r)
    decreases r, 1
  {
    match r
    case Birth => Born
    case Act(earlier, a) => After(End(earlier), a)
  }

  /** A stretch of actions taken from a given state. */
  predicate CanDo(v: View, acts: seq<Action>)
    decreases |acts|, 0
  {
    acts == [] ||
    (CanDo(v, acts[..|acts|-1]) && Enabled(Do(v, acts[..|acts|-1]), acts[|acts|-1]))
  }

  function Do(v: View, acts: seq<Action>): View
    requires CanDo(v, acts)
    decreases |acts|, 1
  {
    if acts == [] then v else After(Do(v, acts[..|acts|-1]), acts[|acts|-1])
  }
}
