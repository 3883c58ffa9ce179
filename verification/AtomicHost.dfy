/**
  Refinement to a sequential machine. In the atomic machine a whole locked block -- acquire,
  native calls, release, or the exception exit -- is one step, and nothing of the other thread
  happens in between. Every interleaving of the concurrent machine reaches what some run of the
  atomic machine reaches, with the same native trace and the same results.
 */
module AtomicHost {
  import opened NativeTrace
  import opened HostProtocol
  import opened HostInvariants
  import opened BlockRecords

  predicate Acquires(t: Thread, a: Action) {
    if t.AppThread? then a.Acquire? else a.WAcquire?
  }

  predicate Releases(t: Thread, a: Action) {
    if t.AppThread? then a.Release? else a.WRelease?
  }

  /** Actions of a thread that holds the lock, other than giving it back. */
  predicate Inner(t: Thread, a: Action) {
    if t.AppThread? then a.Fault? || a.BeginCall? || a.Deliver? || a.EndCall? else a.WBegin? || a.WEnd?
  }

  predicate Unlocked(a: Action) {
    !Acquires(Actor(a), a) && !Releases(Actor(a), a) && !Inner(Actor(a), a)
  }

  /** A block of `t` that has started and not finished. */
  predicate Opened(t: Thread, acts: seq<Action>) {
    acts != [] && Acquires(t, acts[0]) && forall i :: 1 <= i < |acts| ==> Inner(t, acts[i])
  }

  predicate WholeBlock(t: Thread, acts: seq<Action>) {
    |acts| >= 2 && Opened(t, acts[..|acts|-1]) && Releases(t, acts[|acts|-1])
  }

  datatype Step = Single(a: Action) | Atomic(t: Thread, acts: seq<Action>)

  datatype AtomicRun = Start | Next(earlier: AtomicRun, step: Step)

  predicate StepEnabled(v: View, s: Step) {
    match s
    case Single(a) => Unlocked(a) && Enabled(v, a)
    case Atomic(t, acts) => WholeBlock(t, acts) && CanDo(v, acts)
  }

  function StepAfter(v: View, s: Step): View
    requires StepEnabled(v, s)
  {
    match s
    case Single(a) => After(v, a)
    case Atomic(_, acts) => Do(v, acts)
  }

  predicate AtomicValid(r: AtomicRun)
    decreases r, 0
  {
    r.Start? || (AtomicValid(r.earlier) && StepEnabled(AtomicEnd(r.earlier), r.step))
  }

  function AtomicEnd(r: AtomicRun): View
    requires AtomicValid(r)
    decreases r, 1
  {
    match r
    case Start => Born
    case Next(earlier, step) => StepAfter(AtomicEnd(earlier), step)
  }

  /** What the atomic run has put on record: each block is one entry. */
  function AtomicRecords(r: AtomicRun): seq<Record>
    requires AtomicValid(r)
  {
    match r
    case Start => Creation
    case Next(earlier, Single(a)) => AtomicRecords(earlier) + Concluded(AtomicEnd(earlier), Opening, a)
    case Next(earlier, Atomic(_, acts)) =>
      var before := acts[..|acts|-1];
      AtomicRecords(earlier) + Concluded(Do(AtomicEnd(earlier), before), TallyOf(before), acts[|acts|-1])
  }

  function AtomicOwn(t: Thread, r: AtomicRun): seq<Action> {
    match r
    case Start => []
    case Next(earlier, Single(a)) => AtomicOwn(t, earlier) + if Actor(a) == t then [a] else []
    case Next(earlier, Atomic(u, acts)) => AtomicOwn(t, earlier) + if u == t then acts else []
  }

  lemma {:induction false} AtomicRunKeepsInv(r: AtomicRun)
    requires AtomicValid(r)
    ensures Inv(AtomicEnd(r))
  {
    match r
    case Start => BornKeepsInv();
    case Next(earlier, Single(a)) =>
      AtomicRunKeepsInv(earlier);
      StepKeepsInv(AtomicEnd(earlier), a);
    case Next(earlier, Atomic(_, acts)) =>
      AtomicRunKeepsInv(earlier);
      StretchKeepsInv(AtomicEnd(earlier), acts);
  }

  // ---------------------------------------------------------------------------------------------
  // Commuting

  /** The steps of the worker outside the lock see and change these three fields only. */
  lemma WorkerStepIsLocal(v: View, w: View, a: Action)
    requires WorkerEnabled(v, a) && OfWorker(a) && Unlocked(a)
    requires w.worker == v.worker && w.flags == v.flags && w.token == v.token
    ensures WorkerEnabled(w, a)
    ensures var n, m := WorkerAfter(v, a), WorkerAfter(w, a);
            m == w.(worker := n.worker, flags := n.flags, token := n.token)
  {
  }

  /** The application's steps in a block see and change the other fields only. */
  lemma AppBlockStepIsLocal(v: View, w: View, b: Action)
    requires AppEnabled(v, b) && (Acquires(AppThread, b) || Inner(AppThread, b))
    requires w == v.(worker := w.worker, flags := w.flags, token := w.token)
    ensures AppEnabled(w, b)
    ensures AppAfter(w, b) == AppAfter(v, b).(worker := w.worker, flags := w.flags, token := w.token)
    ensures AppAfter(v, b).worker == v.worker && AppAfter(v, b).flags == v.flags && AppAfter(v, b).token == v.token
  {
  }

  /** The worker's steps in a block see and change these four fields only. */
  lemma WorkerBlockStepIsLocal(v: View, w: View, b: Action)
    requires WorkerEnabled(v, b) && (Acquires(WorkerThread, b) || Inner(WorkerThread, b))
    requires w.worker == v.worker && w.lock == v.lock && w.queue == v.queue && w.calls == v.calls
    ensures WorkerEnabled(w, b)
    ensures var n, m := WorkerAfter(v, b), WorkerAfter(w, b);
            m == w.(worker := n.worker, lock := n.lock, queue := n.queue, calls := n.calls)
  {
  }

  /** While the worker runs, the application's steps outside the lock see and change the other fields only. */
  lemma AppStepIsLocal(v: View, w: View, a: Action)
    requires AppEnabled(v, a) && !OfWorker(a) && Unlocked(a) && Inv(v) && Inv(w)
    requires WorkerHoldsLock(v) && (WorkerHoldsLock(w) || w.worker.WWanting?)
    requires w == v.(worker := w.worker, lock := w.lock, queue := w.queue, calls := w.calls)
    ensures AppEnabled(w, a)
    ensures AppAfter(w, a) == AppAfter(v, a).(worker := w.worker, lock := w.lock, queue := w.queue, calls := w.calls)
    ensures var n := AppAfter(v, a);
            n.worker == v.worker && n.lock == v.lock && n.queue == v.queue && n.calls == v.calls
  {
  }

  /** What one thread does with the lock in hand neither enables nor sees what the other does without it. */
  lemma Commute(t: Thread, v: View, b: Action, a: Action)
    requires Inv(v) && Enabled(v, b) && (Acquires(t, b) || Inner(t, b))
    requires Enabled(After(v, b), a) && Unlocked(a) && Actor(a) != t
    ensures Enabled(v, a) && Enabled(After(v, a), b)
    ensures After(After(v, a), b) == After(After(v, b), a)
  {
    if t.AppThread? {
      CommuteAppFirst(v, b, a);
    } else {
      CommuteWorkerFirst(v, b, a);
    }
  }

  lemma CommuteAppFirst(v: View, b: Action, a: Action)
    requires Enabled(v, b) && (Acquires(AppThread, b) || Inner(AppThread, b))
    requires Enabled(After(v, b), a) && OfWorker(a) && Unlocked(a)
    ensures Enabled(v, a) && Enabled(After(v, a), b)
    ensures After(After(v, a), b) == After(After(v, b), a)
  {
    assert After(v, b) == AppAfter(v, b);
    CommuteAppFirstAfter(v, b, a);
  }

  lemma CommuteAppFirstAfter(v: View, b: Action, a: Action)
    requires AppEnabled(v, b) && (Acquires(AppThread, b) || Inner(AppThread, b))
    requires WorkerEnabled(AppAfter(v, b), a) && Unlocked(a)
    ensures WorkerEnabled(v, a) && AppEnabled(WorkerAfter(v, a), b)
    ensures AppAfter(WorkerAfter(v, a), b) == WorkerAfter(AppAfter(v, b), a)
  {
    AppBlockStepIsLocal(v, v, b);
    WorkerStepIsLocal(AppAfter(v, b), v, a);
    AppBlockStepIsLocal(v, WorkerAfter(v, a), b);
    WorkerStepIsLocal(v, AppAfter(v, b), a);
  }

  lemma CommuteWorkerFirst(v: View, b: Action, a: Action)
    requires Inv(v) && Enabled(v, b) && (Acquires(WorkerThread, b) || Inner(WorkerThread, b))
    requires Enabled(After(v, b), a) && Unlocked(a) && !OfWorker(a)
    ensures Enabled(v, a) && Enabled(After(v, a), b)
    ensures After(After(v, a), b) == After(After(v, b), a)
  {
    var n := After(v, b);
    StepKeepsInv(v, b);
    WorkerBlockStepIsLocal(v, v, b);
    AppStepIsLocal(n, v, a);
    WorkerBlockStepIsLocal(v, After(v, a), b);
  }

  /** The other thread's step moves in front of a block under way. */
  lemma {:induction false} CommuteBlock(t: Thread, v: View, block: seq<Action>, a: Action)
    requires Inv(v) && CanDo(v, block) && (block == [] || Opened(t, block))
    requires Enabled(Do(v, block), a) && Unlocked(a) && Actor(a) != t
    ensures Enabled(v, a) && CanDo(After(v, a), block)
    ensures Do(After(v, a), block) == After(Do(v, block), a)
  {
    if block != [] {
      var before, b := block[..|block|-1], block[|block|-1];
      assert before != [] ==> Opened(t, before);
      StretchKeepsInv(v, before);
      Commute(t, Do(v, before), b, a);
      CommuteBlock(t, v, before, a);
      assert CanDo(After(v, a), block);
    }
  }

  // ---------------------------------------------------------------------------------------------
  // Simulation

  /** The thread that holds the lock; the application when nobody does. */
  function Holder(v: View): Thread {
    if v.lock.ByWorker? then WorkerThread else AppThread
  }

  /** The atomic run `ar` followed by the open block is where the concurrent run stands. */
  ghost predicate Simulates(ar: AtomicRun, open: seq<Action>, v: View) {
    && AtomicValid(ar)
    && CanDo(AtomicEnd(ar), open)
    && Do(AtomicEnd(ar), open) == v
    && AtomicEnd(ar).lock.Free?
    && if v.lock.Free? then open == [] else Opened(Holder(v), open)
  }

  lemma Extended(v: View, open: seq<Action>, a: Action)
    requires CanDo(v, open) && Enabled(Do(v, open), a)
    ensures (open + [a])[..|open + [a]|-1] == open
    ensures CanDo(v, open + [a]) && Do(v, open + [a]) == After(Do(v, open), a)
  {
    assert (open + [a])[..|open + [a]|-1] == open;
  }

  /** An enabled action acquires, uses or releases the lock as its kind says. */
  predicate LockUse(v: View, a: Action)
    requires Enabled(v, a)
  {
    var n := After(v, a);
    && (Unlocked(a) ==> n.lock == v.lock && (!v.lock.Free? ==> Actor(a) != Holder(v)))
    && (Acquires(Actor(a), a) ==> v.lock.Free? && Holder(n) == Actor(a) && !n.lock.Free?)
    && (Inner(Actor(a), a) ==> !v.lock.Free? && Holder(v) == Actor(a) && n.lock == v.lock)
    && (Releases(Actor(a), a) ==> !v.lock.Free? && Holder(v) == Actor(a) && n.lock.Free?)
  }

  lemma WorkerLockUse(v: View, a: Action)
    requires Inv(v) && Enabled(v, a) && OfWorker(a)
    ensures LockUse(v, a)
  {
  }

  lemma AppLockUse(v: View, a: Action)
    requires Inv(v) && Enabled(v, a) && !OfWorker(a)
    ensures LockUse(v, a)
  {
  }

  lemma LockActions(v: View, a: Action)
    requires Inv(v) && Enabled(v, a)
    ensures LockUse(v, a)
  {
    if OfWorker(a) {
      WorkerLockUse(v, a);
    } else {
      AppLockUse(v, a);
    }
  }

  /** One atomic step more, with the open block still to come. */
  lemma SimulateUnlocked(ar: AtomicRun, open: seq<Action>, v: View, a: Action)
    requires Simulates(ar, open, v) && Inv(v) && Enabled(v, a) && Unlocked(a)
    ensures Simulates(Next(ar, Single(a)), open, After(v, a))
  {
    AtomicRunKeepsInv(ar);
    var start := AtomicEnd(ar);
    MovesInFront(start, open, v, a);
    assert AtomicEnd(Next(ar, Single(a))) == After(start, a);
  }

  lemma MovesInFront(start: View, open: seq<Action>, v: View, a: Action)
    requires Inv(start) && start.lock.Free? && CanDo(start, open) && Do(start, open) == v
    requires if v.lock.Free? then open == [] else Opened(Holder(v), open)
    requires Inv(v) && Enabled(v, a) && Unlocked(a)
    ensures Enabled(start, a) && After(start, a).lock.Free?
    ensures CanDo(After(start, a), open) && Do(After(start, a), open) == After(v, a)
    ensures After(v, a).lock == v.lock
  {
    LockActions(v, a);
    if !v.lock.Free? {
      CommuteBlock(Holder(v), start, open, a);
    }
    LockActions(start, a);
  }

  lemma SimulateRelease(ar: AtomicRun, open: seq<Action>, v: View, a: Action)
    requires Simulates(ar, open, v) && Inv(v) && Enabled(v, a) && Releases(Actor(a), a)
    ensures Simulates(Next(ar, Atomic(Actor(a), open + [a])), [], After(v, a))
  {
    LockActions(v, a);
    Extended(AtomicEnd(ar), open, a);
    assert WholeBlock(Actor(a), open + [a]);
  }

  lemma SimulateLocked(ar: AtomicRun, open: seq<Action>, v: View, a: Action)
    requires Simulates(ar, open, v) && Inv(v) && Enabled(v, a) && (Acquires(Actor(a), a) || Inner(Actor(a), a))
    ensures Simulates(ar, open + [a], After(v, a))
  {
    LockActions(v, a);
    Extended(AtomicEnd(ar), open, a);
  }

  /** The same is on record in the same order; the open block has come as far as the run says. */
  ghost predicate SameRecords(ar: AtomicRun, open: seq<Action>, r: Run)
    requires AtomicValid(ar) && Valid(r)
  {
    AtomicRecords(ar) == Records(r) && (End(r).lock.ByApp? ==> RunTally(r) == TallyOf(open))
  }

  /** The thread does in the atomic run what it does in the concurrent one, in its own order. */
  predicate SameOwn(t: Thread, ar: AtomicRun, open: seq<Action>, r: Run, lock: Owner) {
    Own(t, r) == AtomicOwn(t, ar) + if lock == (if t.AppThread? then ByApp else ByWorker) then open else []
  }

  /** The atomic run is the concurrent one reordered. */
  ghost predicate Reorders(ar: AtomicRun, open: seq<Action>, r: Run)
    requires Valid(r)
  {
    && Simulates(ar, open, End(r))
    && SameRecords(ar, open, r)
    && SameOwn(AppThread, ar, open, r, End(r).lock) && SameOwn(WorkerThread, ar, open, r, End(r).lock)
  }

  lemma UnlockedConcludesTheSame(v: View, w: View, t: Tally, u: Tally, a: Action)
    requires Enabled(v, a) && Enabled(w, a) && Unlocked(a)
    ensures Concluded(v, t, a) == Concluded(w, u, a) && Tallied(t, a) == t
  {
  }

  lemma LockedConcludesNothing(v: View, t: Tally, a: Action)
    requires Enabled(v, a) && (Acquires(Actor(a), a) || Inner(Actor(a), a))
    ensures Concluded(v, t, a) == []
  {
  }

  lemma OneMore(r: Run, a: Action)
    requires Valid(r) && Enabled(End(r), a)
    ensures Valid(Act(r, a)) && End(Act(r, a)) == After(End(r), a)
    ensures Records(Act(r, a)) == Records(r) + Concluded(End(r), RunTally(r), a)
    ensures RunTally(Act(r, a)) == Tallied(RunTally(r), a)
  {
  }

  lemma OneMoreLocked(open: seq<Action>, a: Action)
    ensures (open + [a])[..|open + [a]|-1] == open && TallyOf(open + [a]) == Tallied(TallyOf(open), a)
  {
    assert (open + [a])[..|open + [a]|-1] == open;
  }

  lemma SingleKeepsOwn(t: Thread, ar: AtomicRun, open: seq<Action>, r: Run, lock: Owner, a: Action)
    requires SameOwn(t, ar, open, r, lock) && (lock.ByApp? ==> OfWorker(a)) && (lock.ByWorker? ==> !OfWorker(a))
    ensures SameOwn(t, Next(ar, Single(a)), open, Act(r, a), lock)
  {
  }

  lemma BlockKeepsOwn(t: Thread, ar: AtomicRun, open: seq<Action>, r: Run, lock: Owner, a: Action)
    requires SameOwn(t, ar, open, r, lock) && lock == if OfWorker(a) then ByWorker else ByApp
    ensures SameOwn(t, Next(ar, Atomic(Actor(a), open + [a])), [], Act(r, a), Free)
  {
    assert AtomicOwn(t, ar) + (open + [a]) == AtomicOwn(t, ar) + open + [a];
  }

  lemma OpenKeepsOwn(t: Thread, ar: AtomicRun, open: seq<Action>, r: Run, lock: Owner, a: Action)
    requires SameOwn(t, ar, open, r, lock) && (open == [] || lock == if OfWorker(a) then ByWorker else ByApp)
    ensures SameOwn(t, ar, open + [a], Act(r, a), if OfWorker(a) then ByWorker else ByApp)
  {
    assert AtomicOwn(t, ar) + (open + [a]) == AtomicOwn(t, ar) + open + [a];
  }

  lemma UnlockedReorders(ar: AtomicRun, open: seq<Action>, r: Run, a: Action)
    requires Valid(r) && Reorders(ar, open, r) && Inv(End(r)) && Enabled(End(r), a) && Unlocked(a)
    ensures Valid(Act(r, a)) && Reorders(Next(ar, Single(a)), open, Act(r, a))
  {
    var v := End(r);
    SimulateUnlocked(ar, open, v, a);
    OneMore(r, a);
    UnlockedConcludesTheSame(v, AtomicEnd(ar), RunTally(r), Opening, a);
    assert SameRecords(Next(ar, Single(a)), open, Act(r, a)) by { LockActions(v, a); }
    LockActions(v, a);
    SingleKeepsOwn(AppThread, ar, open, r, v.lock, a);
    SingleKeepsOwn(WorkerThread, ar, open, r, v.lock, a);
  }

  lemma ReleaseReorders(ar: AtomicRun, open: seq<Action>, r: Run, a: Action)
    requires Valid(r) && Reorders(ar, open, r) && Inv(End(r)) && Enabled(End(r), a) && Releases(Actor(a), a)
    ensures Valid(Act(r, a)) && Reorders(Next(ar, Atomic(Actor(a), open + [a])), [], Act(r, a))
  {
    var v, n := End(r), Next(ar, Atomic(Actor(a), open + [a]));
    SimulateRelease(ar, open, v, a);
    OneMore(r, a);
    OneMoreLocked(open, a);
    LockActions(v, a);
    assert Concluded(v, RunTally(r), a) == Concluded(v, TallyOf(open), a);
    assert SameRecords(n, [], Act(r, a));
    BlockKeepsOwn(AppThread, ar, open, r, v.lock, a);
    BlockKeepsOwn(WorkerThread, ar, open, r, v.lock, a);
  }

  lemma LockedReorders(ar: AtomicRun, open: seq<Action>, r: Run, a: Action)
    requires Valid(r) && Reorders(ar, open, r) && Inv(End(r)) && Enabled(End(r), a)
    requires Acquires(Actor(a), a) || Inner(Actor(a), a)
    ensures Valid(Act(r, a)) && Reorders(ar, open + [a], Act(r, a))
  {
    var v := End(r);
    SimulateLocked(ar, open, v, a);
    OneMore(r, a);
    OneMoreLocked(open, a);
    LockActions(v, a);
    LockedConcludesNothing(v, RunTally(r), a);
    assert SameRecords(ar, open + [a], Act(r, a));
    OpenKeepsOwn(AppThread, ar, open, r, v.lock, a);
    OpenKeepsOwn(WorkerThread, ar, open, r, v.lock, a);
  }

  /**
    Refinement: for every run of the concurrent machine there is a run of the atomic machine
    that, but for the one block under way, ends in the very same state. Each thread does in it
    what it did, in its own order, and the same is on record in the same order.
   */
  lemma {:induction false} Atomise(r: Run) returns (ar: AtomicRun, open: seq<Action>)
    requires Valid(r)
    ensures Reorders(ar, open, r)
    ensures End(r).lock.Free? ==> AtomicEnd(ar) == End(r)
  {
    match r
    case Birth => ar, open := Start, [];
    case Act(earlier, a) =>
      ar, open := Atomise(earlier);
      RunKeepsInv(earlier);
      if Unlocked(a) {
        UnlockedReorders(ar, open, earlier, a);
        ar := Next(ar, Single(a));
      } else if Releases(Actor(a), a) {
        ReleaseReorders(ar, open, earlier, a);
        ar, open := Next(ar, Atomic(Actor(a), open + [a])), [];
      } else {
        LockedReorders(ar, open, earlier, a);
        open := open + [a];
      }
  }
}
