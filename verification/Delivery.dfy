/**
  What `Update` hands to its caller against what the engine had queued, over whole runs of one
  host. Both are read off the run: the engine's queue when `qwfsIssueCallbacks` begins, and the
  list when `Update` returns it.
 */
module Delivery {
  import opened NativeTrace
  import opened HostProtocol
  import opened HostInvariants

  /** The action begins `qwfsIssueCallbacks`. */
  predicate BeginsIssue(v: View, a: Action) {
    a.BeginCall? && v.app == Holding(Poll, 1)
  }

  /** The engine's queue when the latest `qwfsIssueCallbacks` began. */
  function Queued(r: Run): seq<Completion>
    requires Valid(r)
  {
    match r
    case Birth => []
    case Act(earlier, a) => if BeginsIssue(End(earlier), a) then End(earlier).queue else Queued(earlier)
  }

  /** The completions in front of `left` that are gone from the queue. */
  function Gone(queue: seq<Completion>, left: seq<Completion>): seq<Completion> {
    if |left| <= |queue| then queue[..|queue| - |left|] else []
  }

  /** Every completion the engine has drained, one `qwfsIssueCallbacks` after the other. */
  function Drained(r: Run): seq<Completion>
    requires Valid(r)
  {
    match r
    case Birth => []
    case Act(earlier, a) =>
      Drained(earlier) + if a.EndCall? && InIssue(End(earlier)) then Gone(Queued(earlier), End(earlier).queue) else []
  }

  /** Every result `Update` has returned, the calls' lists one after the other. */
  function Results(r: Run): seq<Completion>
    requires Valid(r)
  {
    match r
    case Birth => []
    case Act(earlier, a) => Results(earlier) + if a.HandOver? then End(earlier).results.value else []
  }

  /** Some `Update` threw when its list was not empty. */
  predicate ThrewWithResults(r: Run)
    requires Valid(r)
  {
    match r
    case Birth => false
    case Act(earlier, a) => ThrewWithResults(earlier) || ThrowsWithResults(End(earlier), a)
  }

  predicate ThrowsWithResults(v: View, a: Action) {
    a.EndCall? && !a.ok && v.app.Calling? && v.app.b.Poll? && v.results != Some([])
  }

  // ---------------------------------------------------------------------------------------------
  // Inside one Update

  predicate BeforeIssue(v: View) {
    v.app == Wanting(Poll) || v.app == Holding(Poll, 0) || v.app == Calling(Poll, 0) || v.app == Holding(Poll, 1)
  }

  predicate AfterIssue(v: View) {
    v.app.Returning? || ((v.app.Holding? || v.app.Calling?) && v.app.b.Poll? && v.app.i >= 2)
  }

  /** The list before, during and after the callbacks; `queued` was there when they began. */
  predicate ListFollows(v: View, queued: seq<Completion>) {
    && (BeforeIssue(v) ==> v.results == Some([]))
    && (InIssue(v) ==> v.results.Some? && v.results.value + v.queue == queued)
    && (AfterIssue(v) ==> v.results == Some(queued))
  }

  function QueuedNext(v: View, a: Action, queued: seq<Completion>): seq<Completion> {
    if BeginsIssue(v, a) then v.queue else queued
  }

  lemma WorkerKeepsList(v: View, a: Action, queued: seq<Completion>)
    requires Inv(v) && WorkerEnabled(v, a) && ListFollows(v, queued)
    ensures ListFollows(WorkerAfter(v, a), QueuedNext(v, a, queued))
  {
    var n := WorkerAfter(v, a);
    assert n.app == v.app && n.results == v.results && (InIssue(v) ==> n.queue == v.queue);
  }

  lemma LifecycleKeepsList(v: View, a: Action, queued: seq<Completion>)
    requires AppEnabled(v, a) && ListFollows(v, queued) && (OfConstructor(a) || OfDestruction(a))
    ensures ListFollows(AppAfter(v, a), QueuedNext(v, a, queued))
  {
  }

  lemma BlockKeepsList(v: View, a: Action, queued: seq<Completion>)
    requires Inv(v) && AppEnabled(v, a) && ListFollows(v, queued) && !OfConstructor(a) && !OfDestruction(a)
    ensures ListFollows(AppAfter(v, a), QueuedNext(v, a, queued))
  {
    if a.Deliver? {
      assert v.queue == [v.queue[0]] + v.queue[1..];
      assert (v.results.value + [v.queue[0]]) + v.queue[1..] == v.results.value + v.queue;
    } else if a.EndCall? && InIssue(v) && a.ok {
      assert v.results.value + [] == v.results.value;
    }
  }

  lemma StepKeepsList(v: View, a: Action, queued: seq<Completion>)
    requires Inv(v) && Enabled(v, a) && ListFollows(v, queued)
    ensures ListFollows(After(v, a), QueuedNext(v, a, queued))
  {
    if OfWorker(a) {
      WorkerKeepsList(v, a, queued);
    } else if OfConstructor(a) || OfDestruction(a) {
      LifecycleKeepsList(v, a, queued);
    } else {
      BlockKeepsList(v, a, queued);
    }
  }

  lemma {:induction false} RunKeepsList(r: Run)
    requires Valid(r)
    ensures ListFollows(End(r), Queued(r))
  {
    if r.Act? {
      RunKeepsList(r.earlier);
      RunKeepsInv(r.earlier);
      StepKeepsList(End(r.earlier), r.a, Queued(r.earlier));
    }
  }

  /**
    At every moment inside `qwfsIssueCallbacks` the host's list followed by what the engine still
    holds is the queue as it was when the call began: the callbacks take it from the front, in order.
   */
  lemma CallbacksTakeFromTheFront(r: Run)
    requires Valid(r) && InIssue(End(r))
    ensures End(r).results.Some? && End(r).results.value + End(r).queue == Queued(r)
  {
    RunKeepsList(r);
  }

  // ---------------------------------------------------------------------------------------------
  // Over whole runs

  /** Drained, not returned yet, and about to be. */
  function Due(v: View): seq<Completion> {
    if AfterIssue(v) && v.results.Some? then v.results.value else []
  }

  /** What a step drains, returns and leaves due; something is lost exactly if it throws with results. */
  lemma StepAccounts(v: View, a: Action, queued: seq<Completion>)
    requires Inv(v) && Enabled(v, a) && ListFollows(v, queued)
    ensures var drained := if a.EndCall? && InIssue(v) then Gone(queued, v.queue) else [];
            var returned := if a.HandOver? then v.results.value else [];
            if ThrowsWithResults(v, a) then |returned| + |Due(After(v, a))| < |Due(v)| + |drained|
            else Due(v) + drained == returned + Due(After(v, a))
  {
    if OfWorker(a) {
      assert After(v, a).app == v.app && After(v, a).results == v.results;
    } else if OfConstructor(a) || OfDestruction(a) {
      LifecycleLeavesNothingDue(v, a);
    } else if a.EndCall? {
      CallEndAccounts(v, a, queued);
    } else {
      OtherStepsAccount(v, a, queued);
    }
  }

  lemma LifecycleLeavesNothingDue(v: View, a: Action)
    requires AppEnabled(v, a) && (OfConstructor(a) || OfDestruction(a))
    ensures Due(v) == [] && Due(AppAfter(v, a)) == []
  {
  }

  lemma CallEndAccounts(v: View, a: Action, queued: seq<Completion>)
    requires Inv(v) && AppEnabled(v, a) && ListFollows(v, queued) && a.EndCall?
    ensures var drained := if InIssue(v) then Gone(queued, v.queue) else [];
            if ThrowsWithResults(v, a) then |Due(AppAfter(v, a))| < |Due(v)| + |drained|
            else Due(v) + drained == Due(AppAfter(v, a))
  {
    if InIssue(v) {
      assert queued[..|queued| - |v.queue|] == v.results.value;
    }
  }

  lemma OtherStepsAccount(v: View, a: Action, queued: seq<Completion>)
    requires Inv(v) && AppEnabled(v, a) && ListFollows(v, queued)
    requires !OfConstructor(a) && !OfDestruction(a) && !a.EndCall?
    ensures Due(v) == (if a.HandOver? then v.results.value else []) + Due(AppAfter(v, a))
  {
  }

  /** Nothing was lost, or something was; it never comes back. */
  predicate Balanced(drained: seq<Completion>, returned: seq<Completion>, due: seq<Completion>, lost: bool) {
    if lost then |returned| + |due| < |drained| else drained == returned + due
  }

  lemma BalanceStep(d: seq<Completion>, r: seq<Completion>, due: seq<Completion>, lost: bool,
                    d': seq<Completion>, r': seq<Completion>, due': seq<Completion>, loses: bool)
    requires Balanced(d, r, due, lost)
    requires if loses then |r'| + |due'| < |due| + |d'| else due + d' == r' + due'
    ensures Balanced(d + d', r + r', due', lost || loses)
  {
    if !loses {
      assert |due| + |d'| == |due + d'| == |r'| + |due'|;
      assert !lost ==> d + d' == r + (due + d') == r + (r' + due') == (r + r') + due';
    }
  }

  lemma {:induction false} RunIsBalanced(r: Run)
    requires Valid(r)
    ensures Balanced(Drained(r), Results(r), Due(End(r)), ThrewWithResults(r))
  {
    if r.Act? {
      var v, a, e := End(r.earlier), r.a, r.earlier;
      RunIsBalanced(e);
      RunKeepsInv(e);
      RunKeepsList(e);
      StepAccounts(v, a, Queued(e));
      BalanceStep(Drained(e), Results(e), Due(v), ThrewWithResults(e),
                  if a.EndCall? && InIssue(v) then Gone(Queued(e), v.queue) else [],
                  if a.HandOver? then v.results.value else [], Due(After(v, a)), ThrowsWithResults(v, a));
    }
  }

  /**
    Conservation: between operations, the results of all `Update` calls so far are, in order and
    without loss or repetition, exactly the completions drained from the engine's queue -- if and
    only if no `Update` threw after a callback had delivered one. What such an `Update` received
    is emptied out of the shared list by the next one.
   */
  lemma DeliveryIsConserved(r: Run)
    requires Valid(r) && End(r).app.Away?
    ensures Results(r) == Drained(r) <==> !ThrewWithResults(r)
  {
    RunIsBalanced(r);
  }

  /** What `Update` is about to return, and leaves in the shared list, is the whole queue as its `qwfsIssueCallbacks` found it. */
  lemma UpdateReturnsItsOwnDrain(r: Run)
    requires Valid(r) && End(r).app.Returning?
    ensures End(r).results == Some(Queued(r))
    ensures Enabled(End(r), HandOver)
    ensures var n := After(End(r), HandOver);
            n.app.Away? && n.results == Some(Queued(r))
    ensures !ThrewWithResults(r) ==> Results(r) + Queued(r) == Drained(r)
  {
    RunKeepsList(r);
    RunIsBalanced(r);
  }

  // ---------------------------------------------------------------------------------------------
  // The list after Update has returned it

  /** Inside `Update`, from its first statement to its return. */
  predicate InUpdate(v: View) {
    v.app.Returning? || ((v.app.Wanting? || AppHoldsLock(v)) && v.app.b.Poll?)
  }

  predicate LeavesListAlone(a: Action) {
    !(a.Enter? && a.b.Poll?) && !a.DropResults? && !a.Wipe?
  }

  lemma StepLeavesListAlone(v: View, a: Action)
    requires Inv(v) && Enabled(v, a) && !InUpdate(v) && !v.worker.NotStarted? && LeavesListAlone(a)
    ensures var n := After(v, a);
            n.results == v.results && !InUpdate(n) && !n.worker.NotStarted?
  {
  }

  /** The list `Update` returned is the host's own; nothing but the next `Update` and destruction touches it. */
  lemma {:induction false} ReturnedListStays(v: View, acts: seq<Action>)
    requires Inv(v) && CanDo(v, acts) && v.app.Away? && !v.worker.NotStarted?
    requires forall a :: a in acts ==> LeavesListAlone(a)
    ensures var n := Do(v, acts);
            n.results == v.results && !InUpdate(n) && !n.worker.NotStarted?
  {
    if acts != [] {
      var before := acts[..|acts|-1];
      StretchKeepsInv(v, before);
      ReturnedListStays(v, before);
      StepLeavesListAlone(Do(v, before), acts[|acts|-1]);
    }
  }
}
