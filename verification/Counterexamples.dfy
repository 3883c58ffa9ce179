/** Runs on which a conditional promise fails: the conditions under which it holds are not idle. */
module Counterexamples {
  import opened NativeTrace
  import opened HostProtocol
  import opened HostInvariants
  import opened HostSafety
  import opened Delivery
  import opened HostSystem
  import opened SystemProperties

  // ---------------------------------------------------------------------------------------------
  // Update throws after it has delivered

  /** The worker tests its three flags, none of which is set. */
  lemma WorkerTests(r0: Run) returns (r: Run)
    requires Valid(r0) && End(r0).worker.Top? && End(r0).token.Live? && End(r0).flags == {}
    ensures Valid(r) && End(r) == End(r0).(worker := WWanting(Refresh))
  {
    r := Extend(r0, Look);
    r := Extend(r, Take);
    r := Extend(r, Take);
    r := Extend(r, Take);
  }

  /** The worker's first iteration, in which the engine queues a completion. */
  lemma WorkerQueues(r0: Run, c: Completion) returns (r: Run)
    requires Valid(r0) && End(r0).worker.Top? && End(r0).token.Live? && End(r0).lock.Free? && End(r0).flags == {}
    ensures Valid(r) && End(r) == End(r0).(worker := Sleeping, queue := [c], calls := End(r).calls)
  {
    r := WorkerTests(r0);
    r := Extend(r, WAcquire);
    r := Extend(r, WBegin);
    r := Extend(r, WEnd(true, [c]));
    r := Extend(r, WRelease);
  }

  /** An `Update` up to the return of its first call. */
  lemma UpdateStarts(r0: Run, c: Completion) returns (r: Run)
    requires Valid(r0) && End(r0).app.Away? && Usable(End(r0)) && End(r0).results.Some? && End(r0).lock.Free? && End(r0).queue == [c]
    ensures Valid(r) && End(r).app == Holding(Poll, 1) && End(r).results == Some([]) && End(r).queue == [c]
  {
    r := Extend(r0, Enter(Poll));
    r := Extend(r, Acquire);
    r := Extend(r, BeginCall);
    r := Extend(r, EndCall(true, [c]));
  }

  /** Its callback delivers the completion. */
  lemma CallbacksDeliver(r0: Run, c: Completion) returns (r: Run)
    requires Valid(r0) && End(r0).app == Holding(Poll, 1) && End(r0).results == Some([]) && End(r0).queue == [c]
    ensures Valid(r) && End(r).app == Calling(Poll, 1) && End(r).results == Some([c]) && End(r).queue == []
    ensures Queued(r) == [c] && Drained(r) == Drained(r0) && Results(r) == Results(r0)
  {
    var begun := Extend(r0, BeginCall);
    assert Queued(begun) == [c];
    r := Extend(begun, Deliver);
    assert End(begun).results.value + [c] == [c];
  }

  /** And `qwfsIssueCallbacks` throws. */
  lemma CallbacksThrow(r0: Run, c: Completion) returns (r: Run)
    requires Valid(r0) && End(r0).app == Calling(Poll, 1) && End(r0).results == Some([c]) && End(r0).queue == [] && Queued(r0) == [c]
    ensures Valid(r) && End(r).app == Raised(Poll) && ThrewWithResults(r)
    ensures Drained(r) == Drained(r0) + [c] && Results(r) == Results(r0)
  {
    r := Extend(r0, EndCall(false, []));
    assert Gone([c], []) == [c];
  }

  /** The completion was drained, `Update` threw, and no `Update` has returned it or will: results and drained completions differ. */
  lemma UpdateLosesAResult(c: Completion) returns (before: Run, r: Run)
    ensures Valid(before) && End(before).queue == [c]
    ensures Valid(r) && End(r).app.Away? && ThrewWithResults(r)
    ensures Drained(r) == Drained(before) + [c] && Results(r) == Results(before)
    ensures Results(r) != Drained(r)
  {
    r := Construct();
    r := WorkerQueues(r, c);
    before := UpdateStarts(r, c);
    r := CallbacksDeliver(before, c);
    r := CallbacksThrow(r, c);
    r := Extend(r, Release);
    DeliveryIsConserved(r);
  }

  // ---------------------------------------------------------------------------------------------
  // Stories

  lemma Tell(s: Story, d: Deed) returns (n: Story)
    requires Holds(s) && DeedEnabled(Now(s), d)
    ensures n == And(s, d) && Holds(n) && Now(n) == DeedAfter(Now(s), d)
  {
    n := And(s, d);
  }

  /** One action inside the operation on host h. */
  lemma Go(s: Story, h: Id, a: Action) returns (n: Story)
    requires Holds(s) && h in Now(s).views && Focus(Now(s).main, h)
    requires Enabled(Now(s).views[h], a) && (OfWorker(a) || Continuing(a)) && !After(Now(s).views[h], a).app.Away?
    ensures n == And(s, On(h, a)) && Holds(n)
    ensures Now(n) == World(Now(s).main, Now(s).views[h := After(Now(s).views[h], a)])
  {
    n := Tell(s, On(h, a));
  }

  /** `new Nhh3Impl` up to its set-options call. */
  lemma BeginConstructor(s0: Story, id: Id) returns (s: Story)
    requires Holds(s0) && Now(s0).main.Idle? && id !in Now(s0).views
    ensures Holds(s) && Now(s).main == HostSystem.Busy(id) && id in Now(s).views
    ensures Now(s).views == Now(s0).views[id := Now(s).views[id]]
    ensures var v := Now(s).views[id];
            v == Born.(app := SettingOptions, results := Some([]), calls := v.calls) && PhaseOf(v.calls) == Phase.Configuring
  {
    s := Tell(s0, BeginCreate);
    s := Tell(s, EndCreate(true, id));
    BornKeepsInv();
    s := Go(s, id, AddResults);
    s := Go(s, id, BeginOptions);
  }

  /** `qwfsSetOptions` throws: the response dictionary keeps an entry that the instance dictionary does not have. */
  lemma ConstructorLeavesAnEntry(h: Id) returns (s: Story)
    ensures Holds(s) && Now(s).main.Idle? && LeftBehind(s, h)
    ensures Listed(Now(s)) == {} && WithResults(Now(s)) == {h}
    ensures Now(s).views.Keys == {h} && PhaseOf(Now(s).views[h].calls) == Abandoned
  {
    s := BeginConstructor(Once, h);
    s := Tell(s, On(h, EndOptions(false)));
  }

  /** Nothing destroys its handle: it is still there when `qwfsUninitialize` runs. */
  lemma UninitializeLeavesAHandle(h: Id) returns (s: Story)
    ensures Holds(s) && Now(s).main.Ending? && h in Now(s).views && ConstructorThrew(s, h)
    ensures PhaseOf(Now(s).views[h].calls) == Abandoned && Begun(Now(s).views[h].calls, Destroy) == 0
  {
    s := ConstructorLeavesAnEntry(h);
    s := Tell(s, BeginUninitialize);
    s := Tell(s, ClearAll);
    LegalLifecycleCounts(Now(s).views[h].calls);
    StoryKeepsWorld(s);
    assert FocusOk(Now(s).main, h, Now(s).views[h]);
    OrphansAreFailedConstructors(s, h);
  }

  /** An instance as its constructor leaves it, its worker at the top of its loop. */
  predicate JustMade(v: View) {
    v == Born.(app := Away, worker := Top, listed := true, results := Some([]), calls := v.calls) && PhaseOf(v.calls) == Ready
  }

  lemma MakeHost(s0: Story, id: Id) returns (s: Story)
    requires Holds(s0) && Now(s0).main.Idle? && id !in Now(s0).views
    ensures Holds(s) && Now(s).main.Idle? && id in Now(s).views && JustMade(Now(s).views[id])
    ensures Now(s).views == Now(s0).views[id := Now(s).views[id]]
  {
    s := BeginConstructor(s0, id);
    s := Go(s, id, EndOptions(true));
    s := Go(s, id, Enlist);
    s := Tell(s, On(id, StartTask));
  }

  /** The loop of `Uninitialize` cancels host h. */
  lemma CancelHost(s0: Story, h: Id) returns (s: Story)
    requires Holds(s0) && Now(s0).main.Sweep? && h in Now(s0).main.todo && h in Now(s0).views && JustMade(Now(s0).views[h])
    ensures Holds(s)
    ensures Now(s) == World(Visiting(Now(s0).main.all, Now(s0).main.todo - {h}, h),
                            Now(s0).views[h := Now(s0).views[h].(app := Joining(false), token := Token.Cancelled)])
  {
    s := Tell(s0, Visit(h));
    s := Go(s, h, Action.Cancel);
    s := Go(s, h, EndCancel);
  }

  /** And its worker leaves. */
  lemma StopHost(s0: Story, h: Id) returns (s: Story)
    requires Holds(s0) && Now(s0).main.Sweep? && h in Now(s0).main.todo && h in Now(s0).views && JustMade(Now(s0).views[h])
    ensures Holds(s)
    ensures Now(s) == World(Visiting(Now(s0).main.all, Now(s0).main.todo - {h}, h),
                            Now(s0).views[h := Now(s0).views[h].(app := Joining(false), worker := Exited, token := Disposed)])
  {
    s := CancelHost(s0, h);
    s := Go(s, h, Look);
    s := Go(s, h, Dispose);
  }

  /** The loop of `Uninitialize` destroys host h, up to the native call. */
  lemma VisitHost(s0: Story, h: Id) returns (s: Story)
    requires Holds(s0) && Now(s0).main.Sweep? && h in Now(s0).main.todo && h in Now(s0).views && JustMade(Now(s0).views[h])
    ensures Holds(s) && Now(s).main == Visiting(Now(s0).main.all, Now(s0).main.todo - {h}, h) && h in Now(s).views
    ensures Now(s).views == Now(s0).views[h := Now(s).views[h]]
    ensures var v := Now(s).views[h];
            v == Now(s0).views[h].(app := Destroying(false), worker := Exited, token := Disposed, calls := v.calls)
            && PhaseOf(v.calls) == Closing
  {
    s := StopHost(s0, h);
    s := Go(s, h, Join);
    s := Go(s, h, BeginDestroy);
  }

  lemma SweepHost(s0: Story, h: Id) returns (s: Story)
    requires Holds(s0) && Now(s0).main.Sweep? && h in Now(s0).main.todo && h in Now(s0).views && JustMade(Now(s0).views[h])
    ensures Holds(s) && Now(s).main == Sweep(Now(s0).main.all, Now(s0).main.todo - {h}) && h in Now(s).views
    ensures Now(s).views == Now(s0).views[h := Now(s).views[h]]
    ensures Now(s).views[h].listed && Now(s).views[h].results.None?
  {
    s := VisitHost(s0, h);
    s := Go(s, h, EndDestroy(true));
    s := Tell(s, On(h, DropResults));
  }

  /** `Uninitialize` with two instances, one of them destroyed. */
  lemma OneDestroyed(g: Id, h: Id) returns (s: Story)
    requires g != h
    ensures Holds(s) && Now(s).main == Sweep({g, h}, {h}) && Now(s).views.Keys == {g, h}
    ensures Now(s).views[g].listed && Now(s).views[g].results.None? && JustMade(Now(s).views[h])
  {
    s := MakeHost(Once, g);
    s := MakeHost(s, h);
    assert Listed(Now(s)) == {g, h};
    s := Tell(s, BeginUninitialize);
    s := SweepHost(s, g);
  }

  lemma MissingEntryWasSwept(s: Story, h: Id)
    requires Holds(s) && Now(s).main.Idle? && h in Listed(Now(s)) && h !in WithResults(Now(s))
    ensures SweptAway(s, h)
  {
    DictionariesAgree(s);
  }

  /** The second `qwfsDestroy` throws: the first host stays listed without a response entry. */
  lemma InterruptedUninitialize(g: Id, h: Id) returns (s: Story)
    requires g != h
    ensures Holds(s) && Now(s).main.Idle? && SweptAway(s, g)
    ensures Listed(Now(s)) == {g, h} && WithResults(Now(s)) == {h}
  {
    s := OneDestroyed(g, h);
    s := VisitHost(s, h);
    s := Tell(s, On(h, EndDestroy(false)));
    MissingEntryWasSwept(s, g);
  }
}
