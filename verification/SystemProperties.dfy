/** The dictionaries, `Uninitialize`, token safety and progress, for any number of hosts. */
module SystemProperties {
  import opened NativeTrace
  import opened HostProtocol
  import opened HostInvariants
  import opened HostSystem
  import opened Shutdown
  import opened HostSafety

  /** No `qwfsDestroy` has thrown. */
  predicate Healthy(w: World) {
    forall h :: h in w.views ==> PhaseOf(w.views[h].calls) != CloseFailed
  }

  /** The loop of `Uninitialize` has been through this host. */
  predicate Visited(m: Main, h: Id) {
    Sweeping(m) && h in m.all && h !in m.todo && !Focus(m, h)
  }

  predicate HealthOk(m: Main, h: Id, v: View) {
    && (v.listed && v.app.Away? && !Visited(m, h) ==> v.token.Live?)
    && (v.app.Cancelling? ==> v.token.Live?)
  }

  predicate HealthInv(w: World) {
    forall h :: h in w.views ==> HealthOk(w.main, h, w.views[h])
  }

  /** A failed destroy is final for its handle. */
  lemma FailureStays(v: View, a: Action)
    requires Inv(v) && Enabled(v, a) && PhaseOf(v.calls) == CloseFailed
    ensures PhaseOf(After(v, a).calls) == CloseFailed
  {
    StepKeepsInv(v, a);
  }

  lemma HealthWasThereBefore(w: World, d: Deed)
    requires WorldInv(w) && DeedEnabled(w, d) && Healthy(DeedAfter(w, d))
    ensures Healthy(w)
  {
    var n := DeedAfter(w, d);
    forall h | h in w.views
      ensures PhaseOf(w.views[h].calls) != CloseFailed
    {
      assert h in n.views && PhaseOf(n.views[h].calls) != CloseFailed;
      assert FocusOk(w.main, h, w.views[h]);
      if PhaseOf(w.views[h].calls) == CloseFailed {
        if d.On? && d.h == h {
          FailureStays(w.views[h], d.a);
        }
      }
    }
  }

  lemma WorkerActionKeepsHealth(w: World, h: Id, a: Action)
    requires WorldInv(w) && HealthInv(w) && DeedEnabled(w, On(h, a)) && OfWorker(a)
    ensures HealthOk(w.main, h, After(w.views[h], a))
  {
    var v := w.views[h];
    assert FocusOk(w.main, h, v) && HealthOk(w.main, h, v);
    var n := After(v, a);
    assert n.app == v.app && n.listed == v.listed;
  }

  lemma OpeningKeepsHealth(w: World, h: Id, a: Action)
    requires WorldInv(w) && HealthInv(w) && DeedEnabled(w, On(h, a)) && w.main.Idle? && Opens(a)
    ensures HealthOk(MainAfter(w, h, a), h, After(w.views[h], a))
  {
    assert FocusOk(w.main, h, w.views[h]) && HealthOk(w.main, h, w.views[h]);
  }

  lemma BusyActionKeepsHealth(w: World, h: Id, a: Action)
    requires WorldInv(w) && HealthInv(w) && DeedEnabled(w, On(h, a)) && w.main == Busy(h) && Continuing(a)
    requires PhaseOf(After(w.views[h], a).calls) != CloseFailed
    ensures HealthOk(MainAfter(w, h, a), h, After(w.views[h], a))
  {
    assert FocusOk(w.main, h, w.views[h]) && HealthOk(w.main, h, w.views[h]);
  }

  lemma VisitingActionKeepsHealth(w: World, h: Id, a: Action)
    requires WorldInv(w) && HealthInv(w) && DeedEnabled(w, On(h, a)) && w.main.Visiting? && w.main.h == h && Continuing(a)
    requires PhaseOf(After(w.views[h], a).calls) != CloseFailed
    ensures HealthOk(MainAfter(w, h, a), h, After(w.views[h], a))
    ensures !MainAfter(w, h, a).Idle?
  {
    assert FocusOk(w.main, h, w.views[h]) && SweepOk(w.main, h, w.views[h]) && HealthOk(w.main, h, w.views[h]);
  }

  lemma ActionKeepsHealth(w: World, h: Id, a: Action)
    requires WorldInv(w) && HealthInv(w) && DeedEnabled(w, On(h, a))
    requires PhaseOf(After(w.views[h], a).calls) != CloseFailed
    ensures HealthOk(MainAfter(w, h, a), h, After(w.views[h], a))
    ensures w.main.Visiting? ==> !MainAfter(w, h, a).Idle?
  {
    if OfWorker(a) {
      WorkerActionKeepsHealth(w, h, a);
    } else if w.main.Idle? {
      OpeningKeepsHealth(w, h, a);
    } else if w.main.Busy? {
      BusyActionKeepsHealth(w, h, a);
    } else {
      VisitingActionKeepsHealth(w, h, a);
    }
  }

  lemma OnKeepsHealth(w: World, h: Id, a: Action)
    requires WorldInv(w) && HealthInv(w) && DeedEnabled(w, On(h, a)) && Healthy(DeedAfter(w, On(h, a)))
    ensures HealthInv(DeedAfter(w, On(h, a)))
  {
    var n := DeedAfter(w, On(h, a));
    assert PhaseOf(n.views[h].calls) != CloseFailed;
    ActionKeepsHealth(w, h, a);
    assert FocusOk(w.main, h, w.views[h]) && SweepOk(w.main, h, w.views[h]);
    forall g | g in n.views && g != h
      ensures HealthOk(n.main, g, n.views[g])
    {
      assert FocusOk(w.main, g, w.views[g]) && HealthOk(w.main, g, w.views[g]);
    }
  }

  lemma DeedKeepsHealth(w: World, d: Deed)
    requires WorldInv(w) && HealthInv(w) && DeedEnabled(w, d) && Healthy(DeedAfter(w, d))
    ensures HealthInv(DeedAfter(w, d))
  {
    if d.On? {
      OnKeepsHealth(w, d.h, d.a);
    } else {
      var n := DeedAfter(w, d);
      forall g | g in n.views
        ensures HealthOk(n.main, g, n.views[g])
      {
        if g in w.views {
          assert FocusOk(w.main, g, w.views[g]) && SweepOk(w.main, g, w.views[g]) && HealthOk(w.main, g, w.views[g]);
        }
      }
    }
  }

  lemma {:induction false} StoryKeepsHealth(s: Story)
    requires Holds(s) && Healthy(Now(s))
    ensures HealthInv(Now(s))
  {
    if s.And? {
      StoryKeepsWorld(s.earlier);
      HealthWasThereBefore(Now(s.earlier), s.d);
      StoryKeepsHealth(s.earlier);
      DeedKeepsHealth(Now(s.earlier), s.d);
    }
  }

  /**
    Token safety of the whole system: while no `qwfsDestroy` has thrown, `Cancel` only ever meets
    a live token, with `Destroy` and `Uninitialize` called in any order and any number of times.
    In general it meets a live token exactly when the host's own `qwfsDestroy` never began; a host
    whose `qwfsDestroy` threw is still listed, and destroying it again always throws.
   */
  lemma CancelMeetsALiveToken(s: Story, h: Id)
    requires Holds(s) && DeedEnabled(Now(s), On(h, Cancel))
    ensures Healthy(Now(s)) ==> Now(s).views[h].token.Live?
    ensures Now(s).views[h].token.Live? <==> Begun(Now(s).views[h].calls, Destroy) == 0
    ensures !Now(s).views[h].token.Live? ==> After(Now(s).views[h], Cancel).app.Away?
  {
    StoryKeepsWorld(s);
    assert FocusOk(Now(s).main, h, Now(s).views[h]);
    LegalLifecycleCounts(Now(s).views[h].calls);
    if Healthy(Now(s)) {
      StoryKeepsHealth(s);
      assert HealthOk(Now(s).main, h, Now(s).views[h]);
    }
  }

  /** Every host of the system has a legal native trace, with at most one of its calls in progress. */
  lemma EveryHostIsSafe(s: Story, h: Id)
    requires Holds(s) && h in Now(s).views
    ensures var v := Now(s).views[h];
            && Legal(v.calls) && InProgress(v.calls) <= 1
            && !(AppInside(v) && WorkerInside(v))
            && Begun(v.calls, Create) == 1 && Begun(v.calls, SetOptions) <= 1 && Begun(v.calls, Destroy) <= 1
  {
    var r := EveryHostRuns(s, h);
    NativeCallsExclude(r);
    TraceIsLegal(r);
  }

  // ---------------------------------------------------------------------------------------------
  // The two dictionaries

  /** The constructor of host h threw after its `qwfsCreate` had returned. */
  predicate ConstructorThrew(s: Story, h: Id) {
    match s
    case Once => false
    case And(earlier, d) => d == On(h, DirectoryFails) || d == On(h, EndOptions(false)) || ConstructorThrew(earlier, h)
  }

  /** What no step of the worker changes. */
  lemma WorkerLeavesLife(v: View, a: Action)
    requires Inv(v) && WorkerEnabled(v, a)
    ensures var n := WorkerAfter(v, a);
            && n.app == v.app && n.listed == v.listed && n.results == v.results
            && !v.worker.NotStarted? && !n.worker.NotStarted?
            && (PhaseOf(n.calls) == Closed <==> PhaseOf(v.calls) == Closed)
  {
  }

  lemma AppOrphans(v: View, a: Action)
    requires (Constructing(v) ==> v.worker.NotStarted?) && (v.worker.NotStarted? ==> Constructing(v) || Orphan(v))
    requires AppEnabled(v, a) && (Orphan(v) ==> !v.listed)
    ensures Orphan(AppAfter(v, a)) <==> Orphan(v) || a == DirectoryFails || a == EndOptions(false)
  {
  }

  lemma OrphanStep(v: View, a: Action)
    requires Inv(v) && Enabled(v, a)
    ensures Orphan(After(v, a)) <==> Orphan(v) || a == DirectoryFails || a == EndOptions(false)
  {
    if OfWorker(a) {
      WorkerLeavesLife(v, a);
    } else {
      AppOrphans(v, a);
    }
  }

  lemma {:induction false} OrphansAreFailedConstructors(s: Story, h: Id)
    requires Holds(s) && h in Now(s).views
    ensures Orphan(Now(s).views[h]) <==> ConstructorThrew(s, h)
  {
    var w, d := Now(s.earlier), s.d;
    StoryKeepsWorld(s.earlier);
    if h in w.views {
      assert FocusOk(w.main, h, w.views[h]);
      OrphansAreFailedConstructors(s.earlier, h);
      DeedIsAction(w, d, h);
      if ActionOn(d, h).Some? {
        OrphanStep(w.views[h], ActionOn(d, h).value);
      }
    } else {
      NobodyThrewYet(s.earlier, h);
    }
  }

  lemma {:induction false} NobodyThrewYet(s: Story, h: Id)
    requires Holds(s) && h !in Now(s).views
    ensures !ConstructorThrew(s, h)
  {
    if s.And? {
      NobodyThrewYet(s.earlier, h);
    }
  }

  /** Entries of the response dictionary left behind by constructors that threw. */
  function OrphanEntries(w: World): set<Id> {
    set h | h in w.views && Orphan(w.views[h]) && w.views[h].results.Some?
  }

  /** Hosts still listed although their handle is destroyed: `Uninitialize` has visited them. */
  function Swept(w: World): set<Id> {
    set h | h in w.views && w.views[h].listed && PhaseOf(w.views[h].calls) == Closed
  }

  /** The response dictionary between operations, and between two turns of the loop in `Uninitialize`. */
  lemma ResponseKeys(s: Story)
    requires Holds(s) && (Now(s).main.Idle? || Now(s).main.Sweep?)
    ensures var w := Now(s);
            && WithResults(w) == (Listed(w) - Swept(w)) + OrphanEntries(w)
            && Listed(w) !! OrphanEntries(w)
  {
    var w := Now(s);
    StoryKeepsWorld(s);
    forall h | h in w.views
      ensures w.views[h].results.Some? <==> h in Listed(w) - Swept(w) || h in OrphanEntries(w)
      ensures w.views[h].listed ==> !Orphan(w.views[h])
    {
      assert FocusOk(w.main, h, w.views[h]);
    }
  }

  /** Since the dictionaries were last cleared, the constructor of host h threw after its `qwfsCreate`. */
  predicate LeftBehind(s: Story, h: Id) {
    match s
    case Once => false
    case And(earlier, d) =>
      !d.ClearAll? && (d == On(h, DirectoryFails) || d == On(h, EndOptions(false)) || LeftBehind(earlier, h))
  }

  /** Since the dictionaries were last cleared, an `Uninitialize` has destroyed host h. */
  predicate SweptAway(s: Story, h: Id)
    requires Holds(s)
  {
    match s
    case Once => false
    case And(earlier, d) =>
      !d.ClearAll? && ((d == On(h, EndDestroy(true)) && Now(earlier).main.Visiting?) || SweptAway(earlier, h))
  }

  lemma LeftoverStep(v: View, a: Action)
    requires Inv(v) && Enabled(v, a) && !a.Wipe?
    ensures var n := After(v, a);
            Orphan(n) && n.results.Some? <==> (Orphan(v) && v.results.Some?) || a == DirectoryFails || a == EndOptions(false)
  {
    OrphanStep(v, a);
    if Orphan(v) {
      OrphansStay(v, a);
    }
  }

  /** Only `Wipe` happens to an orphan. */
  lemma OrphansStay(v: View, a: Action)
    requires Inv(v) && Orphan(v) && Enabled(v, a)
    ensures a.Wipe?
  {
  }

  /** Response entries left behind belong to constructors that threw. */
  lemma {:induction false} LeftBehindAreOrphans(s: Story, h: Id)
    requires Holds(s)
    ensures LeftBehind(s, h) <==> h in OrphanEntries(Now(s))
  {
    if s.And? {
      var w, d := Now(s.earlier), s.d;
      LeftBehindAreOrphans(s.earlier, h);
      StoryKeepsWorld(s.earlier);
      if h in w.views {
        assert FocusOk(w.main, h, w.views[h]);
        DeedIsAction(w, d, h);
        if ActionOn(d, h).Some? && !d.ClearAll? {
          LeftoverStep(w.views[h], ActionOn(d, h).value);
        }
      }
    }
  }

  /** Destroyed, still listed, and not about to be unlisted by the `Destroy` under way. */
  predicate StaysListed(v: View) {
    v.listed && PhaseOf(v.calls) == Closed && v.app != Forgetting(true) && v.app != Unlisting
  }

  lemma StaysListedStep(v: View, a: Action, visiting: bool)
    requires Inv(v) && Enabled(v, a) && !a.Wipe? && (a.EndDestroy? ==> v.app == Destroying(!visiting))
    ensures StaysListed(After(v, a)) <==> StaysListed(v) || (a == EndDestroy(true) && visiting)
  {
    if OfWorker(a) {
      WorkerLeavesLife(v, a);
    } else if OfDestruction(a) {
      DestructionStaysListed(v, a, visiting);
    } else {
      OthersStayListed(v, a);
    }
  }

  lemma DestructionStaysListed(v: View, a: Action, visiting: bool)
    requires Inv(v) && AppEnabled(v, a) && OfDestruction(a) && !a.Wipe? && (a.EndDestroy? ==> v.app == Destroying(!visiting))
    ensures StaysListed(AppAfter(v, a)) <==> StaysListed(v) || (a == EndDestroy(true) && visiting)
  {
  }

  lemma OthersStayListed(v: View, a: Action)
    requires Inv(v) && AppEnabled(v, a) && !OfDestruction(a)
    ensures StaysListed(AppAfter(v, a)) <==> StaysListed(v)
  {
  }

  /** Hosts that stay listed although destroyed were destroyed by `Uninitialize`. */
  lemma {:induction false} SweptAwayStayListed(s: Story, h: Id)
    requires Holds(s)
    ensures SweptAway(s, h) <==> h in Now(s).views && StaysListed(Now(s).views[h])
  {
    if s.And? {
      var w, d := Now(s.earlier), s.d;
      SweptAwayStayListed(s.earlier, h);
      StoryKeepsWorld(s.earlier);
      if h in w.views {
        assert FocusOk(w.main, h, w.views[h]);
        DeedIsAction(w, d, h);
        if ActionOn(d, h).Some? && !d.ClearAll? {
          StaysListedStep(w.views[h], ActionOn(d, h).value, w.main.Visiting?);
        }
      }
    }
  }

  /**
    Between public operations the response dictionary has the keys of the instance dictionary
    without those an interrupted `Uninitialize` has destroyed, and with those of constructors that
    threw, both since the dictionaries were last cleared. So the two agree if and only if neither
    has happened. While no `qwfsDestroy` has thrown, no `Uninitialize` is interrupted, and each
    listed host is usable, its worker started and not joined.
   */
  lemma DictionariesAgree(s: Story)
    requires Holds(s) && Now(s).main.Idle?
    ensures var w := Now(s);
            && (forall h :: h in WithResults(w) <==> (h in Listed(w) && !SweptAway(s, h)) || LeftBehind(s, h))
            && (WithResults(w) == Listed(w) <==> forall h :: h in w.views ==> !LeftBehind(s, h) && !SweptAway(s, h))
    ensures Healthy(Now(s)) ==> forall h :: !SweptAway(s, h)
    ensures Healthy(Now(s)) ==>
              forall h :: h in Listed(Now(s)) ==>
                var v := Now(s).views[h];
                Usable(v) && !v.worker.NotStarted? && !v.worker.Exited?
  {
    var w := Now(s);
    ResponseKeys(s);
    StoryKeepsWorld(s);
    forall h: Id
      ensures LeftBehind(s, h) <==> h in OrphanEntries(w)
      ensures SweptAway(s, h) <==> h in Swept(w)
    {
      LeftBehindAreOrphans(s, h);
      SweptAwayStayListed(s, h);
      if h in w.views {
        assert FocusOk(w.main, h, w.views[h]);
      }
    }
    if Healthy(w) {
      StoryKeepsHealth(s);
      forall h | h in Listed(w)
        ensures h !in Swept(w) && Usable(w.views[h]) && !w.views[h].worker.NotStarted? && !w.views[h].worker.Exited?
      {
        assert FocusOk(w.main, h, w.views[h]) && HealthOk(w.main, h, w.views[h]);
      }
    }
  }

  /** From here on, nothing of the application happens to host g. */
  predicate ElsewhereOnly(longer: Story, s: Story, g: Id) {
    longer == s ||
    match longer
    case Once => false
    case And(earlier, d) => ElsewhereOnly(earlier, s, g) && !d.ClearAll? && !(d.Visit? && d.h == g) && !(d.On? && d.h == g && !OfWorker(d.a))
  }

  /**
    Operations on other hosts leave a host's two dictionary entries and its list alone, whatever
    its own worker does meanwhile.
   */
  lemma {:induction false} OthersUntouched(longer: Story, s: Story, g: Id)
    requires Holds(longer) && Holds(s) && ElsewhereOnly(longer, s, g) && g in Now(s).views
    ensures var w, n := Now(s), Now(longer);
            && g in n.views && n.views[g].results == w.views[g].results && n.views[g].app == w.views[g].app
            && (g in Listed(n) <==> g in Listed(w))
            && (g in WithResults(n) <==> g in WithResults(w))
  {
    if longer != s {
      OthersUntouched(longer.earlier, s, g);
    }
  }

  // ---------------------------------------------------------------------------------------------
  // Uninitialize

  /** The hosts the loop has finished with. */
  function VisitedHosts(m: Main): set<Id>
    requires m.Sweep?
  {
    m.all - m.todo
  }

  /**
    The loop invariant of `Uninitialize`: the dictionary being enumerated does not change, every
    visited host is destroyed and its worker gone, and the response dictionary holds the listed
    hosts not yet destroyed, plus orphaned entries. While no `qwfsDestroy` has thrown, destroyed
    are exactly the visited ones.
   */
  lemma SweepLoopInvariant(s: Story)
    requires Holds(s) && Now(s).main.Sweep?
    ensures var w := Now(s);
            && Listed(w) == w.main.all
            && VisitedHosts(w.main) <= Swept(w)
            && WithResults(w) == (Listed(w) - Swept(w)) + OrphanEntries(w)
            && (forall h :: h in VisitedHosts(w.main) ==> h in w.views && w.views[h].worker.Exited?)
            && (Healthy(w) ==> Swept(w) == VisitedHosts(w.main))
  {
    var w := Now(s);
    ResponseKeys(s);
    StoryKeepsWorld(s);
    forall h | h in w.views
      ensures w.views[h].listed <==> h in w.main.all
      ensures h in VisitedHosts(w.main) ==> h in Swept(w) && w.views[h].worker.Exited?
    {
      assert FocusOk(w.main, h, w.views[h]) && SweepOk(w.main, h, w.views[h]);
    }
    assert Listed(w) == w.main.all;
    if Healthy(w) {
      StoryKeepsHealth(s);
      forall h | h in Swept(w)
        ensures h in VisitedHosts(w.main)
      {
        assert FocusOk(w.main, h, w.views[h]) && HealthOk(w.main, h, w.views[h]);
      }
    }
  }

  /**
    When `qwfsUninitialize` runs, both dictionaries are empty, no worker is running and every
    handle has been destroyed exactly once, except those of constructors that threw: there is no
    live handle if and only if no constructor ever threw after `qwfsCreate`.
   */
  lemma UninitializeFindsNoLiveHandle(s: Story)
    requires Holds(s) && Now(s).main.Ending?
    ensures var w := Now(s);
            && Listed(w) == {} && WithResults(w) == {}
            && (forall h :: h in w.views ==> w.views[h].worker.NotStarted? || w.views[h].worker.Exited?)
            && (forall h :: h in w.views ==> (Begun(w.views[h].calls, Destroy) == 1 <==> !ConstructorThrew(s, h)))
            && (forall h :: h in w.views ==> (PhaseOf(w.views[h].calls) == Closed <==> !ConstructorThrew(s, h)))
  {
    var w := Now(s);
    StoryKeepsWorld(s);
    forall h | h in w.views
      ensures !w.views[h].listed && w.views[h].results.None?
      ensures w.views[h].worker.NotStarted? || w.views[h].worker.Exited?
      ensures PhaseOf(w.views[h].calls) == Closed <==> !ConstructorThrew(s, h)
      ensures Begun(w.views[h].calls, Destroy) == 1 <==> !ConstructorThrew(s, h)
    {
      assert FocusOk(w.main, h, w.views[h]) && SweepOk(w.main, h, w.views[h]);
      OrphansAreFailedConstructors(s, h);
      LegalLifecycleCounts(w.views[h].calls);
    }
  }

  // ---------------------------------------------------------------------------------------------
  // Progress

  /**
    Between operations the application can construct another instance, call `Uninitialize`, and
    start any operation of an instance that is listed and not cancelled. A worker's steps are
    never held up by what the application does elsewhere.
   */
  lemma SystemCanStart(s: Story, h: Id, c: NativeTrace.Command, b: Block)
    requires Holds(s) && h in Now(s).views
    ensures var w, v := Now(s), Now(s).views[h];
            && (w.main.Idle? ==> DeedEnabled(w, BeginCreate) && DeedEnabled(w, BeginUninitialize))
            && (w.main.Idle? && Usable(v) ==> DeedEnabled(w, On(h, Ask(c))) && DeedEnabled(w, On(h, Enter(b))))
            && (w.main.Idle? && !v.worker.NotStarted? ==> DeedEnabled(w, On(h, EnterDestroy(true))))
            && (forall a :: OfWorker(a) && Enabled(v, a) ==> DeedEnabled(w, On(h, a)))
  {
    StoryKeepsWorld(s);
    assert FocusOk(Now(s).main, h, Now(s).views[h]);
    if Now(s).main.Idle? {
      var r := EveryHostRuns(s, h);
      OperationsCanStart(r, c, b, true);
    }
  }

  lemma AppMoveContinues(v: View, ok: bool)
    requires !v.app.Away?
    ensures Continuing(AppMove(v, ok))
  {
  }

  /**
    No deadlock in the whole system: inside any operation the application thread can take its
    next step, or the worker it waits for can.
   */
  lemma SystemNeverStuck(s: Story, ok: bool) returns (d: Deed)
    requires Holds(s) && !Now(s).main.Idle?
    ensures DeedEnabled(Now(s), d)
    ensures d.On? ==> Focus(Now(s).main, d.h)
  {
    var w := Now(s);
    StoryKeepsWorld(s);
    if w.main.Busy? || w.main.Visiting? {
      var h := w.main.h;
      var v := w.views[h];
      assert FocusOk(w.main, h, v);
      if (v.app.Wanting? && !v.lock.Free?) || (v.app.Joining? && !v.worker.Exited?) {
        WorkerCanMove(v, ok);
        d := On(h, WorkerMove(v.worker, ok, v.queue));
      } else {
        AppCanMove(v, ok);
        AppMoveContinues(v, ok);
        d := On(h, AppMove(v, ok));
      }
    } else if w.main.Sweep? && w.main.todo != {} {
      var h :| h in w.main.todo;
      assert FocusOk(w.main, h, w.views[h]) && SweepOk(w.main, h, w.views[h]);
      d := Visit(h);
    } else {
      d := if w.main.Sweep? then ClearAll else if w.main.Ending? then EndUninitialize(ok) else EndCreate(false, 0);
    }
  }
}
