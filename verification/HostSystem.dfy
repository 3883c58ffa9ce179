/**
  Any number of hosts: one application thread, which constructs, uses and destroys instances and
  calls `Uninitialize`, and one worker per host. `qwfsCreate` is assumed to return an id that was
  never used before; everything else the engine does is open.
 */
module HostSystem {
  import opened NativeTrace
  import opened HostProtocol
  import opened HostInvariants

  type Id = nat

  /** Which operation the application thread is in. */
  datatype Main =
    | Idle
    | CreatingHost
    | Busy(h: Id)
    | Sweep(all: set<Id>, todo: set<Id>)            // between two turns of the loop in Uninitialize
    | Visiting(all: set<Id>, todo: set<Id>, h: Id)  // inside Destroy(false) of h
    | Ending                                        // inside qwfsUninitialize

  /** Every host ever created, with its view; the two dictionaries are the `listed` and `results` fields. */
  datatype World = World(main: Main, views: map<Id, View>)

  datatype Deed =
    | BeginCreate
    | EndCreate(ok: bool, id: Id)
    | On(h: Id, a: Action)
    | BeginUninitialize
    | Visit(h: Id)
    | ClearAll
    | EndUninitialize(ok: bool)

  /** The keys of the instance dictionary. */
  function Listed(w: World): set<Id> {
    set h | h in w.views && w.views[h].listed
  }

  /** The keys of the response dictionary. */
  function WithResults(w: World): set<Id> {
    set h | h in w.views && w.views[h].results.Some?
  }

  /** The public operations that start on an instance. */
  predicate Opens(a: Action) {
    a.Ask? || a.Enter? || a == EnterDestroy(true)
  }

  /** Actions inside an operation of an instance. */
  predicate Continuing(a: Action) {
    !OfWorker(a) && !a.Ask? && !a.Enter? && !a.EnterDestroy? && !a.Wipe?
  }

  predicate MayAct(m: Main, h: Id, a: Action) {
    || OfWorker(a)
    || (m.Idle? && Opens(a))
    || (m == Busy(h) && Continuing(a))
    || (m.Visiting? && m.h == h && Continuing(a))
  }

  predicate DeedEnabled(w: World, d: Deed) {
    match d
    case BeginCreate => w.main.Idle?
    case EndCreate(ok, id) => w.main.CreatingHost? && (ok ==> id !in w.views)
    case On(h, a) => h in w.views && Enabled(w.views[h], a) && MayAct(w.main, h, a)
    case BeginUninitialize => w.main.Idle?
    case Visit(h) => w.main.Sweep? && h in w.main.todo && h in w.views && Enabled(w.views[h], EnterDestroy(false))
    case ClearAll => w.main.Sweep? && w.main.todo == {}
    case EndUninitialize(_) => w.main.Ending?
  }

  /** Does the action leave `Destroy` by an exception? */
  predicate Escapes(v: View, a: Action) {
    (a.Cancel? && v.token.Disposed?) || (a.EndDestroy? && !a.ok)
  }

  function MainAfter(w: World, h: Id, a: Action): Main
    requires h in w.views && Enabled(w.views[h], a)
  {
    var back := After(w.views[h], a).app.Away?;
    match w.main
    case Idle => if OfWorker(a) || back then Idle else Busy(h)
    case Busy(g) => if !OfWorker(a) && back then Idle else Busy(g)
    case Visiting(all, todo, g) =>
      if OfWorker(a) || !back then w.main
      else if Escapes(w.views[h], a) then Idle
      else Sweep(all, todo)
    case _ => w.main
  }

  function Cleared(v: View): View {
    v.(listed := false, results := None)
  }

  function DeedAfter(w: World, d: Deed): World
    requires DeedEnabled(w, d)
  {
    match d
    case BeginCreate => w.(main := CreatingHost)
    case EndCreate(ok, id) => if ok then World(Busy(id), w.views[id := Born]) else w.(main := Idle)
    case On(h, a) => World(MainAfter(w, h, a), w.views[h := After(w.views[h], a)])
    case BeginUninitialize => w.(main := Sweep(Listed(w), Listed(w)))
    case Visit(h) =>
      var v := After(w.views[h], EnterDestroy(false));
      World(if v.app.Away? then Sweep(w.main.all, w.main.todo - {h}) else Visiting(w.main.all, w.main.todo - {h}, h),
            w.views[h := v])
    case ClearAll => World(Ending, map h | h in w.views :: Cleared(w.views[h]))
    case EndUninitialize(_) => w.(main := Idle)
  }

  datatype Story = Once | And(earlier: Story, d: Deed)

  const Nobody: World := World(Idle, map[])

  predicate Holds(s: Story)
    decreases s, 0
  {
    s.Once? || (Holds(s.earlier) && DeedEnabled(Now(s.earlier), s.d))
  }

  function Now(s: Story): World
    requires Holds(s)
    decreases s, 1
  {
    match s
    case Once => Nobody
    case And(earlier, d) => DeedAfter(Now(earlier), d)
  }

  // ---------------------------------------------------------------------------------------------
  // Invariant

  predicate Sweeping(m: Main) {
    m.Sweep? || m.Visiting?
  }

  /** The application's operation is on this host. */
  predicate Focus(m: Main, h: Id) {
    m == Busy(h) || (m.Visiting? && m.h == h)
  }

  predicate InDestroy(pc: AppPc, remove: bool) {
    || pc == Cancelling(remove) || pc == Signalled(remove) || pc == Joining(remove) || pc == Joined(remove)
    || pc == Destroying(remove) || pc == Forgetting(remove)
  }

  predicate InSomeDestroy(pc: AppPc) {
    pc.Cancelling? || pc.Signalled? || pc.Joining? || pc.Joined? || pc.Destroying? || pc.Forgetting?
  }

  predicate FocusOk(m: Main, h: Id, v: View) {
    && Inv(v)
    && (!v.app.Away? <==> Focus(m, h))
    && (m == Busy(h) && InSomeDestroy(v.app) ==> InDestroy(v.app, true))
    && (m.Visiting? && m.h == h ==> InDestroy(v.app, false))
  }

  predicate SweepOk(m: Main, h: Id, v: View) {
    && (Sweeping(m) ==> (v.listed <==> h in m.all))
    && (m.Sweep? && h in m.all && h !in m.todo ==> PhaseOf(v.calls) == Closed)
    && (m.Visiting? && h in m.all && h !in m.todo && h != m.h ==> PhaseOf(v.calls) == Closed)
    && (m.Visiting? && h == m.h ==> h in m.all && h !in m.todo)
    && (m.Ending? ==> !v.listed && v.results.None?)
  }

  predicate MainOk(w: World) {
    && (w.main.Busy? ==> w.main.h in w.views)
    && (w.main.Visiting? ==> w.main.h in w.views)
    && (Sweeping(w.main) ==> w.main.todo <= w.main.all && w.main.all <= w.views.Keys)
  }

  predicate WorldInv(w: World) {
    MainOk(w) && forall h :: h in w.views ==> FocusOk(w.main, h, w.views[h]) && SweepOk(w.main, h, w.views[h])
  }

  lemma WorkerActionKeepsHost(w: World, h: Id, a: Action)
    requires WorldInv(w) && DeedEnabled(w, On(h, a)) && OfWorker(a)
    ensures FocusOk(w.main, h, After(w.views[h], a)) && SweepOk(w.main, h, After(w.views[h], a))
  {
    var v := w.views[h];
    assert FocusOk(w.main, h, v) && SweepOk(w.main, h, v);
    StepKeepsInv(v, a);
    var n := After(v, a);
    assert n.app == v.app && n.listed == v.listed && n.results == v.results;
    assert PhaseOf(v.calls) == Closed ==> n.calls == v.calls;
  }

  lemma OpeningKeepsHost(w: World, h: Id, a: Action)
    requires WorldInv(w) && DeedEnabled(w, On(h, a)) && w.main.Idle? && Opens(a)
    ensures FocusOk(MainAfter(w, h, a), h, After(w.views[h], a)) && SweepOk(MainAfter(w, h, a), h, After(w.views[h], a))
  {
    assert FocusOk(w.main, h, w.views[h]);
    StepKeepsInv(w.views[h], a);
  }

  lemma BusyActionKeepsHost(w: World, h: Id, a: Action)
    requires WorldInv(w) && DeedEnabled(w, On(h, a)) && w.main == Busy(h) && Continuing(a)
    ensures FocusOk(MainAfter(w, h, a), h, After(w.views[h], a)) && SweepOk(MainAfter(w, h, a), h, After(w.views[h], a))
  {
    assert FocusOk(w.main, h, w.views[h]);
    StepKeepsInv(w.views[h], a);
  }

  lemma VisitingActionKeepsHost(w: World, h: Id, a: Action)
    requires WorldInv(w) && DeedEnabled(w, On(h, a)) && w.main.Visiting? && w.main.h == h && Continuing(a)
    ensures FocusOk(MainAfter(w, h, a), h, After(w.views[h], a)) && SweepOk(MainAfter(w, h, a), h, After(w.views[h], a))
  {
    assert FocusOk(w.main, h, w.views[h]) && SweepOk(w.main, h, w.views[h]);
    StepKeepsInv(w.views[h], a);
  }

  /** One host's part of a deed on host h. */
  lemma ActionKeepsHost(w: World, h: Id, a: Action)
    requires WorldInv(w) && DeedEnabled(w, On(h, a))
    ensures FocusOk(MainAfter(w, h, a), h, After(w.views[h], a)) && SweepOk(MainAfter(w, h, a), h, After(w.views[h], a))
  {
    if OfWorker(a) {
      WorkerActionKeepsHost(w, h, a);
    } else if w.main.Idle? {
      OpeningKeepsHost(w, h, a);
    } else if w.main.Busy? {
      BusyActionKeepsHost(w, h, a);
    } else {
      VisitingActionKeepsHost(w, h, a);
    }
  }

  lemma ActionKeepsOthers(w: World, h: Id, a: Action, g: Id)
    requires WorldInv(w) && DeedEnabled(w, On(h, a)) && g in w.views && g != h
    ensures FocusOk(MainAfter(w, h, a), g, w.views[g]) && SweepOk(MainAfter(w, h, a), g, w.views[g])
  {
    assert FocusOk(w.main, g, w.views[g]) && SweepOk(w.main, g, w.views[g]);
    assert FocusOk(w.main, h, w.views[h]) && SweepOk(w.main, h, w.views[h]);
    if w.main.Visiting? && w.main.h == h && !OfWorker(a) && MainAfter(w, h, a).Sweep? {
      assert g in w.main.all && g !in w.main.todo ==> PhaseOf(w.views[g].calls) == Closed;
    }
  }

  lemma OnKeepsWorld(w: World, h: Id, a: Action)
    requires WorldInv(w) && DeedEnabled(w, On(h, a))
    ensures WorldInv(DeedAfter(w, On(h, a)))
  {
    var n := DeedAfter(w, On(h, a));
    forall g | g in n.views
      ensures FocusOk(n.main, g, n.views[g]) && SweepOk(n.main, g, n.views[g])
    {
      if g == h {
        ActionKeepsHost(w, h, a);
      } else {
        ActionKeepsOthers(w, h, a, g);
      }
    }
  }

  lemma VisitKeepsWorld(w: World, h: Id)
    requires WorldInv(w) && DeedEnabled(w, Visit(h))
    ensures WorldInv(DeedAfter(w, Visit(h)))
  {
    var n := DeedAfter(w, Visit(h));
    assert FocusOk(w.main, h, w.views[h]) && SweepOk(w.main, h, w.views[h]);
    StepKeepsInv(w.views[h], EnterDestroy(false));
    forall g | g in n.views
      ensures FocusOk(n.main, g, n.views[g]) && SweepOk(n.main, g, n.views[g])
    {
      assert FocusOk(w.main, g, w.views[g]) && SweepOk(w.main, g, w.views[g]);
    }
  }

  /** The two Clear calls act on each host as one enabled action of its own machine. */
  lemma ClearIsWipe(w: World, h: Id)
    requires WorldInv(w) && DeedEnabled(w, ClearAll) && h in w.views
    ensures Enabled(w.views[h], Wipe) && After(w.views[h], Wipe) == Cleared(w.views[h])
  {
    assert FocusOk(w.main, h, w.views[h]) && SweepOk(w.main, h, w.views[h]);
  }

  lemma ClearKeepsWorld(w: World)
    requires WorldInv(w) && DeedEnabled(w, ClearAll)
    ensures WorldInv(DeedAfter(w, ClearAll))
  {
    var n := DeedAfter(w, ClearAll);
    forall g | g in n.views
      ensures FocusOk(n.main, g, n.views[g]) && SweepOk(n.main, g, n.views[g])
    {
      assert FocusOk(w.main, g, w.views[g]);
      ClearIsWipe(w, g);
      StepKeepsInv(w.views[g], Wipe);
    }
  }

  lemma DeedKeepsWorld(w: World, d: Deed)
    requires WorldInv(w) && DeedEnabled(w, d)
    ensures WorldInv(DeedAfter(w, d))
  {
    match d
    case On(h, a) => OnKeepsWorld(w, h, a);
    case Visit(h) => VisitKeepsWorld(w, h);
    case ClearAll => ClearKeepsWorld(w);
    case _ =>
      var n := DeedAfter(w, d);
      BornKeepsInv();
      forall g | g in n.views
        ensures FocusOk(n.main, g, n.views[g]) && SweepOk(n.main, g, n.views[g])
      {
        if g in w.views {
          assert FocusOk(w.main, g, w.views[g]) && SweepOk(w.main, g, w.views[g]);
        }
      }
  }

  lemma {:induction false} StoryKeepsWorld(s: Story)
    requires Holds(s)
    ensures WorldInv(Now(s))
  {
    if s.And? {
      StoryKeepsWorld(s.earlier);
      DeedKeepsWorld(Now(s.earlier), s.d);
    }
  }

  // ---------------------------------------------------------------------------------------------
  // Each host of the system runs its own two-thread machine

  /** What the deed does to host h, as an action of its own machine. */
  function ActionOn(d: Deed, h: Id): Option<Action> {
    match d
    case On(g, a) => if g == h then Some(a) else None
    case Visit(g) => if g == h then Some(EnterDestroy(false)) else None
    case ClearAll => Some(Wipe)
    case _ => None
  }

  lemma DeedIsAction(w: World, d: Deed, h: Id)
    requires WorldInv(w) && DeedEnabled(w, d) && h in w.views
    ensures var n := DeedAfter(w, d);
            h in n.views &&
            match ActionOn(d, h)
            case Some(a) => Enabled(w.views[h], a) && n.views[h] == After(w.views[h], a)
            case None => n.views[h] == w.views[h]
  {
    if d.ClearAll? {
      ClearIsWipe(w, h);
    }
  }

  /** What happened so far, seen from one host, is a run of `HostProtocol`: all its theorems hold of every host. */
  lemma {:induction false} EveryHostRuns(s: Story, h: Id) returns (r: Run)
    requires Holds(s) && h in Now(s).views
    ensures Valid(r) && End(r) == Now(s).views[h]
  {
    var w, d := Now(s.earlier), s.d;
    StoryKeepsWorld(s.earlier);
    if h !in w.views {
      r := Birth;
    } else {
      r := EveryHostRuns(s.earlier, h);
      DeedIsAction(w, d, h);
      if ActionOn(d, h).Some? {
        r := Act(r, ActionOn(d, h).value);
      }
    }
  }
}
