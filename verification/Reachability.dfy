/** The sample's network monitor, and reconnects from a reachability change down to the engine. */
module Reachability {
  import opened NativeTrace
  import opened HostProtocol
  import opened HostInvariants
  import opened Commands

  datatype NetworkReachability = NotReachable | ViaCarrierDataNetwork | ViaLocalAreaNetwork

  /** A change to a network that can be reached. */
  predicate Edge(before: NetworkReachability, now: NetworkReachability) {
    before != now && now != NotReachable
  }

  /** The three command flags of an instance, each 0 or 1, as the two threads exchange them. */
  class CommandFlags {
    var requestRetry: int
    var requestAbort: int
    var requestReconnect: int
    ghost var asked: seq<Command>  // every request so far

    constructor ()
      ensures Valid() && Raised() == {} && asked == []
    {
      requestRetry, requestAbort, requestReconnect := 0, 0, 0;
      asked := [];
    }

    predicate Valid()
      reads this
    {
      requestRetry in {0, 1} && requestAbort in {0, 1} && requestReconnect in {0, 1}
    }

    /** The flags as the protocol's set of commands. */
    function Raised(): set<Command>
      reads this
    {
      (if requestRetry == 1 then {Command.Retry} else {}) +
      (if requestAbort == 1 then {Command.Abort} else {}) +
      (if requestReconnect == 1 then {Command.Reconnect} else {})
    }

    method Retry()
      requires Valid()
      modifies this
      ensures Valid() && Raised() == old(Raised()) + {Command.Retry}
      ensures asked == old(asked) + [Command.Retry]
    {
      requestRetry := 1;
      asked := asked + [Command.Retry];
    }

    method Abort()
      requires Valid()
      modifies this
      ensures Valid() && Raised() == old(Raised()) + {Command.Abort}
      ensures asked == old(asked) + [Command.Abort]
    {
      requestAbort := 1;
      asked := asked + [Command.Abort];
    }

    method Reconnect()
      requires Valid()
      modifies this
      ensures Valid() && Raised() == old(Raised()) + {Command.Reconnect}
      ensures asked == old(asked) + [Command.Reconnect]
    {
      requestReconnect := 1;
      asked := asked + [Command.Reconnect];
    }

    /** The worker's test: exchange the flag with 0 and look at what it was. */
    method TestAndClear(c: Command) returns (wasSet: bool)
      requires Valid()
      modifies this
      ensures Valid() && Raised() == old(Raised()) - {c}
      ensures wasSet <==> c in old(Raised())
      ensures asked == old(asked)
    {
      match c
      case Retry => wasSet := requestRetry == 1; requestRetry := 0;
      case Abort => wasSet := requestAbort == 1; requestAbort := 0;
      case Reconnect => wasSet := requestReconnect == 1; requestReconnect := 0;
    }
  }

  /** The monitor's two fields. */
  datatype Monitor = Monitor(pre: NetworkReachability, now: NetworkReachability)

  /** A frame shifts the fields. */
  function Observe(m: Monitor, observed: NetworkReachability): Monitor {
    Monitor(m.now, observed)
  }

  /** The test that follows. */
  predicate Wants(m: Monitor) {
    m.pre != m.now && m.now != NotReachable
  }

  /** The part of the sample that watches the network. */
  class NetworkMonitor {
    var preNetworkReachability: NetworkReachability
    var networkReachability: NetworkReachability
    var http3: CommandFlags?

    /** CreateHttp3 starts both fields at the present state; without an instance if its constructor throws. */
    constructor (observed: NetworkReachability, flags: CommandFlags?)
      ensures State() == Monitor(observed, observed) && http3 == flags
    {
      networkReachability := observed;
      preNetworkReachability := observed;
      http3 := flags;
    }

    function State(): Monitor
      reads this
    {
      Monitor(preNetworkReachability, networkReachability)
    }

    /** Without an instance, a change to a reachable network raises a null reference. */
    method CheckNetworkReachability(observed: NetworkReachability) returns (nullReference: bool)
      requires http3 != null ==> http3.Valid()
      modifies this`preNetworkReachability, this`networkReachability, http3
      ensures State() == Observe(old(State()), observed)
      ensures nullReference <==> http3 == null && Wants(State())
      ensures http3 != null ==>
                && http3.Valid()
                && http3.Raised() == old(http3.Raised()) + (if Wants(State()) then {Command.Reconnect} else {})
                && http3.asked == old(http3.asked) + (if Wants(State()) then [Command.Reconnect] else [])
    {
      nullReference := false;
      preNetworkReachability := networkReachability;
      networkReachability := observed;
      if preNetworkReachability != networkReachability {
        if networkReachability != NotReachable {
          if http3 == null {
            return true;
          }
          http3.Reconnect();
        }
      }
    }

    /** The sample destroys its instance at most once and forgets it. */
    method OnDestroy() returns (destroyed: CommandFlags?)
      modifies this`http3
      ensures http3 == null && destroyed == old(http3)
    {
      destroyed := http3;
      if http3 != null {
        http3 := null;
      }
    }
  }

  // ---------------------------------------------------------------------------------------------
  // Frames

  /** What the monitor has seen, frame by frame, after it was opened at `first`. */
  function Last(first: NetworkReachability, seen: seq<NetworkReachability>): NetworkReachability {
    if seen == [] then first else seen[|seen|-1]
  }

  /** Frame i was a change to a reachable network. */
  predicate EdgeAt(first: NetworkReachability, seen: seq<NetworkReachability>, i: nat)
    requires i < |seen|
  {
    Edge(Last(first, seen[..i]), seen[i])
  }

  function EdgeFrames(first: NetworkReachability, seen: seq<NetworkReachability>): set<nat> {
    set i: nat | i < |seen| && EdgeAt(first, seen, i)
  }

  function Reconnects(n: nat): seq<Command> {
    seq(n, _ => Command.Reconnect)
  }

  lemma OneMoreFrame(first: NetworkReachability, frames: seq<NetworkReachability>, i: nat)
    requires i < |frames|
    ensures |EdgeFrames(first, frames[..i + 1])| ==
            |EdgeFrames(first, frames[..i])| + if Edge(Last(first, frames[..i]), frames[i]) then 1 else 0
    ensures Last(first, frames[..i + 1]) == frames[i]
  {
    EdgeFramesGrow(first, frames[..i], frames[i]);
    assert frames[..i + 1] == frames[..i] + [frames[i]];
  }

  /** A frame, with the requests counted. */
  method WatchFrame(monitor: NetworkMonitor, flags: CommandFlags, observed: NetworkReachability, ghost n: nat)
    requires monitor.http3 == flags && flags.Valid()
    modifies monitor`preNetworkReachability, monitor`networkReachability, flags
    ensures flags.Valid() && monitor.networkReachability == observed
    ensures forall before :: old(flags.asked) == before + Reconnects(n) ==>
              flags.asked == before + Reconnects(if Edge(old(monitor.networkReachability), observed) then n + 1 else n)
  {
    var _ := monitor.CheckNetworkReachability(observed);
    assert Reconnects(n + 1) == Reconnects(n) + [Command.Reconnect];
  }

  /**
    A monitor taken through any sequence of frames: it asks for a reconnect once for each change
    to a reachable network, and for nothing else.
   */
  method Watch(first: NetworkReachability, frames: seq<NetworkReachability>, flags: CommandFlags) returns (monitor: NetworkMonitor)
    requires flags.Valid()
    modifies flags
    ensures fresh(monitor) && monitor.networkReachability == Last(first, frames) && flags.Valid()
    ensures flags.asked == old(flags.asked) + Reconnects(|EdgeFrames(first, frames)|)
  {
    monitor := new NetworkMonitor(first, flags);
    ghost var n := 0;
    assert EdgeFrames(first, frames[..0]) == {};
    for i := 0 to |frames|
      invariant fresh(monitor) && monitor.http3 == flags && flags.Valid()
      invariant monitor.networkReachability == Last(first, frames[..i])
      invariant n == |EdgeFrames(first, frames[..i])|
      invariant flags.asked == old(flags.asked) + Reconnects(n)
    {
      OneMoreFrame(first, frames, i);
      WatchFrame(monitor, flags, frames[i], n);
      n := |EdgeFrames(first, frames[..i + 1])|;
    }
    assert frames[..|frames|] == frames;
  }

  /**
    A session: the application's frames interleaved with every other action of the application
    and the worker on this host. Only the monitor asks for reconnects.
   */
  datatype Session =
    | Opened(first: NetworkReachability)
    | Frame(earlier: Session, observed: NetworkReachability)
    | Other(earlier: Session, a: Action)

  function First(s: Session): NetworkReachability {
    match s
    case Opened(first) => first
    case Frame(earlier, _) => First(earlier)
    case Other(earlier, _) => First(earlier)
  }

  function Seen(s: Session): seq<NetworkReachability> {
    match s
    case Opened(_) => []
    case Frame(earlier, observed) => Seen(earlier) + [observed]
    case Other(earlier, _) => Seen(earlier)
  }

  /** The frame is a change to a reachable network. */
  predicate EdgeNext(earlier: Session, observed: NetworkReachability) {
    Edge(Last(First(earlier), Seen(earlier)), observed)
  }

  /** The monitor's fields in the session. */
  function MonitorOf(s: Session): Monitor {
    match s
    case Opened(first) => Monitor(first, first)
    case Frame(earlier, observed) => Observe(MonitorOf(earlier), observed)
    case Other(earlier, _) => MonitorOf(earlier)
  }

  lemma {:induction false} MonitorSees(s: Session)
    ensures MonitorOf(s).now == Last(First(s), Seen(s))
  {
    if !s.Opened? {
      MonitorSees(s.earlier);
    }
  }

  /** The monitor calls `Reconnect` in exactly the frames that are changes to a reachable network. */
  lemma MonitorAsksOnEdges(earlier: Session, observed: NetworkReachability)
    ensures Wants(MonitorOf(Frame(earlier, observed))) <==> Edge(Last(First(earlier), Seen(earlier)), observed)
  {
    MonitorSees(earlier);
  }

  /** The host's run in the session: a frame is an action exactly when the monitor calls `Reconnect`. */
  function HostRun(s: Session): Run {
    match s
    case Opened(_) => Birth
    case Frame(earlier, _) => if Wants(MonitorOf(s)) then Act(HostRun(earlier), Ask(Reconnect)) else HostRun(earlier)
    case Other(earlier, a) => Act(HostRun(earlier), a)
  }

  predicate Proper(s: Session) {
    match s
    case Opened(_) => true
    case Frame(earlier, _) => Proper(earlier) && Valid(HostRun(earlier)) && Enabled(End(HostRun(earlier)), Ask(Reconnect))
    case Other(earlier, a) => Proper(earlier) && Valid(HostRun(earlier)) && Enabled(End(HostRun(earlier)), a) && a != Ask(Reconnect)
  }

  lemma {:induction false} SessionIsRun(s: Session)
    requires Proper(s)
    ensures Valid(HostRun(s))
  {
    if !s.Opened? {
      SessionIsRun(s.earlier);
    }
  }

  lemma EdgeFramesGrow(first: NetworkReachability, seen: seq<NetworkReachability>, observed: NetworkReachability)
    ensures EdgeFrames(first, seen + [observed]) ==
            EdgeFrames(first, seen) + if Edge(Last(first, seen), observed) then {|seen|} else {}
    ensures |EdgeFrames(first, seen + [observed])| ==
            |EdgeFrames(first, seen)| + if Edge(Last(first, seen), observed) then 1 else 0
  {
    var more := seen + [observed];
    assert more[..|seen|] == seen;
    forall i: nat | i < |seen|
      ensures EdgeAt(first, more, i) <==> EdgeAt(first, seen, i)
    {
      assert more[..i] == seen[..i];
    }
    assert EdgeAt(first, more, |seen|) <==> Edge(Last(first, seen), observed);
    assert EdgeFrames(first, more) ==
           EdgeFrames(first, seen) + if Edge(Last(first, seen), observed) then {|seen|} else {};
  }

  /** Reconnects are requested exactly as often as reachability changes to a reachable network. */
  lemma {:induction false} OneRequestPerEdge(s: Session)
    requires Proper(s)
    ensures Requests(HostRun(s), Reconnect) == |EdgeFrames(First(s), Seen(s))|
  {
    match s
    case Opened(_) =>
    case Frame(earlier, observed) =>
      OneRequestPerEdge(earlier);
      MonitorAsksOnEdges(earlier, observed);
      EdgeFramesGrow(First(earlier), Seen(earlier), observed);
    case Other(earlier, _) => OneRequestPerEdge(earlier);
  }

  /** The most recent edge has had no native reconnect since. */
  predicate EdgeUnanswered(s: Session)
    requires Proper(s)
  {
    match s
    case Opened(_) => false
    case Frame(earlier, observed) => EdgeNext(earlier, observed) || EdgeUnanswered(earlier)
    case Other(earlier, a) => EdgeUnanswered(earlier) && !Begins(End(HostRun(earlier)), a, Reconnect)
  }

  lemma {:induction false} UnansweredIsOwed(s: Session)
    requires Proper(s) && EdgeUnanswered(s)
    ensures Valid(HostRun(s)) && Owed(HostRun(s), Reconnect)
  {
    SessionIsRun(s);
    if s.Frame? {
      MonitorAsksOnEdges(s.earlier, s.observed);
    }
    if s.Other? || !EdgeNext(s.earlier, s.observed) {
      UnansweredIsOwed(s.earlier);
    }
  }

  /**
    End to end: over any sequence of frames and any interleaving with the worker, native
    reconnects never exceed the changes to a reachable network, and each such change is followed
    by a native reconnect that begins after it, or is still outstanding.
   */
  lemma ReconnectsFollowEdges(s: Session)
    requires Proper(s)
    ensures var v := End(HostRun(s));
            && Begun(v.calls, Run(Reconnect)) <= |EdgeFrames(First(s), Seen(s))|
            && (EdgeUnanswered(s) ==> Outstanding(v, Reconnect))
  {
    SessionIsRun(s);
    OneRequestPerEdge(s);
    CallsNeverExceedRequests(HostRun(s), Reconnect);
    if EdgeUnanswered(s) {
      UnansweredIsOwed(s);
      NoRequestIsLost(HostRun(s), Reconnect);
    }
  }
}
