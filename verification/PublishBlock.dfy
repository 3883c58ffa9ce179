/**
  `PublishRequest` as a block of the driver protocol: what the batch specification in `Requests`
  submits is what the host's machine does in one locked block.
 */
module PublishBlock {
  import opened NativeTrace
  import opened HostProtocol
  import opened BlockRecords
  import opened AtomicHost
  import opened BlockTraces
  import Requests

  function OutcomeOf(o: Requests.PublishResult): Outcome {
    match o
    case Published => Complete
    case Failed(NativeException) => CallThrew
    case Failed(_) => Faulted
  }

  /** One turn of the loop: a native call that returns or throws, or an exception before it. */
  function TurnActions(id: nat, r: Requests.Request, fate: Requests.Fate, queue: seq<Completion>): seq<Action> {
    var t := Requests.Turn(Requests.Progress([], id, Requests.Published), r, fate);
    if t.submitted == [] then [Fault] else [BeginCall, EndCall(t.submitted[0].accepted, queue)]
  }

  /** From taking the lock to the end of the loop. */
  function BatchActions(requests: seq<Requests.Request>, fates: seq<Requests.Fate>, id: nat, queue: seq<Completion>): seq<Action>
    requires |requests| == |fates|
  {
    if requests == [] then [Acquire]
    else
      var n := |requests| - 1;
      var b := Requests.Publish(requests[..n], fates[..n], id);
      BatchActions(requests[..n], fates[..n], id, queue) +
      if b.outcome.Failed? then [] else TurnActions(b.id, requests[n], fates[n], queue)
  }

  /** Where the block stands after a batch, or a first part of it. */
  predicate Stands(v: View, acts: seq<Action>, done: nat, b: Requests.Progress)
    requires CanDo(v, acts)
  {
    && Opened(AppThread, acts)
    && v.app.Wanting?
    && TallyOf(acts) == Tally(Requests.AcceptedIn(b.submitted), OutcomeOf(b.outcome))
    && Do(v, acts).app == (if b.outcome.Published? then Holding(v.app.b, done) else Raised(v.app.b))
    && (b.outcome.Published? ==> Requests.AcceptedIn(b.submitted) == done)
  }

  lemma AcceptedGrows(subs: seq<Requests.Submission>, s: Requests.Submission)
    ensures Requests.AcceptedIn(subs + [s]) == Requests.AcceptedIn(subs) + if s.accepted then 1 else 0
  {
    assert (subs + [s])[..|subs + [s]|-1] == subs;
  }

  lemma AppendAction(v: View, acts: seq<Action>, a: Action)
    requires CanDo(v, acts) && Opened(AppThread, acts) && Inner(AppThread, a) && Enabled(Do(v, acts), a)
    ensures CanDo(v, acts + [a]) && Do(v, acts + [a]) == After(Do(v, acts), a)
    ensures Opened(AppThread, acts + [a]) && TallyOf(acts + [a]) == Tallied(TallyOf(acts), a)
  {
    Extended(v, acts, a);
  }

  lemma CallBegins(v: View, acts: seq<Action>, k: nat)
    requires CanDo(v, acts) && Opened(AppThread, acts) && v.app.Wanting? && v.app.b.Publish? && k < v.app.b.size
    requires Do(v, acts).app == Holding(v.app.b, k)
    ensures CanDo(v, acts + [BeginCall]) && Opened(AppThread, acts + [BeginCall])
    ensures Do(v, acts + [BeginCall]).app == Calling(v.app.b, k) && TallyOf(acts + [BeginCall]) == TallyOf(acts)
  {
    AppendAction(v, acts, BeginCall);
  }

  lemma CallEnds(v: View, acts: seq<Action>, k: nat, ok: bool, queue: seq<Completion>)
    requires CanDo(v, acts) && Opened(AppThread, acts) && v.app.Wanting? && v.app.b.Publish? && k < v.app.b.size
    requires Do(v, acts).app == Calling(v.app.b, k)
    ensures var more := acts + [EndCall(ok, queue)];
            && CanDo(v, more) && Opened(AppThread, more)
            && Do(v, more).app == (if ok then Holding(v.app.b, k + 1) else Raised(v.app.b))
            && TallyOf(more) == Tallied(TallyOf(acts), EndCall(ok, queue))
  {
    EndCallIs(Do(v, acts), k, ok, queue);
    AppendAction(v, acts, EndCall(ok, queue));
  }

  lemma EndCallIs(w: View, k: nat, ok: bool, queue: seq<Completion>)
    requires w.app.Calling? && w.app.b.Publish? && w.app.i == k < w.app.b.size
    ensures Enabled(w, EndCall(ok, queue))
    ensures After(w, EndCall(ok, queue)).app == if ok then Holding(w.app.b, k + 1) else Raised(w.app.b)
  {
  }

  lemma CallStands(v: View, acts: seq<Action>, k: nat, b: Requests.Progress, n: Requests.Progress, s: Requests.Submission, queue: seq<Completion>)
    requires CanDo(v, acts) && Stands(v, acts, k, b) && b.outcome.Published? && v.app.b.Publish? && k < v.app.b.size
    requires n.submitted == b.submitted + [s]
    requires n.outcome == if s.accepted then Requests.Published else Requests.Failed(Requests.NativeException)
    ensures var more := acts + [BeginCall] + [EndCall(s.accepted, queue)];
            CanDo(v, more) && Stands(v, more, k + 1, n)
  {
    CallBegins(v, acts, k);
    CallEnds(v, acts + [BeginCall], k, s.accepted, queue);
    AcceptedGrows(b.submitted, s);
  }

  lemma FaultStands(v: View, acts: seq<Action>, k: nat, b: Requests.Progress, n: Requests.Progress)
    requires CanDo(v, acts) && Stands(v, acts, k, b) && b.outcome.Published? && v.app.b.Publish?
    requires n.submitted == b.submitted && n.outcome.Failed? && !n.outcome.exception.NativeException?
    ensures CanDo(v, acts + [Fault]) && Stands(v, acts + [Fault], k + 1, n)
  {
    AppendAction(v, acts, Fault);
  }

  /** A turn makes one native call for the submission s, or none. */
  lemma TurnCases(b: Requests.Progress, r: Requests.Request, fate: Requests.Fate, queue: seq<Completion>)
    returns (calls: bool, s: Requests.Submission)
    requires b.outcome.Published?
    ensures var n := Requests.Turn(b, r, fate);
            var turn := TurnActions(b.id, r, fate, queue);
            if calls
            then turn == [BeginCall, EndCall(s.accepted, queue)] && n.submitted == b.submitted + [s]
                 && n.outcome == if s.accepted then Requests.Published else Requests.Failed(Requests.NativeException)
            else turn == [Fault] && n.submitted == b.submitted && n.outcome.Failed? && !n.outcome.exception.NativeException?
  {
    calls := TurnActions(b.id, r, fate, queue) != [Fault];
    s := Requests.Submission(b.id, if r.path.Text? then Requests.Normalise(r.path.value) else "", !fate.NativeThrows?);
  }

  lemma TurnStands(v: View, acts: seq<Action>, k: nat, b: Requests.Progress, n: Requests.Progress, turn: seq<Action>,
                   calls: bool, s: Requests.Submission, queue: seq<Completion>)
    requires CanDo(v, acts) && Stands(v, acts, k, b) && b.outcome.Published? && v.app.b.Publish? && k < v.app.b.size
    requires if calls
             then turn == [BeginCall, EndCall(s.accepted, queue)] && n.submitted == b.submitted + [s]
                  && n.outcome == if s.accepted then Requests.Published else Requests.Failed(Requests.NativeException)
             else turn == [Fault] && n.submitted == b.submitted && n.outcome.Failed? && !n.outcome.exception.NativeException?
    ensures CanDo(v, acts + turn) && Stands(v, acts + turn, k + 1, n)
  {
    if calls {
      CallStands(v, acts, k, b, n, s, queue);
      assert acts + turn == acts + [BeginCall] + [EndCall(s.accepted, queue)];
    } else {
      FaultStands(v, acts, k, b, n);
    }
  }

  lemma {:induction false} BatchStands(v: View, requests: seq<Requests.Request>, fates: seq<Requests.Fate>, id: nat, queue: seq<Completion>)
    requires |requests| == |fates| && v.lock.Free?
    requires v.app.Wanting? && v.app.b.Publish? && |requests| <= v.app.b.size
    ensures var acts := BatchActions(requests, fates, id, queue);
            CanDo(v, acts) && Stands(v, acts, |requests|, Requests.Publish(requests, fates, id))
  {
    if requests == [] {
      Extended(v, [], Acquire);
      assert [] + [Acquire] == [Acquire];
      assert TallyOf([Acquire]) == Tallied(TallyOf([Acquire][..0]), Acquire);
    } else {
      var n := |requests| - 1;
      BatchStands(v, requests[..n], fates[..n], id, queue);
      var b := Requests.Publish(requests[..n], fates[..n], id);
      var acts := BatchActions(requests[..n], fates[..n], id, queue);
      if b.outcome.Failed? {
        assert acts + [] == acts;
      } else {
        var calls, s := TurnCases(b, requests[n], fates[n], queue);
        TurnStands(v, acts, n, b, Requests.Turn(b, requests[n], fates[n]), TurnActions(b.id, requests[n], fates[n], queue), calls, s, queue);
      }
    }
  }

  /**
    Publishing a batch is a whole block of the host's machine. It leaves on record the batch's
    size, the number of requests accepted and how the batch ended, and the engine sees exactly the
    calls of that record.
   */
  lemma BatchIsABlock(v: View, requests: seq<Requests.Request>, fates: seq<Requests.Fate>, id: nat, queue: seq<Completion>)
    requires |requests| == |fates| && v.lock.Free? && v.app == Wanting(HostProtocol.Publish(|requests|))
    ensures var acts := BatchActions(requests, fates, id, queue) + [Release];
            var b := Requests.Publish(requests, fates, id);
            var rec := Record.Batch(v.app.b, Requests.AcceptedIn(b.submitted), OutcomeOf(b.outcome));
            && WholeBlock(AppThread, acts) && CanDo(v, acts) && WellFormed(rec)
            && Do(v, acts).app == Away && Do(v, acts).lock == Free
            && Do(v, acts).calls == Play(v.calls, rec)
  {
    var before := BatchActions(requests, fates, id, queue);
    BatchStands(v, requests, fates, id, queue);
    Extended(v, before, Release);
    AppBlockPlays(v, before + [Release]);
  }
}
