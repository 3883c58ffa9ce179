/** Publishing batches of requests: external ids and path normalisation. */
module Requests {
  import opened SharedTypes

  /** External ids are 64-bit and wrap around. */
  const ID_RANGE: nat := 0x1_0000_0000_0000_0000

  datatype Request = Request(path: Text, saves: bool, hasHeaders: bool)

  /** What the environment does while a request is being published. */
  datatype Fate = Fine | DirectoryThrows | NativeThrows

  datatype Exception = DirectoryException | NullReference | NativeException

  datatype PublishResult = Published | Failed(exception: Exception)

  /** A call of `qwfsGetRequest`; it was accepted if it returned. */
  datatype Submission = Submission(id: nat, path: string, accepted: bool)

  predicate Slashed(path: string) {
    path != "" && path[0] == '/'
  }

  function Normalise(path: string): (p: string)
    ensures Slashed(p)
    ensures p == path || p[1..] == path
    ensures p == path <==> Slashed(path)
  {
    if Slashed(path) then path else "/" + path
  }

  lemma NormaliseIsIdempotent(path: string)
    ensures Normalise(Normalise(path)) == Normalise(path)
  {
  }

  function NextId(id: nat): nat {
    if id + 1 == ID_RANGE then 0 else id + 1
  }

  /** The id that follows n increments. */
  function IdOf(n: nat): nat {
    if n == 0 then 0 else NextId(IdOf(n - 1))
  }

  /** What one batch submits, the id it leaves behind, and how it ends. */
  datatype Progress = Progress(submitted: seq<Submission>, id: nat, outcome: PublishResult)

  /** One turn of the loop, after a batch that has gone well so far. */
  function Turn(b: Progress, r: Request, fate: Fate): Progress {
    if r.saves && fate.DirectoryThrows? then b.(outcome := Failed(DirectoryException))
    else if r.path.Null? then b.(outcome := Failed(NullReference))
    else if !r.hasHeaders then b.(outcome := Failed(NullReference))
    else
      var s := Submission(b.id, Normalise(r.path.value), !fate.NativeThrows?);
      if s.accepted then Progress(b.submitted + [s], NextId(b.id), Published)
      else Progress(b.submitted + [s], b.id, Failed(NativeException))
  }

  function Publish(requests: seq<Request>, fates: seq<Fate>, id: nat): Progress
    requires |requests| == |fates|
  {
    if requests == [] then Progress([], id, Published)
    else
      var n := |requests| - 1;
      var b := Publish(requests[..n], fates[..n], id);
      if b.outcome.Failed? then b else Turn(b, requests[n], fates[n])
  }

  /** An exception ends the batch: later requests have no effect. */
  lemma {:induction false} FailureEndsTheBatch(requests: seq<Request>, fates: seq<Fate>, id: nat, k: nat)
    requires |requests| == |fates| && k <= |requests|
    requires Publish(requests[..k], fates[..k], id).outcome.Failed?
    ensures Publish(requests, fates, id) == Publish(requests[..k], fates[..k], id)
  {
    var n := |requests|;
    if k == n {
      assert requests[..k] == requests && fates[..k] == fates;
    } else {
      assert requests[..n-1][..k] == requests[..k] && fates[..n-1][..k] == fates[..k];
      FailureEndsTheBatch(requests[..n-1], fates[..n-1], id, k);
    }
  }

  // ---------------------------------------------------------------------------------------------
  // The loop

  /** A caller's request object; publishing rewrites its path in place. */
  class RequestParameters {
    var path: Text
    const saves: bool
    const hasHeaders: bool

    constructor (path: Text, saves: bool, hasHeaders: bool)
      ensures this.path == path && this.saves == saves && this.hasHeaders == hasHeaders
    {
      this.path := path;
      this.saves := saves;
      this.hasHeaders := hasHeaders;
    }

    /** The path is as publishing leaves it. */
    predicate Settled()
      reads this
    {
      path.Text? && Slashed(path.value)
    }
  }

  /** A null element has neither path nor headers to read. */
  function Value(r: RequestParameters?): Request
    reads r
  {
    if r == null then Request(Null, false, false) else Request(r.path, r.saves, r.hasHeaders)
  }

  /** The part of an instance that publishes. */
  class Publisher {
    var externalId: nat
    var submitted: seq<Submission>

    constructor ()
      ensures externalId == 0 && submitted == []
    {
      externalId, submitted := 0, [];
    }

    /** The loop body, for request i of the batch. */
    method PublishOne(requests: seq<RequestParameters?>, i: nat, fate: Fate, ghost before: seq<Request>)
      returns (outcome: PublishResult)
      requires i < |requests| == |before|
      requires forall j :: 0 <= j < |requests| ==> Treated(requests[j], before[j], j < i)
      modifies this, requests
      ensures var b := Turn(Progress(old(submitted), old(externalId), Published), before[i], fate);
              b == Progress(submitted, externalId, outcome)
      ensures forall j :: 0 <= j < |requests| ==> Treated(requests[j], before[j], j < i || (j == i && outcome.Published?))
    {
      var request := requests[i];
      if request == null {
        return Failed(NullReference);
      }
      if request.saves && fate.DirectoryThrows? {
        return Failed(DirectoryException);
      }
      if request.path.Null? {
        return Failed(NullReference);
      }
      if !Slashed(request.path.value) {
        request.path := Text("/" + request.path.value);
      }
      if !request.hasHeaders {
        return Failed(NullReference);
      }
      submitted := submitted + [Submission(externalId, request.path.value, !fate.NativeThrows?)];
      if fate.NativeThrows? {
        return Failed(NativeException);
      }
      externalId := NextId(externalId);
      return Published;
    }

    /** The same request object may occur more than once in a batch, and elements may be null. */
    method PublishRequest(requests: seq<RequestParameters?>, fates: seq<Fate>) returns (outcome: PublishResult)
      requires |requests| == |fates|
      modifies this, requests
      ensures var b := Publish(old(Values(requests)), fates, old(externalId));
              outcome == b.outcome && externalId == b.id && submitted == old(submitted) + b.submitted
      ensures forall j :: 0 <= j < |requests| ==>
                Treated(requests[j], old(Values(requests))[j], outcome.Published?)
      ensures old(externalId) + |requests| <= 0xFFFF_FFFF_FFFF_FFFF ==>
                && CountsUp(old(submitted), submitted, old(externalId))
                && (outcome.Published? ==> |submitted| == |old(submitted)| + |requests| && externalId == old(externalId) + |requests|)
    {
      ghost var values := Values(requests);
      if externalId + |requests| <= 0xFFFF_FFFF_FFFF_FFFF {
        BatchIdsCountUp(values, fates, externalId);
      }
      ghost var first := submitted;
      ghost var b := Progress([], externalId, Published);
      for i := 0 to |requests|
        invariant forall j :: 0 <= j < |requests| ==> Treated(requests[j], values[j], j < i)
        invariant b == Publish(values[..i], fates[..i], old(externalId)) && b.outcome.Published?
        invariant submitted == first + b.submitted && externalId == b.id
      {
        outcome := PublishOne(requests, i, fates[i], values);
        TurnAppends(b, first, values[i], fates[i]);
        NextTurn(values, fates, old(externalId), i);
        b := Turn(b, values[i], fates[i]);
        if outcome.Failed? {
          FailureEndsTheBatch(values, fates, old(externalId), i + 1);
          return;
        }
      }
      assert values[..|requests|] == values && fates[..|requests|] == fates;
      outcome := Published;
    }
  }

  /** The object is the request it was, or has got its normalised path; if published, it has. */
  predicate Treated(r: RequestParameters?, before: Request, published: bool)
    reads r
  {
    && (Value(r) == before || (before.path.Text? && Value(r) == before.(path := Text(Normalise(before.path.value)))))
    && (published ==> r != null && r.Settled())
  }

  /** The submissions after `before` carry consecutive ids from `id`. */
  predicate CountsUp(before: seq<Submission>, after: seq<Submission>, id: nat) {
    before <= after && forall i :: |before| <= i < |after| ==> after[i].id == id + (i - |before|)
  }

  function Values(requests: seq<RequestParameters?>): (vs: seq<Request>)
    reads requests
    ensures |vs| == |requests|
  {
    seq(|requests|, i requires 0 <= i < |requests| reads requests => Value(requests[i]))
  }

  lemma NextTurn(requests: seq<Request>, fates: seq<Fate>, id: nat, i: nat)
    requires |requests| == |fates| && i < |requests|
    requires Publish(requests[..i], fates[..i], id).outcome.Published?
    ensures Publish(requests[..i+1], fates[..i+1], id) == Turn(Publish(requests[..i], fates[..i], id), requests[i], fates[i])
  {
    assert requests[..i+1][..i] == requests[..i] && fates[..i+1][..i] == fates[..i];
  }

  lemma TurnAppends(b: Progress, first: seq<Submission>, r: Request, fate: Fate)
    ensures Turn(b.(submitted := first + b.submitted), r, fate) ==
            Turn(b, r, fate).(submitted := first + Turn(b, r, fate).submitted)
  {
  }

  // ---------------------------------------------------------------------------------------------
  // Numbering

  /** Nothing makes publishing this request throw. */
  predicate GoesThrough(r: Request, fate: Fate) {
    !(r.saves && fate.DirectoryThrows?) && r.path.Text? && r.hasHeaders && !fate.NativeThrows?
  }

  predicate AllGoThrough(requests: seq<Request>, fates: seq<Fate>)
    requires |requests| == |fates|
  {
    forall i :: 0 <= i < |requests| ==> GoesThrough(requests[i], fates[i])
  }

  lemma LastGoesThrough(requests: seq<Request>, fates: seq<Fate>, n: nat)
    requires |requests| == |fates| == n + 1
    ensures AllGoThrough(requests, fates) <==> AllGoThrough(requests[..n], fates[..n]) && GoesThrough(requests[n], fates[n])
  {
    if AllGoThrough(requests[..n], fates[..n]) && GoesThrough(requests[n], fates[n]) {
      forall i | 0 <= i < |requests|
        ensures GoesThrough(requests[i], fates[i])
      {
        assert i < n ==> GoesThrough(requests[..n][i], fates[..n][i]);
      }
    }
    if AllGoThrough(requests, fates) {
      forall i | 0 <= i < n
        ensures GoesThrough(requests[..n][i], fates[..n][i])
      {
        assert GoesThrough(requests[i], fates[i]);
      }
    }
  }

  /** A batch is published whole if and only if nothing makes one of its requests throw. */
  lemma {:induction false} PublishedWhole(requests: seq<Request>, fates: seq<Fate>, id: nat)
    requires |requests| == |fates|
    ensures Publish(requests, fates, id).outcome.Published? <==> AllGoThrough(requests, fates)
    ensures AllGoThrough(requests, fates) ==> |Publish(requests, fates, id).submitted| == |requests|
  {
    if requests != [] {
      var n := |requests| - 1;
      PublishedWhole(requests[..n], fates[..n], id);
      LastGoesThrough(requests, fates, n);
    }
  }

  /** The batch is submitted in its own order, up to the first request that throws. */
  lemma {:induction false} BatchKeepsOrder(requests: seq<Request>, fates: seq<Fate>, id: nat)
    requires |requests| == |fates|
    ensures var b := Publish(requests, fates, id);
            && |b.submitted| <= |requests|
            && (b.outcome.Published? ==> |b.submitted| == |requests|)
            && (forall i :: 0 <= i < |b.submitted| ==>
                  requests[i].path.Text? && b.submitted[i].path == Normalise(requests[i].path.value))
  {
    if requests != [] {
      var n := |requests| - 1;
      BatchKeepsOrder(requests[..n], fates[..n], id);
    }
  }

  /**
    Below the 64-bit bound the batch's submissions carry consecutive ids from the current one; the
    counter has grown by one for each that was accepted, and only the last may not have been.
   */
  lemma {:induction false} BatchIdsCountUp(requests: seq<Request>, fates: seq<Fate>, id: nat)
    requires |requests| == |fates| && id + |requests| <= 0xFFFF_FFFF_FFFF_FFFF
    ensures var b := Publish(requests, fates, id);
            && (forall i :: 0 <= i < |b.submitted| ==> b.submitted[i].id == id + i)
            && (forall i :: 0 <= i < |b.submitted| - 1 ==> b.submitted[i].accepted)
            && b.id == id + |b.submitted| - (if b.outcome == Failed(NativeException) then 1 else 0)
            && (b.outcome == Failed(NativeException) <==> b.submitted != [] && !b.submitted[|b.submitted|-1].accepted)
            && |b.submitted| <= |requests| && (b.outcome.Published? ==> |b.submitted| == |requests|)
  {
    if requests != [] {
      var n := |requests| - 1;
      BatchIdsCountUp(requests[..n], fates[..n], id);
    }
  }

  /** A batch ends at its first request that makes something throw, with that exception, and nothing after it is submitted. */
  lemma {:induction false} BatchEndsAtFirstFailure(requests: seq<Request>, fates: seq<Fate>, id: nat, k: nat)
    requires |requests| == |fates| && k < |requests|
    requires AllGoThrough(requests[..k], fates[..k]) && !GoesThrough(requests[k], fates[k])
    ensures var b := Publish(requests, fates, id);
            if requests[k].saves && fates[k] == DirectoryThrows then b.outcome == Failed(DirectoryException) && |b.submitted| == k
            else if requests[k].path.Null? || !requests[k].hasHeaders then b.outcome == Failed(NullReference) && |b.submitted| == k
            else b.outcome == Failed(NativeException) && |b.submitted| == k + 1
  {
    PublishedWhole(requests[..k], fates[..k], id);
    NextTurn(requests, fates, id, k);
    FailureEndsTheBatch(requests, fates, id, k + 1);
  }

  function AcceptedIn(subs: seq<Submission>): nat {
    if subs == [] then 0 else AcceptedIn(subs[..|subs|-1]) + if subs[|subs|-1].accepted then 1 else 0
  }

  /** Every submission carries the number of accepted ones before it; the next id is the number of all. */
  predicate Numbered(subs: seq<Submission>, id: nat) {
    && (forall k :: 0 <= k < |subs| ==> NumberedAt(subs, k))
    && id == IdOf(AcceptedIn(subs))
  }

  predicate NumberedAt(subs: seq<Submission>, k: nat)
    requires k < |subs|
  {
    subs[k].id == IdOf(AcceptedIn(subs[..k])) && Slashed(subs[k].path)
  }

  lemma NumberOneMore(subs: seq<Submission>, id: nat, s: Submission)
    requires Numbered(subs, id) && s.id == id && Slashed(s.path)
    ensures Numbered(subs + [s], if s.accepted then NextId(id) else id)
  {
    var more := subs + [s];
    assert more[..|subs|] == subs;
    forall k | 0 <= k < |more|
      ensures NumberedAt(more, k)
    {
      if k < |subs| {
        assert NumberedAt(subs, k);
        assert more[..k] == subs[..k];
      }
    }
  }

  /** The turn adds at most one submission, under the current id. */
  lemma TurnSubmitsOne(b: Progress, r: Request, fate: Fate)
    requires b.outcome.Published?
    ensures var t := Turn(b, r, fate);
            || (t.submitted == b.submitted && t.id == b.id)
            || (exists s: Submission :: t.submitted == b.submitted + [s] && s.id == b.id && Slashed(s.path)
                                        && t.id == if s.accepted then NextId(b.id) else b.id)
  {
    var t := Turn(b, r, fate);
    if t.submitted != b.submitted {
      var s := Submission(b.id, Normalise(r.path.value), !fate.NativeThrows?);
      assert t.submitted == b.submitted + [s];
    }
  }

  lemma TurnIsNumbered(first: seq<Submission>, b: Progress, r: Request, fate: Fate)
    requires b.outcome.Published? && Numbered(first + b.submitted, b.id)
    ensures Numbered(first + Turn(b, r, fate).submitted, Turn(b, r, fate).id)
  {
    TurnSubmitsOne(b, r, fate);
    var t := Turn(b, r, fate);
    if t.submitted != b.submitted || t.id != b.id {
      var s: Submission :| t.submitted == b.submitted + [s] && s.id == b.id && Slashed(s.path)
                           && t.id == if s.accepted then NextId(b.id) else b.id;
      NumberOneMore(first + b.submitted, b.id, s);
      assert first + t.submitted == first + b.submitted + [s];
    }
  }

  lemma {:induction false} BatchIsNumbered(first: seq<Submission>, requests: seq<Request>, fates: seq<Fate>, id: nat)
    requires |requests| == |fates| && Numbered(first, id)
    ensures Numbered(first + Publish(requests, fates, id).submitted, Publish(requests, fates, id).id)
  {
    if requests == [] {
      assert first + [] == first;
    } else {
      var n := |requests| - 1;
      BatchIsNumbered(first, requests[..n], fates[..n], id);
      var b := Publish(requests[..n], fates[..n], id);
      if b.outcome.Published? {
        TurnIsNumbered(first, b, requests[n], fates[n]);
      }
    }
  }

  datatype Order = Order(requests: seq<Request>, fates: seq<Fate>)

  predicate AllOrders(orders: seq<Order>) {
    forall i :: 0 <= i < |orders| ==> |orders[i].requests| == |orders[i].fates|
  }

  /** Everything an instance submits over a sequence of batches, each possibly cut short by an exception. */
  function PublishAll(orders: seq<Order>): (seq<Submission>, nat)
    requires AllOrders(orders)
  {
    if orders == [] then ([], 0)
    else
      var n := |orders| - 1;
      var (subs, id) := PublishAll(orders[..n]);
      var b := Publish(orders[n].requests, orders[n].fates, id);
      (subs + b.submitted, b.id)
  }

  lemma {:induction false} AllBatchesAreNumbered(orders: seq<Order>)
    requires AllOrders(orders)
    ensures Numbered(PublishAll(orders).0, PublishAll(orders).1)
  {
    if orders != [] {
      var n := |orders| - 1;
      AllBatchesAreNumbered(orders[..n]);
      var (subs, id) := PublishAll(orders[..n]);
      BatchIsNumbered(subs, orders[n].requests, orders[n].fates, id);
    }
  }

  function AcceptedIds(subs: seq<Submission>): seq<nat> {
    if subs == [] then []
    else AcceptedIds(subs[..|subs|-1]) + if subs[|subs|-1].accepted then [subs[|subs|-1].id] else []
  }

  /** 0, 1, 2, ... up to n, modulo the width of an id. */
  function Counting(n: nat): seq<nat> {
    seq(n, i requires 0 <= i => IdOf(i))
  }

  lemma {:induction false} NumberedCounts(subs: seq<Submission>, id: nat)
    requires Numbered(subs, id)
    ensures AcceptedIds(subs) == Counting(AcceptedIn(subs))
  {
    if subs != [] {
      var before, s := subs[..|subs|-1], subs[|subs|-1];
      forall k | 0 <= k < |before|
        ensures NumberedAt(before, k)
      {
        assert NumberedAt(subs, k);
        assert before[..k] == subs[..k];
      }
      assert NumberedAt(subs, |before|);
      NumberedCounts(before, IdOf(AcceptedIn(before)));
      assert subs[..|before|] == before;
      assert Counting(AcceptedIn(before) + 1) == Counting(AcceptedIn(before)) + [IdOf(AcceptedIn(before))];
    }
  }

  /** Up to the 64-bit wrap the n-th id is n. */
  lemma {:induction false} SmallIds(n: nat)
    requires n < ID_RANGE
    ensures IdOf(n) == n
  {
    if n > 0 {
      SmallIds(n - 1);
    }
  }

  lemma {:induction false} IdsWrapAround(n: nat)
    ensures IdOf(n + 0x1_0000_0000_0000_0000) == IdOf(n)
  {
    if n == 0 {
      SmallIds(0xFFFF_FFFF_FFFF_FFFF);
    } else {
      IdsWrapAround(n - 1);
    }
  }

  /**
    Numbering: over any sequence of batches the ids the engine accepts are 0, 1, 2, ... in order of
    submission, without gap or repeat up to the 64-bit wrap, where they start over; every submitted
    path is absolute.
   */
  lemma AcceptedIdsCountUp(orders: seq<Order>)
    requires AllOrders(orders)
    ensures var subs := PublishAll(orders).0;
            && AcceptedIds(subs) == Counting(AcceptedIn(subs))
            && (forall n :: 0 <= n < |AcceptedIds(subs)| && n < 0x1_0000_0000_0000_0000 ==> AcceptedIds(subs)[n] == n)
            && (forall n :: 0 <= n < |AcceptedIds(subs)| - 0x1_0000_0000_0000_0000 ==>
                  AcceptedIds(subs)[n + 0x1_0000_0000_0000_0000] == AcceptedIds(subs)[n])
            && (forall k :: 0 <= k < |subs| ==> Slashed(subs[k].path))
  {
    AllBatchesAreNumbered(orders);
    var (subs, id) := PublishAll(orders);
    NumberedCounts(subs, id);
    forall n | 0 <= n < |AcceptedIds(subs)| && n < 0x1_0000_0000_0000_0000
      ensures AcceptedIds(subs)[n] == n
    {
      SmallIds(n);
    }
    forall n | 0 <= n < |AcceptedIds(subs)| - 0x1_0000_0000_0000_0000
      ensures AcceptedIds(subs)[n + 0x1_0000_0000_0000_0000] == AcceptedIds(subs)[n]
    {
      IdsWrapAround(n);
    }
    forall k | 0 <= k < |subs|
      ensures Slashed(subs[k].path)
    {
      assert NumberedAt(subs, k);
    }
  }

  predicate Distinct(subs: seq<Submission>) {
    forall i, j :: 0 <= i < j < |subs| ==> subs[i].id != subs[j].id
  }

  /** Only the last submission, if any, was not accepted. */
  predicate ThrowsAtMostLast(subs: seq<Submission>) {
    forall k :: 0 <= k < |subs| - 1 ==> subs[k].accepted
  }

  lemma {:induction false} AllAccepted(subs: seq<Submission>, k: nat)
    requires ThrowsAtMostLast(subs) && k < |subs|
    ensures AcceptedIn(subs[..k]) == k
  {
    if k > 0 {
      AllAccepted(subs, k - 1);
      assert subs[..k][..k-1] == subs[..k-1];
    }
  }

  lemma NoThrowNoRepeat(subs: seq<Submission>, id: nat)
    requires Numbered(subs, id) && |subs| <= ID_RANGE && ThrowsAtMostLast(subs)
    ensures Distinct(subs)
  {
    forall i, j | 0 <= i < j < |subs|
      ensures subs[i].id != subs[j].id
    {
      assert NumberedAt(subs, i) && NumberedAt(subs, j);
      AllAccepted(subs, i);
      AllAccepted(subs, j);
      SmallIds(i);
      SmallIds(j);
    }
  }

  lemma ThrowRepeats(subs: seq<Submission>, id: nat, k: nat)
    requires Numbered(subs, id) && k + 1 < |subs| && !subs[k].accepted
    ensures subs[k + 1].id == subs[k].id
  {
    assert NumberedAt(subs, k) && NumberedAt(subs, k + 1);
    assert subs[..k+1][..k] == subs[..k];
  }

  /**
    The ids of all attempts, thrown ones included, are free of repeats if and only if no attempt
    follows one on which `qwfsGetRequest` threw: the throw leaves the id to the next request.
   */
  lemma AttemptsRepeatAfterAThrow(orders: seq<Order>)
    requires AllOrders(orders) && |PublishAll(orders).0| <= 0x1_0000_0000_0000_0000
    ensures Distinct(PublishAll(orders).0) <==> ThrowsAtMostLast(PublishAll(orders).0)
  {
    AllBatchesAreNumbered(orders);
    var (subs, id) := PublishAll(orders);
    if ThrowsAtMostLast(subs) {
      NoThrowNoRepeat(subs, id);
    } else {
      var k :| 0 <= k < |subs| - 1 && !subs[k].accepted;
      ThrowRepeats(subs, id, k);
    }
  }
}
