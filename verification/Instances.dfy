/**
  The two static dictionaries and the operations on them, as the application thread runs them.
  The worker enters only through the join in `Destroy`, which `Shutdown` shows to return: it
  leaves the worker exited and the token disposed. Ids may be reused here; what that costs is
  part of the contracts.
 */
module Instances {
  import opened ResponseHeaders
  import opened SharedTypes

  // ---------------------------------------------------------------------------------------------
  // Responses and the result callbacks

  datatype Response = Response(
    headers: seq<Header>,
    hasHeaders: bool,
    body: seq<nat>,
    hasBody: bool,
    saveFilePath: string,
    responseCode: nat,
    status: int,
    errorMessage: string)

  /** The values of the property initialisers. */
  const NoResponse: Response := Response([], false, [], false, "", 0, 0, "")

  /** What the engine hands to one of the three result callbacks. */
  datatype NativeResult =
    | FileDone(responseCode: nat, headers: seq<Text>, filePath: string)
    | BinaryDone(responseCode: nat, headers: seq<Text>, body: seq<nat>)
    | RequestFailed(status: int, errorDetail: string)

  datatype Exception =
    | DirectoryException   // creating a directory threw
    | NativeException      // a native call threw
    | DuplicateKey         // the instance dictionary already has the id
    | KeyNotFound
    | ObjectDisposed       // the token source was disposed before
    | HeaderException      // reading the headers threw
    | BodyException        // the body is too large for an array

  datatype Result<T> = Ok(value: T) | Err(exception: Exception)

  /** The response a callback builds, or the exception it throws. */
  function ResponseOf(c: NativeResult, elementSize: nat): Result<Response> {
    match c
    case FileDone(code, headers, path) =>
      (match ReadingOf(headers, elementSize)
       case Read(hs) => Ok(NoResponse.(saveFilePath := path, responseCode := code, headers := hs, hasHeaders := true))
       case Failed(_) => Err(HeaderException))
    case BinaryDone(code, headers, body) =>
      (match ReadingOf(headers, elementSize)
       case Read(hs) =>
         if |body| > INT_MAX then Err(BodyException)
         else Ok(NoResponse.(responseCode := code, headers := hs, hasHeaders := true, body := body, hasBody := body != []))
       case Failed(_) => Err(HeaderException))
    case RequestFailed(status, detail) => Ok(NoResponse.(status := status, errorMessage := detail))
  }

  /** The header array of a response: the pairs in order, whenever they are readable. */
  predicate HasHeaders(res: Response, headers: seq<Text>, elementSize: nat) {
    && res.hasHeaders && |res.headers| == |headers| / 2
    && (|headers| <= 0x7FFF_FFFF ==>
          forall k :: 0 <= k < |headers| / 2 ==> res.headers[k] == Header(headers[2 * k], headers[2 * k + 1]))
  }

  /** The response carries what the completion brought, and nothing else. */
  predicate Carries(res: Response, c: NativeResult, elementSize: nat) {
    match c
    case FileDone(code, headers, path) =>
      && res.responseCode == code && res.saveFilePath == path && HasHeaders(res, headers, elementSize)
      && !res.hasBody && res.body == [] && res.status == 0 && res.errorMessage == ""
    case BinaryDone(code, headers, body) =>
      && res.responseCode == code && res.body == body && (res.hasBody <==> body != []) && HasHeaders(res, headers, elementSize)
      && res.saveFilePath == "" && res.status == 0 && res.errorMessage == ""
    case RequestFailed(status, detail) =>
      && res.status == status && res.errorMessage == detail
      && !res.hasHeaders && res.headers == [] && !res.hasBody && res.body == [] && res.saveFilePath == "" && res.responseCode == 0
  }

  /** The completions, of less than 2^31 header entries, whose callbacks throw. */
  predicate Refused(c: NativeResult, elementSize: nat) {
    && !c.RequestFailed?
    && (|| |c.headers| % 2 == 1
        || (|c.headers| > 0 && elementSize * (|c.headers| - 1) > 0x7FFF_FFFF)
        || (c.BinaryDone? && |c.body| > 0x7FFF_FFFF))
  }

  lemma ResponseCarries(c: NativeResult, elementSize: nat)
    ensures ResponseOf(c, elementSize).Ok? ==> Carries(ResponseOf(c, elementSize).value, c, elementSize)
    ensures c.RequestFailed? || |c.headers| <= 0x7FFF_FFFF ==> (ResponseOf(c, elementSize).Ok? <==> !Refused(c, elementSize))
    ensures ResponseOf(c, elementSize).Err? ==>
              match ResponseOf(c, elementSize).exception
              case HeaderException => !c.RequestFailed? && ReadingOf(c.headers, elementSize).Failed?
              case BodyException => c.BinaryDone? && |c.body| > 0x7FFF_FFFF && ReadingOf(c.headers, elementSize).Read?
              case _ => false
  {
    if !c.RequestFailed? {
      ReadingReadsEntries(c.headers, elementSize);
    }
  }

  /** The callback for this completion does not throw. */
  predicate Good(c: NativeResult, elementSize: nat) {
    ResponseOf(c, elementSize).Ok?
  }

  predicate AllGood(cs: seq<NativeResult>, elementSize: nat) {
    forall i :: 0 <= i < |cs| ==> Good(cs[i], elementSize)
  }

  function Responses(cs: seq<NativeResult>, elementSize: nat): (rs: seq<Response>)
    requires AllGood(cs, elementSize)
    ensures |rs| == |cs|
  {
    seq(|cs|, i requires 0 <= i < |cs| => ResponseOf(cs[i], elementSize).value)
  }

  /** The completions before the first whose callback throws. */
  function GoodPrefix(cs: seq<NativeResult>, elementSize: nat): (good: seq<NativeResult>)
    ensures good <= cs && AllGood(good, elementSize)
    ensures good == cs <==> AllGood(cs, elementSize)
    ensures |good| < |cs| ==> !Good(cs[|good|], elementSize)
  {
    if cs == [] then []
    else
      var before := GoodPrefix(cs[..|cs|-1], elementSize);
      if before == cs[..|cs|-1] && Good(cs[|cs|-1], elementSize) then cs else before
  }

  lemma ResponsesCarry(cs: seq<NativeResult>, elementSize: nat)
    requires AllGood(cs, elementSize)
    ensures forall i :: 0 <= i < |cs| ==> Carries(Responses(cs, elementSize)[i], cs[i], elementSize)
  {
    forall i | 0 <= i < |cs|
      ensures Carries(Responses(cs, elementSize)[i], cs[i], elementSize)
    {
      ResponseCarries(cs[i], elementSize);
    }
  }

  /** A host's response list: one object for as long as the host lives. */
  class ResponseList {
    var items: seq<Response>

    constructor ()
      ensures items == []
    {
      items := [];
    }

    method Clear()
      modifies this
      ensures items == []
    {
      items := [];
    }

    method Add(r: Response)
      modifies this
      ensures items == old(items) + [r]
    {
      items := items + [r];
    }
  }

  datatype TokenSource = Live | Disposed

  class Nhh3Impl {
    const hostId: nat
    var token: TokenSource

    constructor (hostId: nat)
      ensures this.hostId == hostId && token == Live
    {
      this.hostId := hostId;
      token := Live;
    }
  }

  // ---------------------------------------------------------------------------------------------
  // The dictionaries

  class Registry {
    var impls: map<nat, Nhh3Impl>
    var responses: map<nat, ResponseList>
    var destroyed: seq<nat>      // the ids handed to qwfsDestroy, in order
    var uninitialized: nat       // how often qwfsUninitialize was called

    constructor ()
      ensures Valid() && impls == map[] && responses == map[] && destroyed == [] && uninitialized == 0
    {
      impls, responses, destroyed, uninitialized := map[], map[], [], 0;
    }

    /** Each id maps to the instance that carries it, and no two hosts share a list. */
    ghost predicate Valid()
      reads this, impls.Values
    {
      && (forall id :: id in impls ==> impls[id].hostId == id)
      && (forall i, j :: i in responses && j in responses && i != j ==> responses[i] != responses[j])
    }

    /**
      The constructor, after `qwfsCreate` returned `id`. An exception leaves the response entry
      behind, and the handle alive; with a fresh id the instance enters both dictionaries.
     */
    method Create(id: nat, directoryThrows: bool, optionsThrow: bool) returns (r: Result<Nhh3Impl>)
      requires Valid()
      modifies this
      ensures Valid()
      ensures responses.Keys == old(responses.Keys) + {id}
      ensures forall g :: g in old(responses) ==> responses[g] == old(responses[g])
      ensures id !in old(responses) ==> fresh(responses[id]) && responses[id].items == []
      ensures r.Ok? <==> !directoryThrows && !optionsThrow && id !in old(impls)
      ensures r.Ok? ==> fresh(r.value) && r.value.hostId == id && r.value.token == Live && impls == old(impls)[id := r.value]
      ensures r.Err? ==> impls == old(impls)
      ensures r.Err? ==>
                r.exception == if directoryThrows then DirectoryException else if optionsThrow then NativeException else DuplicateKey
      ensures destroyed == old(destroyed) && uninitialized == old(uninitialized)
    {
      if id !in responses {
        var list := new ResponseList();
        responses := responses[id := list];
      }
      if directoryThrows {
        return Err(DirectoryException);
      }
      if optionsThrow {
        return Err(NativeException);
      }
      if id in impls {
        return Err(DuplicateKey);
      }
      var impl := new Nhh3Impl(id);
      impls := impls[id := impl];
      r := Ok(impl);
    }

    /**
      `Destroy` looks at its own id only: an instance whose id has been given to another host
      finds the other one's entry, and its own token disposed.
     */
    method Destroy(impl: Nhh3Impl, removeList: bool, nativeThrows: bool) returns (r: Result<()>)
      requires Valid()
      modifies this, impl
      ensures Valid()
      ensures r == Err(ObjectDisposed) <==> impl.hostId in old(impls) && old(impl.token) == Disposed
      ensures r == Err(NativeException) <==> impl.hostId in old(impls) && old(impl.token) == Live && nativeThrows
      ensures r == Err(ObjectDisposed) || r == Err(NativeException) || r == Ok(())
      ensures var reached := impl.hostId in old(impls) && old(impl.token) == Live;
              && destroyed == old(destroyed) + (if reached then [impl.hostId] else [])
              && (reached ==> impl.token == Disposed)
              && (!reached ==> impl.token == old(impl.token))
              && responses == old(responses) - (if reached && !nativeThrows then {impl.hostId} else {})
              && impls == old(impls) - (if reached && !nativeThrows && removeList then {impl.hostId} else {})
      ensures uninitialized == old(uninitialized)
    {
      if impl.hostId in impls {
        if impl.token == Disposed {
          return Err(ObjectDisposed);
        }
        impl.token := Disposed;  // cancel, then join: the worker disposes the token as it exits
        destroyed := destroyed + [impl.hostId];
        if nativeThrows {
          return Err(NativeException);
        }
        if impl.hostId in responses {
          responses := responses - {impl.hostId};
        }
        if removeList {
          impls := impls - {impl.hostId};
        }
      }
      r := Ok(());
    }

    // -------------------------------------------------------------------------------------------
    // Update and the result callbacks

    method RequestFileSuccess(hostId: nat, responseCode: nat, headers: seq<Text>, filePath: string, elementSize: nat)
      returns (thrown: Result<()>)
      requires hostId in responses && elementSize in {4, 8}
      modifies responses[hostId]
      ensures Appended(responses[hostId], old(responses[hostId].items), FileDone(responseCode, headers, filePath), elementSize, thrown)
      ensures thrown.Ok? ==>
                && |responses[hostId].items| == |old(responses[hostId].items)| + 1
                && var res := responses[hostId].items[|old(responses[hostId].items)|];
                   && res.responseCode == responseCode && res.saveFilePath == filePath && HasHeaders(res, headers, elementSize)
                   && !res.hasBody && res.body == [] && res.status == 0 && res.errorMessage == ""
      ensures |headers| <= 0x7FFF_FFFF ==>
                (thrown.Ok? <==> |headers| % 2 == 0 && (|headers| > 0 ==> elementSize * (|headers| - 1) <= 0x7FFF_FFFF))
      ensures thrown.Err? ==> thrown.exception == HeaderException
    {
      ResponseCarries(FileDone(responseCode, headers, filePath), elementSize);
      var res := NoResponse.(saveFilePath := filePath, responseCode := responseCode);
      var read := ReadResponseHeaders(headers, elementSize);
      if read.Failed? {
        return Err(HeaderException);
      }
      responses[hostId].Add(res.(headers := read.headers, hasHeaders := true));
      thrown := Ok(());
    }

    method RequestBinarySuccess(hostId: nat, responseCode: nat, headers: seq<Text>, body: seq<nat>, elementSize: nat)
      returns (thrown: Result<()>)
      requires hostId in responses && elementSize in {4, 8}
      modifies responses[hostId]
      ensures Appended(responses[hostId], old(responses[hostId].items), BinaryDone(responseCode, headers, body), elementSize, thrown)
      ensures thrown.Ok? ==>
                && |responses[hostId].items| == |old(responses[hostId].items)| + 1
                && var res := responses[hostId].items[|old(responses[hostId].items)|];
                   && res.responseCode == responseCode && res.body == body && (res.hasBody <==> body != [])
                   && HasHeaders(res, headers, elementSize)
                   && res.saveFilePath == "" && res.status == 0 && res.errorMessage == ""
      ensures |headers| <= 0x7FFF_FFFF ==>
                (thrown.Ok? <==> |headers| % 2 == 0 && (|headers| > 0 ==> elementSize * (|headers| - 1) <= 0x7FFF_FFFF)
                                 && |body| <= 0x7FFF_FFFF)
      ensures thrown == Err(BodyException) ==> |body| > 0x7FFF_FFFF
      ensures thrown.Err? ==> thrown.exception == HeaderException || thrown.exception == BodyException
    {
      ResponseCarries(BinaryDone(responseCode, headers, body), elementSize);
      var res := NoResponse.(responseCode := responseCode);
      var read := ReadResponseHeaders(headers, elementSize);
      if read.Failed? {
        return Err(HeaderException);
      }
      res := res.(headers := read.headers, hasHeaders := true);
      if body != [] {
        if |body| > INT_MAX {
          return Err(BodyException);
        }
        res := res.(body := body, hasBody := true);
      }
      responses[hostId].Add(res);
      thrown := Ok(());
    }

    method RequestError(hostId: nat, status: int, errorDetail: string)
      requires hostId in responses
      modifies responses[hostId]
      ensures Appended(responses[hostId], old(responses[hostId].items), RequestFailed(status, errorDetail), 8, Ok(()))
      ensures |responses[hostId].items| == |old(responses[hostId].items)| + 1
      ensures var res := responses[hostId].items[|old(responses[hostId].items)|];
              && res.status == status && res.errorMessage == errorDetail
              && !res.hasHeaders && res.headers == [] && !res.hasBody && res.body == [] && res.saveFilePath == "" && res.responseCode == 0
    {
      responses[hostId].Add(NoResponse.(status := status, errorMessage := errorDetail));
    }

    /** The engine's call of the callback that fits the completion, tagged with the host. */
    method IssueCallback(hostId: nat, c: NativeResult, elementSize: nat) returns (thrown: Result<()>)
      requires hostId in responses && elementSize in {4, 8}
      modifies responses[hostId]
      ensures Appended(responses[hostId], old(responses[hostId].items), c, elementSize, thrown)
    {
      match c
      case FileDone(code, headers, path) => thrown := RequestFileSuccess(hostId, code, headers, path, elementSize);
      case BinaryDone(code, headers, body) => thrown := RequestBinarySuccess(hostId, code, headers, body, elementSize);
      case RequestFailed(status, detail) => RequestError(hostId, status, detail); thrown := Ok(());
    }

    /**
      `Update`, with the completions the engine drains and which of its native calls throw;
      `qwfsIssueCallbacks` may do so after any number of callbacks. It returns the host's own list
      object, emptied and filled with exactly the drained completions in order; when it throws, the
      completions delivered before stay in the list. No other host's list is touched.
     */
    method Update(impl: Nhh3Impl, queue: seq<NativeResult>, elementSize: nat,
                  progressThrows: bool, issueThrows: bool, statusThrows: bool)
      returns (r: Result<ResponseList>)
      requires Valid() && elementSize in {4, 8}
      modifies if impl.hostId in responses then {responses[impl.hostId]} else {}
      ensures Valid()
      ensures r.Ok? <==> impl.hostId in responses && !progressThrows && AllGood(queue, elementSize) && !issueThrows && !statusThrows
      ensures r == Err(KeyNotFound) <==> impl.hostId !in responses
      ensures impl.hostId in responses && (progressThrows || AllGood(queue, elementSize)) && r.Err? ==> r == Err(NativeException)
      ensures impl.hostId in responses ==>
                var items := responses[impl.hostId].items;
                |items| <= |queue| && forall i :: 0 <= i < |items| ==> Carries(items[i], queue[i], elementSize)
      ensures r.Ok? ==> |r.value.items| == |queue|
      ensures r.Ok? ==> r.value == responses[impl.hostId] && r.value.items == Responses(queue, elementSize)
      ensures impl.hostId in responses ==>
                responses[impl.hostId].items == if progressThrows then [] else Responses(GoodPrefix(queue, elementSize), elementSize)
      ensures forall g :: g in responses && g != impl.hostId ==> responses[g].items == old(responses[g].items)
    {
      if impl.hostId !in responses {
        return Err(KeyNotFound);
      }
      ResponsesCarry(GoodPrefix(queue, elementSize), elementSize);
      var list := responses[impl.hostId];
      list.Clear();
      if progressThrows {
        return Err(NativeException);
      }
      for i := 0 to |queue|
        invariant AllGood(queue[..i], elementSize)
        invariant list.items == Responses(queue[..i], elementSize)
      {
        var thrown := IssueCallback(impl.hostId, queue[i], elementSize);
        OneMoreGood(queue, i, elementSize);
        if thrown.Err? {
          return Err(thrown.exception);
        }
      }
      assert queue[..|queue|] == queue;
      if issueThrows || statusThrows {
        return Err(NativeException);
      }
      r := Ok(responses[impl.hostId]);
    }

    /** All of the listed instances can be destroyed: none was cancelled before, no `qwfsDestroy` throws. */
    ghost predicate AllDestroyable(throws: set<nat>)
      reads this, impls.Values
    {
      forall id :: id in impls ==> impls[id].token == Live && id !in throws
    }

    /** The loop of `Uninitialize`, with `todo` still to visit and `order` destroyed so far. */
    ghost predicate Sweeping(start: Start, throws: set<nat>, todo: set<nat>, order: seq<nat>)
      reads this, impls.Values
    {
      && Valid()
      && impls == start.impls && start.tokens.Keys == impls.Keys && todo <= impls.Keys
      && (forall id :: id in impls ==> Turned(impls[id].token, start.tokens[id], id in todo, id in throws))
      && destroyed == start.destroyed + order
      && Once(order) && (forall id :: id in order <==> id in impls && id !in todo)
      && responses == start.responses - (impls.Keys - todo)
    }

    /** One turn of the loop. */
    method Visit(id: nat, ghost start: Start, throws: set<nat>, ghost todo: set<nat>, ghost order: seq<nat>)
      returns (r: Result<()>, ghost order': seq<nat>)
      requires Sweeping(start, throws, todo, order) && id in todo
      modifies this, impls[id]
      ensures uninitialized == old(uninitialized) && impls == start.impls
      ensures r.Ok? ==> Sweeping(start, throws, todo - {id}, order')
      ensures r.Err? ==> Stopped(start, throws, order')
    {
      r := Destroy(impls[id], false, id in throws);
      order' := if r == Err(ObjectDisposed) then order else order + [id];
      if r.Ok? {
        assert start.responses - (impls.Keys - todo) - {id} == start.responses - (impls.Keys - (todo - {id}));
      } else {
        assert start.tokens[id] != Live || id in throws;
        assert Gone(order', throws) == impls.Keys - todo;
      }
    }

    /** An exception has left the loop. */
    ghost predicate Stopped(start: Start, throws: set<nat>, order: seq<nat>)
      reads this, impls.Values
    {
      && Valid()
      && impls == start.impls && start.tokens.Keys == impls.Keys
      && (exists id :: id in impls && (start.tokens[id] != Live || id in throws))
      && destroyed == start.destroyed + order
      && Once(order) && (forall id :: id in order ==> id in impls)
      && responses == start.responses - Gone(order, throws)
    }

    /** The loop. */
    method DestroyAll(throws: set<nat>, ghost start: Start) returns (r: Result<()>, ghost order: seq<nat>)
      requires Valid()
      requires start == Start(impls, map id | id in impls :: impls[id].token, destroyed, responses)
      modifies this, impls.Values
      ensures r.Ok? ==> Sweeping(start, throws, {}, order)
      ensures r.Err? ==> Stopped(start, throws, order)
      ensures uninitialized == old(uninitialized)
    {
      order := [];
      var todo := impls.Keys;
      assert responses - (impls.Keys - todo) == responses;
      r := Ok(());
      while todo != {}
        invariant Sweeping(start, throws, todo, order)
        invariant uninitialized == old(uninitialized) && r.Ok?
        decreases |todo|
      {
        var id :| id in todo;
        r, order := Visit(id, start, throws, todo, order);
        if r.Err? {
          return;
        }
        todo := todo - {id};
      }
    }

    /**
      `Uninitialize`, with the hosts whose `qwfsDestroy` throws. It completes if and only if every
      listed instance can be destroyed; then each has been, once, and both dictionaries are empty.
      Otherwise the exception leaves the instance dictionary as it was, and the response
      dictionary without the hosts destroyed before it.
     */
    method Uninitialize(throws: set<nat>) returns (r: Result<()>)
      requires Valid()
      modifies this, impls.Values
      ensures Valid()
      ensures r.Ok? <==> old(AllDestroyable(throws))
      ensures old(destroyed) <= destroyed
      ensures var order := destroyed[|old(destroyed)|..];
              Once(order) && (forall id :: id in order ==> id in old(impls)) &&
              (r.Ok? ==> forall id :: id in old(impls) ==> id in order)
      ensures r.Ok? ==> impls == map[] && responses == map[] && uninitialized == old(uninitialized) + 1
      ensures r.Ok? ==> forall id :: id in old(impls) ==> old(impls)[id].token == Disposed
      ensures r.Err? ==> impls == old(impls) && uninitialized == old(uninitialized)
      ensures r.Err? ==>
                responses == old(responses) - set id | id in destroyed[|old(destroyed)|..] && id !in throws
    {
      ghost var start := Start(impls, map id | id in impls :: impls[id].token, destroyed, responses);
      ghost var order;
      r, order := DestroyAll(throws, start);
      assert destroyed[|start.destroyed|..] == order;
      if r.Err? {
        return;
      }
      impls := map[];
      responses := map[];
      uninitialized := uninitialized + 1;
    }
  }

  /** The callback for `c` has added its response to the list, or thrown and left the list alone. */
  ghost predicate Appended(list: ResponseList, before: seq<Response>, c: NativeResult, elementSize: nat, thrown: Result<()>)
    reads list
  {
    match ResponseOf(c, elementSize)
    case Ok(res) => thrown == Ok(()) && list.items == before + [res]
    case Err(e) => thrown == Err(e) && e != KeyNotFound && list.items == before
  }

  lemma OneMoreGood(queue: seq<NativeResult>, i: nat, elementSize: nat)
    requires i < |queue| && AllGood(queue[..i], elementSize)
    ensures Good(queue[i], elementSize) ==>
              AllGood(queue[..i+1], elementSize)
              && Responses(queue[..i+1], elementSize) == Responses(queue[..i], elementSize) + [ResponseOf(queue[i], elementSize).value]
    ensures !Good(queue[i], elementSize) ==> GoodPrefix(queue, elementSize) == queue[..i] && !AllGood(queue, elementSize)
  {
    assert queue[..i+1] == queue[..i] + [queue[i]];
  }

  /**
    Ids start over when the engine is initialised again. An instance from before, still in its
    caller's hands, then finds a stranger under its id, and its `Destroy` throws.
   */
  method StaleInstance(registry: Registry) returns (r: Result<()>)
    requires registry.Valid() && registry.impls == map[] && registry.responses == map[]
    modifies registry
    ensures r == Err(ObjectDisposed)
  {
    var first := registry.Create(0, false, false);
    r := registry.Uninitialize({});
    var second := registry.Create(0, false, false);
    r := registry.Destroy(first.value, true, false);
  }

  /** What `Uninitialize` starts from. */
  datatype Start = Start(impls: map<nat, Nhh3Impl>, tokens: map<nat, TokenSource>, destroyed: seq<nat>, responses: map<nat, ResponseList>)

  /** The token of a listed instance, before (`waiting`) and after its turn. */
  predicate Turned(now: TokenSource, first: TokenSource, waiting: bool, throws: bool) {
    if waiting then now == first else now == Disposed && first == Live && !throws
  }

  /** The hosts that were destroyed without an exception. */
  function Gone(order: seq<nat>, throws: set<nat>): set<nat> {
    set id | id in order && id !in throws
  }

  /** No element occurs twice. */
  predicate Once(s: seq<nat>) {
    forall i, j :: 0 <= i < j < |s| ==> s[i] != s[j]
  }
}
