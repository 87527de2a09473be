/**
 * One request through both hooks, and properties of request sequences.
 *
 * A request runs the pre-handler hook; when it served a cached response the
 * handler is skipped, otherwise the handler produces the response (and may
 * call `nocache`); then the post-response hook runs on whatever is outgoing.
 */
module Lifecycle {
  import opened Js
  import opened Policy
  import opened Keys
  import opened Backend
  import opened Routebox

  /** What the route handler does when it runs: the response it replies with
      and whether it calls `req.nocache()` first. */
  datatype Handler = Handler(response: Object, callsNocache: bool)

  /** Whether the backend's `get` and `set` fail for this request. */
  datatype Faults = Faults(read: bool, write: bool)

  const NoFaults := Faults(false, false)

  /** A completed request, or one aborted by a TypeError in either hook: the
      hit replay's header stamp, or the post-response hook's hit-header read. */
  datatype Outcome =
    | Completed(response: Object, handlerRan: bool, events: seq<Event>, store: Store)
    | Aborted(store: Store)

  function Serve(defaults: Options, req: Request, store: Store, faults: Faults, hash: Hasher,
                 blank: Object, handler: Handler, ttl: int): (o: Outcome)
    ensures var lk := OnPreHandler(defaults, req, store, faults.read, hash, blank);
      && (o.Aborted? ==> o.store == store)
      && (lk.ReplayThrew? ==> o.Aborted?)
      && (lk.HitServed? ==>
            (o.Aborted? <==>
             HitMarker(lk.response, GetSettings(defaults, req.route).value.options.wasCachedHeader).None?))
      && (!lk.HitServed? && !lk.ReplayThrew? ==>
            (o.Aborted? <==>
             && GetSettings(defaults, req.route).Some? && !handler.callsNocache
             && HitMarker(handler.response, GetSettings(defaults, req.route).value.options.wasCachedHeader).None?))
      && (o.Completed? && o.handlerRan ==> o.response == handler.response && !lk.HitServed?)
      && (o.Completed? && !o.handlerRan ==> lk.HitServed? && o.response == lk.response)
  {
    var lk := OnPreHandler(defaults, req, store, faults.read, hash, blank);
    match lk
    case ReplayThrew(_) => Aborted(store)
    case HitServed(ctx, response) =>
      var st := OnPreResponse(defaults, req, Some(ctx), response, ttl, faults.write, store);
      if st.step.HeaderThrew? then Aborted(store) else Completed(response, false, st.events, st.store)
    case _ =>
      var ctx := if handler.callsNocache then NoCache(ContextAfter(lk)) else ContextAfter(lk);
      var st := OnPreResponse(defaults, req, ctx, handler.response, ttl, faults.write, store);
      if st.step.HeaderThrew? then Aborted(store) else Completed(handler.response, true, st.events, st.store)
  }

  // ---- event accounting ----

  datatype Kind = WriteKind | HitKind | MissKind

  predicate OfKind(e: Event, k: Kind)
  {
    match k
    case WriteKind => e.CacheWrite?
    case HitKind => e.HitCallback?
    case MissKind => e.MissCallback?
  }

  function CountKind(events: seq<Event>, k: Kind): nat
  {
    if |events| == 0 then 0 else (if OfKind(events[0], k) then 1 else 0) + CountKind(events[1..], k)
  }

  function Hits(events: seq<Event>): nat { CountKind(events, HitKind) }

  function Misses(events: seq<Event>): nat { CountKind(events, MissKind) }

  function Writes(events: seq<Event>): nat { CountKind(events, WriteKind) }

  /** Counts over a concatenated log add up. */
  lemma {:induction false} CountKindAppend(a: seq<Event>, b: seq<Event>, k: Kind)
    ensures CountKind(a + b, k) == CountKind(a, k) + CountKind(b, k)
    decreases |a|
  {
    if |a| > 0 {
      assert (a + b)[1..] == a[1..] + b;
      CountKindAppend(a[1..], b, k);
    } else {
      assert a + b == b;
    }
  }

  lemma CountOne(e: Event, k: Kind)
    ensures CountKind([e], k) == (if OfKind(e, k) then 1 else 0)
  {
    assert [e][1..] == [];
  }

  lemma CountTwo(e1: Event, e2: Event, k: Kind)
    ensures CountKind([e1, e2], k) == (if OfKind(e1, k) then 1 else 0) + (if OfKind(e2, k) then 1 else 0)
  {
    assert [e1, e2][1..] == [e2];
    CountOne(e2, k);
  }

  /** The post-response hook writes once and reports one miss exactly when
      it stores, and reports one hit exactly when it sees the hit marker. */
  lemma StoreStepCounts(defaults: Options, req: Request, ctx: Option<Context>, response: Object,
                        ttl: int, writeFault: bool, store: Store)
    ensures var r := OnPreResponse(defaults, req, ctx, response, ttl, writeFault, store);
      && Writes(r.events) == (if r.step.Stored? then 1 else 0)
      && Misses(r.events) == (if r.step.Stored? then 1 else 0)
      && Hits(r.events) == (if r.step.HitReported? then 1 else 0)
  {
    var r := OnPreResponse(defaults, req, ctx, response, ttl, writeFault, store);
    if r.step.Stored? {
      forall k: Kind { CountTwo(r.events[0], r.events[1], k); }
    } else if r.step.HitReported? {
      forall k: Kind { CountOne(r.events[0], k); }
    }
  }

  /** Every request issues at most one backend write and at most one
      callback, and a write always comes with the miss callback. */
  lemma AtMostOneCallback(defaults: Options, req: Request, store: Store, faults: Faults, hash: Hasher,
                          blank: Object, handler: Handler, ttl: int)
    ensures var o := Serve(defaults, req, store, faults, hash, blank, handler, ttl);
      o.Completed? ==>
        && Hits(o.events) + Misses(o.events) <= 1
        && Writes(o.events) == Misses(o.events)
  {
    var lk := OnPreHandler(defaults, req, store, faults.read, hash, blank);
    if lk.HitServed? {
      StoreStepCounts(defaults, req, Some(lk.ctx), lk.response, ttl, faults.write, store);
    } else if !lk.ReplayThrew? {
      var ctx := if handler.callsNocache then NoCache(ContextAfter(lk)) else ContextAfter(lk);
      StoreStepCounts(defaults, req, ctx, handler.response, ttl, faults.write, store);
    }
  }

  // ---- the store invariant ----

  /** Every stored item has exactly the four picked keys. */
  predicate ItemsPicked(store: Store)
  {
    forall k :: k in store ==> store[k].item.Keys == StoredKeys
  }

  /** Serving a request keeps every stored item shaped as `pick` makes it. */
  lemma ServeKeepsItemsPicked(defaults: Options, req: Request, store: Store, faults: Faults, hash: Hasher,
                              blank: Object, handler: Handler, ttl: int)
    requires ItemsPicked(store)
    ensures ItemsPicked(Serve(defaults, req, store, faults, hash, blank, handler, ttl).store)
  {
    var lk := OnPreHandler(defaults, req, store, faults.read, hash, blank);
    var ctx := if lk.HitServed? then Some(lk.ctx)
               else if handler.callsNocache then NoCache(ContextAfter(lk)) else ContextAfter(lk);
    var response := if lk.HitServed? then lk.response else handler.response;
    StoreStepKeepsItemsPicked(defaults, req, ctx, response, ttl, faults.write, store);
  }

  lemma StoreStepKeepsItemsPicked(defaults: Options, req: Request, ctx: Option<Context>, response: Object,
                                  ttl: int, writeFault: bool, store: Store)
    requires ItemsPicked(store)
    ensures ItemsPicked(OnPreResponse(defaults, req, ctx, response, ttl, writeFault, store).store)
  {
    var r := OnPreResponse(defaults, req, ctx, response, ttl, writeFault, store);
    if r.step.Stored? && !writeFault {
      var s := GetSettings(defaults, req.route).value;
      var at := AddressOf(ctx.value.handle, ctx.value.ident, s);
      assert r.store == store[at := Entry(ItemOf(response), ttl)];
    }
  }

  /** With picked items and a `reply()` response that has no `output`, the
      replayed response has no `output` either, so the post-response hook
      reads the hit marker from the replayed headers. */
  lemma ReplayHasNoOutput(defaults: Options, req: Request, store: Store, readFault: bool, hash: Hasher,
                          blank: Object)
    requires ItemsPicked(store)
    requires !Truthy(Get(blank, "output"))
    requires OnPreHandler(defaults, req, store, readFault, hash, blank).HitServed?
    ensures !Truthy(Get(OnPreHandler(defaults, req, store, readFault, hash, blank).response, "output"))
  {
    var s := GetSettings(defaults, req.route).value;
    var item := store[AddressOf(HandleFor(s), IdentOf(s, req, hash), s)].item;
    var replay := Overlay(blank, item);
    assert "output" !in item;
    assert Get(replay, "output") == Get(blank, "output");
  }

  // ---- single-request properties ----

  /** A route without an effective policy (no lifetime, non-public privacy,
      or disabled) is served by its handler, untouched, with no callback and
      no backend write. */
  lemma NoPolicyNoEffect(defaults: Options, req: Request, store: Store, faults: Faults, hash: Hasher,
                         blank: Object, handler: Handler, ttl: int)
    requires GetSettings(defaults, req.route).None?
    ensures Serve(defaults, req, store, faults, hash, blank, handler, ttl)
      == Completed(handler.response, true, [], store)
  {
  }

  /** A backend read failure never fails the request: the handler runs and
      its response goes out unchanged. The request aborts only when the
      post-response hook throws reading the hit header of that response,
      which it would do whatever the backend said. */
  lemma ReadErrorFailsOpen(defaults: Options, req: Request, store: Store, faults: Faults, hash: Hasher,
                           blank: Object, handler: Handler, ttl: int)
    requires faults.read
    ensures var o := Serve(defaults, req, store, faults, hash, blank, handler, ttl);
      && (o.Completed? ==> o.handlerRan && o.response == handler.response)
      && (o.Aborted? <==>
          && GetSettings(defaults, req.route).Some? && !handler.callsNocache
          && HitMarker(handler.response, GetSettings(defaults, req.route).value.options.wasCachedHeader).None?)
  {
  }

  /** After `nocache` nothing is stored and no callback fires, whatever the response. */
  lemma NocacheSuppressesStore(defaults: Options, req: Request, store: Store, faults: Faults, hash: Hasher,
                               blank: Object, handler: Handler, ttl: int)
    requires handler.callsNocache
    ensures var o := Serve(defaults, req, store, faults, hash, blank, handler, ttl);
      o.Completed? && o.handlerRan ==> o.events == [] && o.store == store
  {
  }

  /** The replayed response carries the hit marker, so the post-response hook
      reports it as a hit and never writes it back. */
  lemma HitNotRestored(defaults: Options, req: Request, store: Store, faults: Faults, hash: Hasher,
                       blank: Object, handler: Handler, ttl: int)
    requires OnPreHandler(defaults, req, store, faults.read, hash, blank).HitServed?
    requires !Truthy(Get(OnPreHandler(defaults, req, store, faults.read, hash, blank).response, "output"))
    ensures Serve(defaults, req, store, faults, hash, blank, handler, ttl)
      == Completed(OnPreHandler(defaults, req, store, faults.read, hash, blank).response, false,
                   [HitCallback(GetSettings(defaults, req.route).value.options.callback.onCacheHit)], store)
  {
    var lk := OnPreHandler(defaults, req, store, faults.read, hash, blank);
    var s := GetSettings(defaults, req.route).value;
    var h := s.options.wasCachedHeader;
    assert Outgoing(lk.response) == Obj(lk.response);
    assert Truthy(lk.response["headers"].fields[h]);
    assert HitMarker(lk.response, h) == Some(true);
  }

  /** With picked items in the backend, a write happens only for a response
      the handler produced, without calling `nocache`, that is not marked as
      a hit and whose status is listed. */
  lemma WriteOnlyForListedMiss(defaults: Options, req: Request, store: Store, faults: Faults, hash: Hasher,
                               blank: Object, handler: Handler, ttl: int)
    requires ItemsPicked(store)
    requires !Truthy(Get(blank, "output"))
    ensures var o := Serve(defaults, req, store, faults, hash, blank, handler, ttl);
      o.Completed? && Writes(o.events) > 0 ==>
        && GetSettings(defaults, req.route).Some?
        && o.handlerRan && !handler.callsNocache
        && HitMarker(handler.response, GetSettings(defaults, req.route).value.options.wasCachedHeader) == Some(false)
        && StatusListed(Get(Fields(Outgoing(handler.response)), "statusCode"),
                        GetSettings(defaults, req.route).value.statuses)
  {
    var lk := OnPreHandler(defaults, req, store, faults.read, hash, blank);
    if lk.HitServed? {
      ReplayHasNoOutput(defaults, req, store, faults.read, hash, blank);
      HitNotRestored(defaults, req, store, faults, hash, blank, handler, ttl);
      CountOne(HitCallback(GetSettings(defaults, req.route).value.options.callback.onCacheHit), WriteKind);
    } else if !lk.ReplayThrew? {
      var ctx := if handler.callsNocache then NoCache(ContextAfter(lk)) else ContextAfter(lk);
      StoreStepCounts(defaults, req, ctx, handler.response, ttl, faults.write, store);
    }
  }

  /** A response whose status is not listed is not written and reports no
      miss, so a handler that fails is run again on the next request. */
  lemma UnlistedStatusNotStored(defaults: Options, req: Request, store: Store, faults: Faults, hash: Hasher,
                                blank: Object, handler: Handler, ttl: int)
    requires GetSettings(defaults, req.route).Some?
    requires !StatusListed(Get(Fields(Outgoing(handler.response)), "statusCode"),
                           GetSettings(defaults, req.route).value.statuses)
    requires !OnPreHandler(defaults, req, store, faults.read, hash, blank).HitServed?
    ensures var o := Serve(defaults, req, store, faults, hash, blank, handler, ttl);
      o.Completed? ==> Writes(o.events) == 0 && Misses(o.events) == 0 && o.store == store
  {
    var lk := OnPreHandler(defaults, req, store, faults.read, hash, blank);
    if !lk.ReplayThrew? {
      var ctx := if handler.callsNocache then NoCache(ContextAfter(lk)) else ContextAfter(lk);
      StoreStepCounts(defaults, req, ctx, handler.response, ttl, faults.write, store);
    }
  }

  // ---- request sequences ----

  /** One request and what its handler would do if it ran. */
  datatype Visit = Visit(req: Request, handler: Handler)

  /** Requests served one after another against a healthy backend, each
      seeing the backend the previous one left. */
  function ServeAll(defaults: Options, store: Store, hash: Hasher, blank: Object,
                    visits: seq<Visit>, ttl: int): (outs: seq<Outcome>)
    ensures |outs| == |visits|
    decreases |visits|
  {
    if |visits| == 0 then []
    else
      var o := Serve(defaults, visits[0].req, store, NoFaults, hash, blank, visits[0].handler, ttl);
      [o] + ServeAll(defaults, o.store, hash, blank, visits[1..], ttl)
  }

  /** The event log of a run of requests, in order. */
  function LogOf(outs: seq<Outcome>): seq<Event>
  {
    if |outs| == 0 then [] else (if outs[0].Completed? then outs[0].events else []) + LogOf(outs[1..])
  }

  /** Requests to uncacheable routes each run their handler, reply with
      exactly the handler's response, and leave the backend and the
      callbacks alone. */
  lemma {:induction false} UncacheableRouteAlwaysRunsHandler(defaults: Options, store: Store,
                                                            hash: Hasher, blank: Object,
                                                            visits: seq<Visit>, ttl: int)
    requires forall i :: 0 <= i < |visits| ==> GetSettings(defaults, visits[i].req.route).None?
    ensures var outs := ServeAll(defaults, store, hash, blank, visits, ttl);
      forall i :: 0 <= i < |outs| ==>
        outs[i] == Completed(visits[i].handler.response, true, [], store)
    decreases |visits|
  {
    if |visits| > 0 {
      NoPolicyNoEffect(defaults, visits[0].req, store, NoFaults, hash, blank, visits[0].handler, ttl);
      UncacheableRouteAlwaysRunsHandler(defaults, store, hash, blank, visits[1..], ttl);
      var outs := ServeAll(defaults, store, hash, blank, visits, ttl);
      var rest := ServeAll(defaults, store, hash, blank, visits[1..], ttl);
      assert outs == [outs[0]] + rest;
      forall i | 0 <= i < |outs|
        ensures outs[i] == Completed(visits[i].handler.response, true, [], store)
      {
        if i > 0 {
          assert outs[i] == rest[i - 1];
          assert visits[1..][i - 1] == visits[i];
        }
      }
    }
  }

  /** Routes whose directive sets a privacy other than "public" never cache:
      however many requests arrive, every one runs its handler and the log stays empty. */
  lemma PrivateRouteNeverCached(defaults: Options, store: Store, hash: Hasher, blank: Object,
                                visits: seq<Visit>, ttl: int)
    requires forall i :: 0 <= i < |visits| ==> IsRestricted(visits[i].req.route.cache)
    ensures var outs := ServeAll(defaults, store, hash, blank, visits, ttl);
      forall i :: 0 <= i < |outs| ==>
        outs[i].Completed? && outs[i].handlerRan && outs[i].events == [] && outs[i].store == store
  {
    UncacheableRouteAlwaysRunsHandler(defaults, store, hash, blank, visits, ttl);
  }

  // ---- catbox clients ----

  /** A request changes no entry of a catbox client other than the one its
      route's settings name. */
  lemma OtherClientsUntouched(defaults: Options, req: Request, store: Store, faults: Faults, hash: Hasher,
                              blank: Object, handler: Handler, ttl: int)
    ensures var o := Serve(defaults, req, store, faults, hash, blank, handler, ttl);
      forall a: Address :: (GetSettings(defaults, req.route).None? ||
                            a.client != GetSettings(defaults, req.route).value.options.cache) ==>
        (a in o.store <==> a in store) && (a in store ==> o.store[a] == store[a])
  {
    var lk := OnPreHandler(defaults, req, store, faults.read, hash, blank);
    var ctx := if lk.HitServed? then Some(lk.ctx)
               else if handler.callsNocache then NoCache(ContextAfter(lk)) else ContextAfter(lk);
    var response := if lk.HitServed? then lk.response else handler.response;
    var st := OnPreResponse(defaults, req, ctx, response, ttl, faults.write, store);
    if st.step.Stored? {
      var s := GetSettings(defaults, req.route).value;
      assert ctx.value.handle == HandleFor(s);
      assert st.store == Write(store, AddressOf(ctx.value.handle, ctx.value.ident, s), ItemOf(response), ttl,
                               faults.write);
    }
  }

  /** Routes on different catbox clients never share an entry, even when
      their keys coincide: a request that would miss still misses after a
      request to a route on another client, and runs its handler. */
  lemma DistinctClientsDoNotShare(defaults: Options, store: Store, hash: Hasher, blank: Object,
                                  v1: Visit, v2: Visit, ttl: int)
    requires GetSettings(defaults, v1.req.route).Some? && GetSettings(defaults, v2.req.route).Some?
    requires GetSettings(defaults, v1.req.route).value.options.cache
          != GetSettings(defaults, v2.req.route).value.options.cache
    requires var s2 := GetSettings(defaults, v2.req.route).value;
      AddressOf(HandleFor(s2), IdentOf(s2, v2.req, hash), s2) !in store
    ensures var outs := ServeAll(defaults, store, hash, blank, [v1, v2], ttl);
      && OnPreHandler(defaults, v2.req, outs[0].store, false, hash, blank).MissArmed?
      && (outs[1].Completed? ==> outs[1].handlerRan && outs[1].response == v2.handler.response)
  {
    ServeAllTwo(defaults, store, hash, blank, v1, v2, ttl);
    OtherClientsUntouched(defaults, v1.req, store, NoFaults, hash, blank, v1.handler, ttl);
  }

  // ---- the miss-then-hit round trip ----

  /** A response that the post-response hook will write: not marked as a hit,
      with an object for headers, and a listed status code. */
  predicate Storable(s: Settings, response: Object)
  {
    && HitMarker(response, s.options.wasCachedHeader) == Some(false)
    && Get(Fields(Outgoing(response)), "headers").Obj?
    && StatusListed(Get(Fields(Outgoing(response)), "statusCode"), s.statuses)
  }

  /** On a miss the handler's response goes out as is, is written once under
      the request's key, and the miss callback fires once. */
  lemma MissStoresOnce(defaults: Options, req: Request, store: Store, hash: Hasher,
                       blank: Object, handler: Handler, ttl: int)
    requires GetSettings(defaults, req.route).Some?
    requires AddressOf(HandleFor(GetSettings(defaults, req.route).value),
                       IdentOf(GetSettings(defaults, req.route).value, req, hash),
                       GetSettings(defaults, req.route).value) !in store
    requires !handler.callsNocache
    requires Storable(GetSettings(defaults, req.route).value, handler.response)
    ensures var s := GetSettings(defaults, req.route).value;
      var key := AddressOf(HandleFor(s), IdentOf(s, req, hash), s);
      Serve(defaults, req, store, NoFaults, hash, blank, handler, ttl)
        == Completed(handler.response, true,
                     [CacheWrite(key, ItemOf(handler.response), ttl), MissCallback(s.options.callback.onCacheMiss)],
                     store[key := Entry(ItemOf(handler.response), ttl)])
  {
    var lk := OnPreHandler(defaults, req, store, false, hash, blank);
    assert lk.MissArmed?;
  }

  /** Once a response is stored under a request's key, that request is served
      from the backend without its handler: status, body and variety are the
      stored response's, its headers are the stored headers plus the hit
      marker, the hit callback fires once and nothing is written. */
  lemma StoredIsReplayed(defaults: Options, req: Request, store: Store, hash: Hasher,
                         blank: Object, handler: Handler, ttl: int, sentResponse: Object)
    requires GetSettings(defaults, req.route).Some?
    requires ItemsPicked(store)
    requires var s := GetSettings(defaults, req.route).value;
      var key := AddressOf(HandleFor(s), IdentOf(s, req, hash), s);
      key in store && store[key].item == ItemOf(sentResponse)
    requires Get(Fields(Outgoing(sentResponse)), "headers").Obj?
    requires !Truthy(Get(blank, "output"))
    ensures var s := GetSettings(defaults, req.route).value;
      var o := Serve(defaults, req, store, NoFaults, hash, blank, handler, ttl);
      var sent := Fields(Outgoing(sentResponse));
      && o.Completed? && !o.handlerRan
      && o.events == [HitCallback(s.options.callback.onCacheHit)]
      && o.store == store
      && "statusCode" in o.response && o.response["statusCode"] == Get(sent, "statusCode")
      && "source" in o.response && o.response["source"] == Get(sent, "source")
      && "variety" in o.response && o.response["variety"] == Get(sent, "variety")
      && "headers" in o.response && o.response["headers"].Obj?
      && s.options.wasCachedHeader in o.response["headers"].fields
      && o.response["headers"].fields[s.options.wasCachedHeader] == Bool(true)
      && (forall h :: h in sent["headers"].fields && h != s.options.wasCachedHeader ==>
            h in o.response["headers"].fields && o.response["headers"].fields[h] == sent["headers"].fields[h])
  {
    var s := GetSettings(defaults, req.route).value;
    var item := ItemOf(sentResponse);
    var replay := Overlay(blank, item);
    StoredKeysNamed();
    assert "headers" in item && item["headers"].Obj?;
    assert Get(replay, "headers") == item["headers"];
    var lk := OnPreHandler(defaults, req, store, false, hash, blank);
    assert lk.HitServed?;
    var sent := Fields(Outgoing(sentResponse));
    assert lk.response["statusCode"] == item["statusCode"] == Get(sent, "statusCode");
    assert lk.response["source"] == item["source"] == Get(sent, "source");
    assert lk.response["variety"] == item["variety"] == Get(sent, "variety");
    ReplayHasNoOutput(defaults, req, store, false, hash, blank);
    HitNotRestored(defaults, req, store, NoFaults, hash, blank, handler, ttl);
  }

  lemma ServeAllTwo(defaults: Options, store: Store, hash: Hasher, blank: Object, v1: Visit, v2: Visit, ttl: int)
    ensures var o1 := Serve(defaults, v1.req, store, NoFaults, hash, blank, v1.handler, ttl);
      ServeAll(defaults, store, hash, blank, [v1, v2], ttl)
        == [o1, Serve(defaults, v2.req, o1.store, NoFaults, hash, blank, v2.handler, ttl)]
  {
    var visits := [v1, v2];
    assert visits[1..] == [v2];
    assert visits[1..][1..] == [];
  }

  lemma LogOfTwo(o1: Outcome, o2: Outcome)
    requires o1.Completed? && o2.Completed?
    ensures LogOf([o1, o2]) == o1.events + o2.events
  {
    var outs := [o1, o2];
    assert outs[1..] == [o2];
    assert outs[1..][1..] == [];
    assert LogOf([o2]) == o2.events + [];
  }

  /** A stored miss followed by a replayed hit logs one of each, and one write. */
  lemma MissThenHitCounts(key: Address, item: Object, ttl: int, onMiss: Callback, onHit: Callback)
    ensures var log := [CacheWrite(key, item, ttl), MissCallback(onMiss)] + [HitCallback(onHit)];
      Misses(log) == 1 && Hits(log) == 1 && Writes(log) == 1
  {
    var a := [CacheWrite(key, item, ttl), MissCallback(onMiss)];
    var b := [HitCallback(onHit)];
    forall k: Kind { CountTwo(a[0], a[1], k); }
    forall k: Kind { CountOne(b[0], k); }
    CountKindAppend(a, b, MissKind);
    CountKindAppend(a, b, HitKind);
    CountKindAppend(a, b, WriteKind);
  }

  /** The plugin's round trip, as two requests that select the same
      attributes: the first runs its handler and is stored, the second is
      replayed from the backend with the first response's status and body;
      across the pair exactly one miss, one hit and one write are logged. */
  lemma MissThenHit(defaults: Options, req1: Request, req2: Request, store: Store, hash: Hasher,
                    blank: Object, first: Handler, second: Handler, ttl: int)
    requires GetSettings(defaults, req1.route).Some?
    requires req2.route == req1.route
    requires SameSelected(GetSettings(defaults, req1.route).value.options.parse, req1, req2)
    requires ItemsPicked(store)
    requires AddressOf(HandleFor(GetSettings(defaults, req1.route).value),
                       IdentOf(GetSettings(defaults, req1.route).value, req1, hash),
                       GetSettings(defaults, req1.route).value) !in store
    requires !first.callsNocache
    requires Storable(GetSettings(defaults, req1.route).value, first.response)
    requires !Truthy(Get(blank, "output"))
    ensures var outs := ServeAll(defaults, store, hash, blank, [Visit(req1, first), Visit(req2, second)], ttl);
      && outs[0].Completed? && outs[0].handlerRan && outs[0].response == first.response
      && outs[1].Completed? && !outs[1].handlerRan
      && "statusCode" in outs[1].response
      && outs[1].response["statusCode"] == Get(Fields(Outgoing(first.response)), "statusCode")
      && "source" in outs[1].response
      && outs[1].response["source"] == Get(Fields(Outgoing(first.response)), "source")
      && Misses(LogOf(outs)) == 1
      && Hits(LogOf(outs)) == 1
      && Writes(LogOf(outs)) == 1
  {
    var s := GetSettings(defaults, req1.route).value;
    var key := AddressOf(HandleFor(s), IdentOf(s, req1, hash), s);
    MissStoresOnce(defaults, req1, store, hash, blank, first, ttl);
    var o1 := Serve(defaults, req1, store, NoFaults, hash, blank, first, ttl);
    ServeKeepsItemsPicked(defaults, req1, store, NoFaults, hash, blank, first, ttl);

    IdentDeterminedBySelection(s, req1, req2, hash);
    assert AddressOf(HandleFor(s), IdentOf(s, req2, hash), s) == key;
    StoredIsReplayed(defaults, req2, o1.store, hash, blank, second, ttl, first.response);
    var o2 := Serve(defaults, req2, o1.store, NoFaults, hash, blank, second, ttl);

    ServeAllTwo(defaults, store, hash, blank, Visit(req1, first), Visit(req2, second), ttl);
    LogOfTwo(o1, o2);
    MissThenHitCounts(key, ItemOf(first.response), ttl, s.options.callback.onCacheMiss,
                      s.options.callback.onCacheHit);
  }
}
