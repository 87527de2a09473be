/**
 * The two request-lifecycle hooks and the `nocache` escape hatch.
 *
 * `OnPreHandler` resolves the settings, derives the ident, attaches the
 * per-request context and reads the backend: a hit replays the stored item
 * stamped with the hit header, a miss or a read failure lets the handler run.
 * `OnPreResponse` decides, from the same settings and the context, whether the
 * outgoing response is reported as a hit, skipped, or written to the backend.
 */
module Routebox {
  import opened Js
  import opened Policy
  import opened Keys
  import opened Backend

  /** The handle `server.cache(policy)` returns for
      `pick(settings, ['cache', 'segment', 'expiresIn', 'expiresAt'])` with `shared: true`. */
  datatype Handle = Handle(
    cache: string,
    segment: string,
    expiresIn: Option<int>,
    expiresAt: Option<string>,
    shared: bool)

  function HandleFor(s: Settings): (h: Handle)
    ensures h.cache == s.options.cache && h.segment == s.options.segment
    ensures h.expiresIn == s.expiresIn && h.expiresAt == s.expiresAt
    ensures h.shared
  {
    Handle(s.options.cache, s.options.segment, s.expiresIn, s.expiresAt, true)
  }

  /** Where the entry for `ident` lives: the handle's client, under `buildCacheKey(ident, settings)`. */
  function AddressOf(h: Handle, ident: Ident, s: Settings): Address
  {
    Address(h.cache, BuildCacheKey(ident, s))
  }

  /** Routes whose settings name different catbox clients never address the
      same entry, whatever their idents and segments. */
  lemma ClientsSeparate(s1: Settings, s2: Settings, i1: Ident, i2: Ident)
    ensures s1.options.cache != s2.options.cache ==>
      AddressOf(HandleFor(s1), i1, s1) != AddressOf(HandleFor(s2), i2, s2)
  {
  }

  /** `req.plugins.routebox`: either `{ident, cache}` or `{nocache: true}`. */
  datatype Context = Armed(ident: Ident, handle: Handle) | NoCacheMark

  /** The result of the pre-handler hook. Every outcome but `NotApplicable`
      has attached the context before the backend answered. */
  datatype Lookup =
    | NotApplicable
    | ErrorPassthrough(ctx: Context)
    | MissArmed(ctx: Context)
    | HitServed(ctx: Context, response: Object)
    | ReplayThrew(ctx: Context)

  /** The context the request carries after the pre-handler hook. */
  function ContextAfter(lk: Lookup): (c: Option<Context>)
    ensures c.None? <==> lk.NotApplicable?
  {
    if lk.NotApplicable? then None else Some(lk.ctx)
  }

  /** `response.headers[name] = true`; `None` when that assignment throws
      because `headers` is not an object. */
  function Stamp(response: Object, name: string): (r: Option<Object>)
    ensures r.Some? <==> Get(response, "headers").Obj?
    ensures r.Some? ==> r.value.Keys == response.Keys + {"headers"}
    ensures r.Some? ==> forall k :: k in response && k != "headers" ==> r.value[k] == response[k]
    ensures r.Some? ==> r.value["headers"].Obj?
    ensures r.Some? ==> r.value["headers"].fields.Keys == response["headers"].fields.Keys + {name}
    ensures r.Some? ==> r.value["headers"].fields[name] == Bool(true)
    ensures r.Some? ==> forall h :: h in response["headers"].fields && h != name ==>
      r.value["headers"].fields[h] == response["headers"].fields[h]
  {
    match Get(response, "headers")
    case Obj(hs) => Some(response["headers" := Obj(hs[name := Bool(true)])])
    case _ => None
  }

  /** The pre-handler hook: `blank` is the empty response `reply()` creates,
      `readFault` whether the backend's `get` reports an error. */
  function OnPreHandler(defaults: Options, req: Request, store: Store, readFault: bool,
                        hash: Hasher, blank: Object): (r: Lookup)
    ensures r.NotApplicable? <==> GetSettings(defaults, req.route).None?
    ensures !r.NotApplicable? ==>
      var s := GetSettings(defaults, req.route).value;
      && r.ctx == Armed(IdentOf(s, req, hash), HandleFor(s))
      && (r.ErrorPassthrough? <==> readFault)
      && (r.MissArmed? <==> !readFault && AddressOf(HandleFor(s), IdentOf(s, req, hash), s) !in store)
      && ((r.HitServed? || r.ReplayThrew?) ==> !readFault && AddressOf(HandleFor(s), IdentOf(s, req, hash), s) in store)
      && (!readFault && AddressOf(HandleFor(s), IdentOf(s, req, hash), s) in store ==>
            (r.HitServed? <==>
             Get(Overlay(blank, store[AddressOf(HandleFor(s), IdentOf(s, req, hash), s)].item), "headers").Obj?))
    ensures r.HitServed? ==>
      var s := GetSettings(defaults, req.route).value;
      var item := store[AddressOf(HandleFor(s), IdentOf(s, req, hash), s)].item;
      && (forall k :: k in item && k != "headers" ==> k in r.response && r.response[k] == item[k])
      && (forall k :: k in blank && k !in item && k != "headers" ==> k in r.response && r.response[k] == blank[k])
      && "headers" in r.response && r.response["headers"].Obj?
      && s.options.wasCachedHeader in r.response["headers"].fields
      && r.response["headers"].fields[s.options.wasCachedHeader] == Bool(true)
      && (forall h :: h in Fields(Get(Overlay(blank, item), "headers")) && h != s.options.wasCachedHeader ==>
            h in r.response["headers"].fields &&
            r.response["headers"].fields[h] == Fields(Get(Overlay(blank, item), "headers"))[h])
      && r.response.Keys == blank.Keys + item.Keys + {"headers"}
      && r.response["headers"].fields.Keys
           == Fields(Get(Overlay(blank, item), "headers")).Keys + {s.options.wasCachedHeader}
  {
    match GetSettings(defaults, req.route)
    case None => NotApplicable
    case Some(s) =>
      var ident := IdentOf(s, req, hash);
      var ctx := Armed(ident, HandleFor(s));
      match Read(store, AddressOf(ctx.handle, ident, s), readFault)
      case ReadError => ErrorPassthrough(ctx)
      case Miss => MissArmed(ctx)
      case Hit(item) =>
        match Stamp(Overlay(blank, item), s.options.wasCachedHeader)
        case None => ReplayThrew(ctx)
        case Some(response) => HitServed(ctx, response)
  }

  /** `req.nocache()`: replaces whatever context the request had. */
  function NoCache(ctx: Option<Context>): (r: Option<Context>)
    ensures r.Some? && r.value.NoCacheMark?
  {
    Some(NoCacheMark)
  }

  /** Calling `nocache` again has no further effect. */
  lemma NoCacheIdempotent(ctx: Option<Context>)
    ensures NoCache(NoCache(ctx)) == NoCache(ctx)
  {
  }

  /** What the post-response hook may emit, in order. */
  datatype Event =
    | CacheWrite(at: Address, item: Object, ttl: int)
    | HitCallback(hook: Callback)
    | MissCallback(hook: Callback)

  datatype StoreStep = Skipped | HeaderThrew | HitReported | StatusRejected | Stored

  datatype StoreResult = StoreResult(step: StoreStep, events: seq<Event>, store: Store)

  /** The response fields an item keeps, in the order `pick` visits them. */
  const StoredFields: seq<string> := ["statusCode", "headers", "source", "variety"]

  /** The keys of every stored item. */
  const StoredKeys: set<string> := KeySet(StoredFields)

  lemma StoredKeysNamed()
    ensures StoredKeys == {"statusCode", "headers", "source", "variety"}
  {
    assert StoredFields[0] == "statusCode" && StoredFields[1] == "headers";
    assert StoredFields[2] == "source" && StoredFields[3] == "variety";
  }

  /** `req.response.output || req.response`: the first of the two that is truthy. */
  function Outgoing(response: Object): (v: Value)
    ensures Truthy(v)
    ensures Truthy(Get(response, "output")) ==> v == Get(response, "output")
    ensures !Truthy(Get(response, "output")) ==> v == Obj(response)
  {
    var output := Get(response, "output");
    if Truthy(output) then output else Obj(response)
  }

  /** Whether `response.headers[name]` is truthy; `None` when the read throws. */
  function HitMarker(response: Object, name: string): (r: Option<bool>)
    ensures r.None? <==>
      (Prop(Outgoing(response), "headers").None? ||
       Prop(Prop(Outgoing(response), "headers").value, name).None?)
    ensures r.Some? ==> (r.value <==> Truthy(Get(Fields(Get(Fields(Outgoing(response)), "headers")), name)))
  {
    match Prop(Outgoing(response), "headers")
    case None => None
    case Some(headers) =>
      match Prop(headers, name)
      case None => None
      case Some(flag) => Some(Truthy(flag))
  }

  /** `xs.indexOf(v)`: the first position holding a number strictly equal to `v`, or -1. */
  function IndexOf(xs: seq<int>, v: Value): (i: int)
    ensures -1 <= i < |xs|
    ensures i == -1 <==> !(v.Num? && v.n in xs)
    ensures 0 <= i ==> v.Num? && xs[i] == v.n && forall j :: 0 <= j < i ==> xs[j] != v.n
    decreases |xs|
  {
    if |xs| == 0 || !v.Num? then -1
    else if xs[0] == v.n then 0
    else
      var i := IndexOf(xs[1..], v);
      if i == -1 then -1 else i + 1
  }

  /** `statuses.indexOf(statusCode) !== -1`: the status is a number listed in `statuses`. */
  function StatusListed(code: Value, statuses: seq<int>): (b: bool)
    ensures b <==> code.Num? && code.n in statuses
  {
    IndexOf(statuses, code) != -1
  }

  /** `pick(response, ['statusCode', 'headers', 'source', 'variety'])` of the outgoing response. */
  function ItemOf(response: Object): (item: Object)
    ensures item.Keys == StoredKeys
    ensures forall k :: k in item ==> item[k] == Get(Fields(Outgoing(response)), k)
  {
    Pick(Fields(Outgoing(response)), StoredFields)
  }

  /** The post-response hook: `ttl` is what the handle's `ttl()` reports,
      `writeFault` whether the backend's `set` fails. */
  function OnPreResponse(defaults: Options, req: Request, ctx: Option<Context>, response: Object,
                         ttl: int, writeFault: bool, store: Store): (r: StoreResult)
    ensures r.step.Skipped? <==>
      GetSettings(defaults, req.route).None? || ctx.None? || ctx.value.NoCacheMark?
    ensures !r.step.Stored? ==> r.store == store && forall e :: e in r.events ==> !e.CacheWrite?
    ensures r.step.Skipped? || r.step.HeaderThrew? || r.step.StatusRejected? ==> r.events == []
    ensures GetSettings(defaults, req.route).Some? && ctx.Some? && ctx.value.Armed? ==>
      var name := GetSettings(defaults, req.route).value.options.wasCachedHeader;
      && (r.step.HitReported? <==> HitMarker(response, name) == Some(true))
      && (r.step.HeaderThrew? <==> HitMarker(response, name).None?)
    ensures r.step.HitReported? ==>
      && r.events == [HitCallback(GetSettings(defaults, req.route).value.options.callback.onCacheHit)]
      && HitMarker(response, GetSettings(defaults, req.route).value.options.wasCachedHeader) == Some(true)
    ensures r.step.StatusRejected? ==>
      && HitMarker(response, GetSettings(defaults, req.route).value.options.wasCachedHeader) == Some(false)
      && !StatusListed(Get(Fields(Outgoing(response)), "statusCode"), GetSettings(defaults, req.route).value.statuses)
    ensures r.step.Stored? <==>
      && GetSettings(defaults, req.route).Some? && ctx.Some? && ctx.value.Armed?
      && HitMarker(response, GetSettings(defaults, req.route).value.options.wasCachedHeader) == Some(false)
      && StatusListed(Get(Fields(Outgoing(response)), "statusCode"), GetSettings(defaults, req.route).value.statuses)
    ensures r.step.Stored? ==>
      var s := GetSettings(defaults, req.route).value;
      var key := AddressOf(ctx.value.handle, ctx.value.ident, s);
      && r.events == [CacheWrite(key, ItemOf(response), ttl), MissCallback(s.options.callback.onCacheMiss)]
      && (writeFault ==> r.store == store)
      && (!writeFault ==> r.store == store[key := Entry(ItemOf(response), ttl)])
  {
    match GetSettings(defaults, req.route)
    case None => StoreResult(Skipped, [], store)
    case Some(s) =>
      if ctx.None? || ctx.value.NoCacheMark? then StoreResult(Skipped, [], store)
      else
        match HitMarker(response, s.options.wasCachedHeader)
        case None => StoreResult(HeaderThrew, [], store)
        case Some(true) => StoreResult(HitReported, [HitCallback(s.options.callback.onCacheHit)], store)
        case Some(false) =>
          if !StatusListed(Get(Fields(Outgoing(response)), "statusCode"), s.statuses) then
            StoreResult(StatusRejected, [], store)
          else
            var key := AddressOf(ctx.value.handle, ctx.value.ident, s);
            var item := ItemOf(response);
            StoreResult(Stored, [CacheWrite(key, item, ttl), MissCallback(s.options.callback.onCacheMiss)],
                        Write(store, key, item, ttl, writeFault))
  }
}
