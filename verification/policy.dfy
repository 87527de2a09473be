/**
 * Policy resolution: the plugin's option record, the deep merge of route-level
 * plugin config over the plugin defaults, the route's own cache directive, and
 * `getSettings`, which decides whether a route is cached at all.
 */
module Policy {
  import opened Js

  /** A hook the plugin calls as `hook(req, reply)`; only its identity matters here. */
  datatype Callback = ReqNoop | Named(name: string)

  /** Which request attributes feed the ident. */
  datatype Parse = Parse(query: bool, httpMethod: bool, route: bool)

  datatype Callbacks = Callbacks(onCacheHit: Callback, onCacheMiss: Callback)

  /** The fully merged plugin option object. */
  datatype Options = Options(
    cache: string,
    enabled: bool,
    digest: string,
    segment: string,
    wasCachedHeader: string,
    parse: Parse,
    callback: Callbacks)

  /** A partial option object as written by the user: `None` is an absent key.
      Nested `parse` and `callback` objects are merged key by key. */
  datatype ParseOverride = ParseOverride(query: Option<bool>, httpMethod: Option<bool>, route: Option<bool>)

  datatype CallbacksOverride = CallbacksOverride(onCacheHit: Option<Callback>, onCacheMiss: Option<Callback>)

  datatype Overrides = Overrides(
    cache: Option<string>,
    enabled: Option<bool>,
    digest: Option<string>,
    segment: Option<string>,
    wasCachedHeader: Option<string>,
    parse: Option<ParseOverride>,
    callback: Option<CallbacksOverride>)

  const NoOverrides := Overrides(None, None, None, None, None, None, None)

  /** The built-in defaults the registration options are merged over. */
  const Builtin := Options(
    "_default", true, "djb2", "routebox", "X-Was-Cached",
    Parse(true, true, true),
    Callbacks(ReqNoop, ReqNoop))

  function Or<T>(o: Option<T>, d: T): T
  {
    if o.Some? then o.value else d
  }

  function MergeParse(d: Parse, o: ParseOverride): Parse
  {
    Parse(Or(o.query, d.query), Or(o.httpMethod, d.httpMethod), Or(o.route, d.route))
  }

  function MergeCallbacks(d: Callbacks, o: CallbacksOverride): Callbacks
  {
    Callbacks(Or(o.onCacheHit, d.onCacheHit), Or(o.onCacheMiss, d.onCacheMiss))
  }

  /** `Hoek.applyToDefaults(d, o)`: a copy of `d` in which every key present
      in `o` takes `o`'s value, descending into nested objects. */
  function Merge(d: Options, o: Overrides): (r: Options)
    ensures r.cache == Or(o.cache, d.cache)
    ensures r.enabled == Or(o.enabled, d.enabled)
    ensures r.digest == Or(o.digest, d.digest)
    ensures r.segment == Or(o.segment, d.segment)
    ensures r.wasCachedHeader == Or(o.wasCachedHeader, d.wasCachedHeader)
    ensures o.parse.None? ==> r.parse == d.parse
    ensures o.parse.Some? ==> r.parse == MergeParse(d.parse, o.parse.value)
    ensures o.callback.None? ==> r.callback == d.callback
    ensures o.callback.Some? ==> r.callback == MergeCallbacks(d.callback, o.callback.value)
  {
    Options(
      Or(o.cache, d.cache),
      Or(o.enabled, d.enabled),
      Or(o.digest, d.digest),
      Or(o.segment, d.segment),
      Or(o.wasCachedHeader, d.wasCachedHeader),
      if o.parse.Some? then MergeParse(d.parse, o.parse.value) else d.parse,
      if o.callback.Some? then MergeCallbacks(d.callback, o.callback.value) else d.callback)
  }

  /** The plugin defaults fixed at registration: built-ins overlaid with the
      registration options. */
  function Register(options: Overrides): (r: Options)
    ensures options == NoOverrides ==> r == Builtin
    ensures options.segment.None? ==> r.segment == "routebox"
    ensures options.wasCachedHeader.None? ==> r.wasCachedHeader == "X-Was-Cached"
    ensures options.digest.None? ==> r.digest == "djb2"
    ensures options.enabled.None? ==> r.enabled
  {
    Merge(Builtin, options)
  }

  /** Two overrides written one after the other, later keys winning. */
  function OrElse<T>(later: Option<T>, earlier: Option<T>): Option<T>
  {
    if later.Some? then later else earlier
  }

  function CombineParse(a: Option<ParseOverride>, b: Option<ParseOverride>): Option<ParseOverride>
  {
    if a.None? then b
    else if b.None? then a
    else Some(ParseOverride(
      OrElse(b.value.query, a.value.query),
      OrElse(b.value.httpMethod, a.value.httpMethod),
      OrElse(b.value.route, a.value.route)))
  }

  function CombineCallbacks(a: Option<CallbacksOverride>, b: Option<CallbacksOverride>): Option<CallbacksOverride>
  {
    if a.None? then b
    else if b.None? then a
    else Some(CallbacksOverride(
      OrElse(b.value.onCacheHit, a.value.onCacheHit),
      OrElse(b.value.onCacheMiss, a.value.onCacheMiss)))
  }

  /** The single override equivalent to applying `a` and then `b`. */
  function Combine(a: Overrides, b: Overrides): Overrides
  {
    Overrides(
      OrElse(b.cache, a.cache),
      OrElse(b.enabled, a.enabled),
      OrElse(b.digest, a.digest),
      OrElse(b.segment, a.segment),
      OrElse(b.wasCachedHeader, a.wasCachedHeader),
      CombineParse(a.parse, b.parse),
      CombineCallbacks(a.callback, b.callback))
  }

  /** Merging is layering: route config over (registration options over
      built-ins) equals the built-ins under both layers combined, the
      later layer winning key by key. */
  lemma MergeLayers(d: Options, a: Overrides, b: Overrides)
    ensures Merge(Merge(d, a), b) == Merge(d, Combine(a, b))
  {
    var lhs := Merge(Merge(d, a), b);
    var rhs := Merge(d, Combine(a, b));
    assert lhs.parse == rhs.parse;
    assert lhs.callback == rhs.callback;
  }

  /** Merging an override a second time changes nothing. */
  lemma MergeIdempotent(d: Options, o: Overrides)
    ensures Merge(Merge(d, o), o) == Merge(d, o)
  {
    MergeLayers(d, o, o);
    assert Combine(o, o) == o;
  }

  /** The route's own `config.cache` directive, as the router supplies it. */
  datatype CacheDirective = CacheDirective(
    expiresIn: Option<int>,
    expiresAt: Option<string>,
    privacy: Option<string>,
    statuses: seq<int>)

  /** A route as the plugin sees it: its cache directive and its
      `plugins.routebox` config, if any. */
  datatype Route = Route(cache: CacheDirective, plugin: Option<Overrides>)

  /** The resolved settings: merged options plus the three fields copied from the directive. */
  datatype Settings = Settings(
    options: Options,
    expiresIn: Option<int>,
    expiresAt: Option<string>,
    statuses: seq<int>)

  predicate TruthyNum(o: Option<int>) { o.Some? && o.value != 0 }

  predicate TruthyStr(o: Option<string>) { o.Some? && o.value != "" }

  /** The directive gives the response a lifetime (`expiresIn || expiresAt`). */
  predicate HasLifetime(c: CacheDirective)
  {
    TruthyNum(c.expiresIn) || TruthyStr(c.expiresAt)
  }

  /** The directive's privacy is set and is something other than "public". */
  predicate IsRestricted(c: CacheDirective)
  {
    TruthyStr(c.privacy) && c.privacy.value != "public"
  }

  /** The options in force for a route: defaults, overlaid with the route's
      plugin config when it has one, otherwise an unchanged copy. */
  function RouteOptions(defaults: Options, route: Route): (r: Options)
    ensures route.plugin.None? ==> r == defaults
    ensures route.plugin.Some? ==> r == Merge(defaults, route.plugin.value)
  {
    match route.plugin
    case None => defaults
    case Some(cfg) => Merge(defaults, cfg)
  }

  /** `getSettings`: the settings to cache this route with, or `None` when it must not be cached. */
  function GetSettings(defaults: Options, route: Route): (r: Option<Settings>)
    ensures r.None? <==>
      !HasLifetime(route.cache) || IsRestricted(route.cache) || !RouteOptions(defaults, route).enabled
    ensures r.Some? ==> r.value.options == RouteOptions(defaults, route)
    ensures r.Some? ==> r.value.options.enabled
  {
    var c := route.cache;
    if !HasLifetime(c) || IsRestricted(c) then None
    else
      var options := RouteOptions(defaults, route);
      if !options.enabled then None
      else Some(Settings(options, c.expiresIn, c.expiresAt, c.statuses))
  }

  /** Lifetime and cacheable statuses always come from the route's directive:
      no plugin default or route plugin config can change them. */
  lemma DirectiveFieldsVerbatim(d1: Options, d2: Options, route1: Route, route2: Route)
    requires route1.cache == route2.cache
    requires GetSettings(d1, route1).Some? && GetSettings(d2, route2).Some?
    ensures GetSettings(d1, route1).value.expiresIn == route1.cache.expiresIn
    ensures GetSettings(d1, route1).value.expiresAt == route1.cache.expiresAt
    ensures GetSettings(d1, route1).value.statuses == route1.cache.statuses
    ensures GetSettings(d1, route1).value.expiresIn == GetSettings(d2, route2).value.expiresIn
    ensures GetSettings(d1, route1).value.expiresAt == GetSettings(d2, route2).value.expiresAt
    ensures GetSettings(d1, route1).value.statuses == GetSettings(d2, route2).value.statuses
  {
  }

  /** Option precedence for a resolved route: route plugin config first, then
      the registration options, then the built-in defaults. */
  lemma SegmentPrecedence(options: Overrides, route: Route)
    requires GetSettings(Register(options), route).Some?
    ensures var seg := GetSettings(Register(options), route).value.options.segment;
      && (route.plugin.Some? && route.plugin.value.segment.Some? ==> seg == route.plugin.value.segment.value)
      && ((route.plugin.None? || route.plugin.value.segment.None?) && options.segment.Some? ==>
            seg == options.segment.value)
      && ((route.plugin.None? || route.plugin.value.segment.None?) && options.segment.None? ==>
            seg == "routebox")
  {
  }
}
