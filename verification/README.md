# routebox — a Dafny model of the caching decision engine

routebox is a hapi plugin that caches whole route responses in a catbox
backend. Before the handler runs (`onPreHandler`), it resolves the route's
caching settings. It then hashes the selected request attributes into an
ident and looks that ident up in the backend. A hit replays the stored
response stamped with the hit header (`X-Was-Cached` by default). A miss lets
the handler run. After the response exists (`onPreResponse`), the plugin
decides whether to report a hit, skip, or write the response back and report
a miss. Handler code can opt a request out with `req.nocache()`.

This project models that logic as pure functions over immutable values:

- `js.dfy` (`Js`): JavaScript values and plain objects, truthiness, throwing
  property reads, `pick`, and the key-copy loop used to replay a hit.
- `policy.dfy` (`Policy`): plugin options, the deep merge of route config
  over the defaults (`Hoek.applyToDefaults`), the route cache directive, and
  `getSettings`.
- `keys.dfy` (`Keys`): the hashed composite `{method, query, route}`, the
  ident, `String(ident)` and `buildCacheKey`.
- `backend.dfy` (`Backend`): the catbox clients as one map from an address
  (the client's name and the `{id, segment}` key) to stored items, with read
  and write failures as parameters.
- `routebox.dfy` (`Routebox`): the two hooks (`OnPreHandler`,
  `OnPreResponse`) and `nocache`.
- `lifecycle.dfy` (`Lifecycle`): one request through both hooks (`Serve`),
  sequences of requests, the event log of callbacks and writes, and the
  properties that tie them together.

The hashing library, the `reply()` response object, the handler's response,
the handle's `ttl()` and backend failures are all parameters. Callbacks are
opaque identities recorded in the event log.

Behaviours of the code that are easy to misread, and that the model keeps as written:

- The ident hashes `req.path`, the concrete request path, not the route template.
- The context `{ident, cache}` is attached before the backend read
  (lib/routebox.js:124). After a read error the request is therefore still
  armed, and the store phase may write.
- `onCacheHit` fires in the post-response hook, when it sees the hit header
  on the replayed response. The lookup itself fires no callback.
- A response whose status is not listed fires neither callback.
- The schema's `digest` rule uses `allow`, which does not restrict the
  string, so `digest` is modelled as any string.

## Model

| member | source | states |
|---|---|---|
| Js.Pick | lib/routebox.js:103-107 | the picked object has exactly the listed keys, each bound to the source's value or `undefined` when the source lacks it |
| Js.Overlay | lib/routebox.js:138-140 | after the copy a key is present when either object has it, and reading any key gives the item's value when the item has it and the response's own reading otherwise |
| Js.AssignEach | lib/routebox.js:138-140 | the key-by-key copy loop ends at the overlay, whatever order it visits the keys in |
| Policy.Merge | lib/routebox.js:62 | every key present in the route config wins; absent keys keep the default; nested `parse` and `callback` merge key by key |
| Policy.MergeLayers | lib/routebox.js:29-65 | merging registration options and then route config equals one merge of both layers combined, the later layer winning |
| Policy.MergeIdempotent | lib/routebox.js:62 | applying the same override twice gives the same options as applying it once |
| Policy.Register | lib/routebox.js:29-44 | with no options the defaults are the built-ins; absent keys fall back to segment `routebox`, header `X-Was-Cached`, digest `djb2`, enabled |
| Policy.RouteOptions | lib/routebox.js:60-65 | without route config the defaults are used unchanged; with it, the route config is merged over them |
| Policy.GetSettings | lib/routebox.js:54-74 | no settings exactly when the directive has neither truthy `expiresIn` nor `expiresAt`, or a set privacy other than `public`, or the merged `enabled` is false; otherwise the merged options, with `enabled` true |
| Policy.DirectiveFieldsVerbatim | lib/routebox.js:69-73 | `expiresIn`, `expiresAt` and `statuses` equal the directive's values, whatever the defaults or route plugin config say |
| Policy.SegmentPrecedence | lib/routebox.js:29-65 | the segment comes from route config if set, else the registration options, else `routebox` |
| Keys.Composite | lib/routebox.js:114-118 | the hashed object has exactly the keys method, query and route, each the attribute when its flag is set and `false` otherwise |
| Keys.CompositeExact | lib/routebox.js:114-118 | two composites are equal exactly when the flags are equal and the requests agree on every selected attribute |
| Keys.IdentOf | lib/routebox.js:114-118 | the ident is the configured digest of the composite, so any request agreeing on the selected attributes hashes to the same ident |
| Keys.IdentDeterminedBySelection | lib/routebox.js:114-118 | requests agreeing on the selected attributes get the same ident; with a hash that separates inputs, the converse holds too |
| Keys.BuildCacheKey | lib/routebox.js:92-94 | the key's segment is the settings' segment, and its id reads back as the ident (numbers through `String`) |
| Keys.NumberStringRoundTrip | lib/routebox.js:93 | `String(n)` of an integer ident loses nothing: parsing it back yields `n` |
| Keys.CacheKeySeparatesIdents | lib/routebox.js:92-94 | for idents of the same kind, keys are equal exactly when idents are equal |
| Backend.Read | lib/routebox.js:126-135 | a read errors exactly when the backend fails, and hits exactly when the client holds the key, returning the stored item |
| Backend.Write | lib/routebox.js:176-181 | a successful write binds the client's key to the item and TTL; a failed write changes nothing; other addresses never change |
| Backend.ReadAfterWrite | lib/routebox.js:176-181 | a successful write is what the next read of that address returns, and reads of other addresses, including the same key on another client, are unaffected |
| Routebox.HandleFor | lib/routebox.js:120-122 | the handle takes the cache client, segment, `expiresIn` and `expiresAt` from the settings and is shared |
| Routebox.ClientsSeparate | lib/routebox.js:120-126 | routes whose settings name different catbox clients never address the same entry, whatever their idents and segments |
| Routebox.Stamp | lib/routebox.js:141 | stamping keeps every other field and header and sets the hit header to `true`; it throws exactly when `headers` is not an object |
| Routebox.OnPreHandler | lib/routebox.js:109-149 | no settings means no action; otherwise the context is always attached; a read error passes through; a miss arms; a stored entry is served exactly when the replayed response's `headers` is an object, and the served response has exactly the keys of the `reply()` response and the item, takes every item field, and has exactly the overlaid headers plus the hit header set to `true` |
| Routebox.NoCache | lib/routebox.js:151-153 | after `nocache` the context is the `{nocache: true}` marker, whatever it was before |
| Routebox.NoCacheIdempotent | lib/routebox.js:151-153 | calling `nocache` twice has the same effect as once |
| Routebox.HitMarker | lib/routebox.js:165-166 | the hit header is read from `output` when that is truthy, else from the response; it throws exactly when a read hits `undefined` or `null` |
| Routebox.Outgoing | lib/routebox.js:165 | the inspected response is `output` when that is truthy and the response itself otherwise, so it is always truthy |
| Routebox.IndexOf | lib/routebox.js:171 | `indexOf` gives -1 exactly when no listed number strictly equals the value, and otherwise the first position holding it |
| Routebox.StatusListed | lib/routebox.js:171 | the status passes exactly when it is a number that `statuses` lists |
| Routebox.ItemOf | lib/routebox.js:178 | the stored item has exactly statusCode, headers, source and variety, taken from the outgoing response |
| Routebox.OnPreResponse | lib/routebox.js:155-184 | skips exactly when settings or context are absent or `nocache` was called; with an armed context, it fires `onCacheHit` (and only that) exactly when the hit header is truthy, and throws exactly when reading it hits `undefined` or `null`; an unlisted status fires nothing; otherwise one write under the context's key, then `onCacheMiss`; only a store changes the backend |
| Lifecycle.Serve | lib/routebox.js:109-184 | a request aborts, leaving the backend alone, exactly when the replay's stamp throws or the post-response hook throws reading the hit header; when the handler runs, its response goes out unchanged; when it does not, the response is the lookup's replayed hit |
| Lifecycle.StoreStepCounts | lib/routebox.js:166-183 | the post-response hook logs one write and one miss exactly when it stores, and one hit exactly when it sees the hit header |
| Lifecycle.AtMostOneCallback | lib/routebox.js:155-184 | per request at most one callback fires, and the number of writes equals the number of misses |
| Lifecycle.StoreStepKeepsItemsPicked | lib/routebox.js:176-181 | the post-response hook only ever stores items with exactly the four picked keys |
| Lifecycle.ServeKeepsItemsPicked | lib/routebox.js:176-181 | if every stored item has exactly the four picked keys before a request, the same holds after it |
| Lifecycle.ReplayHasNoOutput | lib/routebox.js:137-141 | with picked items and a `reply()` response without `output`, the replayed response has no truthy `output` |
| Lifecycle.NoPolicyNoEffect | lib/routebox.js:109-162 | a route without settings runs its handler, sends its response unchanged, fires nothing and writes nothing |
| Lifecycle.ReadErrorFailsOpen | lib/routebox.js:126-133 | a backend read error never fails the request: the handler runs and its response is sent unchanged, unless the post-response hook throws on that response's hit header |
| Lifecycle.NocacheSuppressesStore | lib/routebox.js:151-162 | when the handler calls `nocache`, nothing is written and no callback fires, whatever the response |
| Lifecycle.HitNotRestored | lib/routebox.js:164-168 | a replayed hit without a truthy `output` is reported through `onCacheHit` alone and the backend is left unchanged |
| Lifecycle.WriteOnlyForListedMiss | lib/routebox.js:159-181 | with picked items stored, a write happens only for a handler-produced response with no `nocache`, no hit header and a listed status |
| Lifecycle.UnlistedStatusNotStored | lib/routebox.js:170-173 | a handler response with an unlisted status is not written and fires no miss callback |
| Lifecycle.UncacheableRouteAlwaysRunsHandler | test/routebox.test.js:109-130 | in any run of requests to routes without settings, every request runs its handler, sends exactly its response and leaves backend and log untouched |
| Lifecycle.PrivateRouteNeverCached | lib/routebox.js:56-57 | in any run of requests to routes whose privacy is set and not `public`, every request runs its handler and none writes or fires a callback |
| Lifecycle.OtherClientsUntouched | lib/routebox.js:176-181 | a request changes no entry of a catbox client other than the one its route's settings name |
| Lifecycle.DistinctClientsDoNotShare | lib/routebox.js:120-126 | after a request to a route on one client, a request to a route on another client that would have missed still misses and runs its handler |
| Lifecycle.MissStoresOnce | lib/routebox.js:175-183 | a storable miss sends the handler's response, writes the picked item once under the request's key, and fires `onCacheMiss` once |
| Lifecycle.StoredIsReplayed | lib/routebox.js:135-144 | once a response with object headers is stored as a picked item, and `reply()` gives a response without a truthy `output`, the request is served without its handler: status, source and variety come from the stored response, its headers gain the hit header, and one hit is reported |
| Lifecycle.MissThenHit | test/routebox.test.js:227-262 | two requests in a row that select the same attributes: the first runs its handler and sends its response, the second skips its handler and replays the first's status and body; the pair's log has one miss, one hit and one write |

## Left out

- Hapi wiring (`server.ext`, `server.decorate`, `reply`, `reply.continue`, `server.cache`) is reduced to the decision each hook makes. What a user callback does after being called is framework I/O.
- Joi validation of the options (lib/routebox.js:9-24, 46) is reduced to the typed option record. An invalid configuration is a startup error outside the request path.
- Logging through `logError` (lib/routebox.js:80-84) is left out. A failed read or write is modelled only by its effect: fail open, or no change to the backend.
- Catbox expiry and the TTL clock are left out. `ttl()` is an opaque number stored with the item, so the TTL-expiry test is not modelled.
- The hash algorithms of `es-hash` are left out. The hash is a function parameter, and injectivity is assumed only where a lemma says so.
- Named catbox clients are told apart by name only. Their engines, partitions and connection state are not modelled.
- The backend stores items verbatim. Catbox's default memory engine stores them as JSON, so keys whose value is `undefined` are dropped and non-JSON values change. One example is the `source` and `variety` that `pick` copies from a Boom `output`. For such items the real replay keeps the `reply()` response's own values. `Lifecycle.StoredIsReplayed` and `Lifecycle.MissThenHit` say "from the stored response" in terms of this verbatim store.
- Concurrency between requests racing on one key is left out. Requests are served one after another.
- Authentication bypass and `pluginCache` / `cache-control` handling are left out, because the plugin code does not implement them.
- Route config values of the wrong shape are not modelled, e.g. `parse: false` or an explicit `null` (which Hoek ignores). Overrides are typed, with absent keys as `None`.
- Numbers are integers (no NaN or fractions), and JavaScript arrays are not values in the model. `statuses` is always an array because hapi supplies a default, so an absent `statuses` (a TypeError in `indexOf`) is not modelled.
- What hapi does after a thrown TypeError is framework behaviour. A TypeError comes from stamping the hit header on a non-object `headers`, or from reading the hit header of `undefined` or `null`. The model stops there: either throw makes the request `Aborted`, with the backend unchanged and no callback fired. What error response hapi then sends is not modelled.
- Lifecycle.WriteOnlyForListedMiss: assumes every stored item has exactly the four picked keys and that `reply()` yields a response without a truthy `output`. Otherwise the post-response hook reads the hit header from `output.headers`, and a replayed hit could be written back.
- Lifecycle.HitNotRestored: assumes the replayed response has no truthy `output`. hapi's `reply()` response has none, and the plugin stores only picked items, which never carry one. Otherwise the post-response hook reads the hit header from `output.headers`.
- Lifecycle.StoredIsReplayed: assumes every stored item has exactly the four picked keys, the stored `headers` is an object, and `reply()` yields a response without a truthy `output`. The plugin stores only picked items, and hapi's `reply()` response has no `output`. Without these assumptions the replay throws, or goes unrecognised as a hit.
- Lifecycle.MissThenHit: assumes the same two conditions, plus an object-valued `headers` on the first response. Without them the replay throws or goes unrecognised.
