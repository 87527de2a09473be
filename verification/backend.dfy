/**
 * The cache backends as the plugin uses them: each named catbox client holds
 * a keyed store from `{id, segment}` to stored items, read with `get` and
 * written with `set`. An entry is addressed by the client's name together
 * with the key. Whether a call fails is a parameter; the backend's clock,
 * expiry and TTL arithmetic are not modelled (the TTL is an opaque number
 * stored beside the item).
 */
module Backend {
  import opened Js
  import opened Keys

  datatype Entry = Entry(item: Object, ttl: int)

  /** Where an entry lives: the catbox client the policy's `cache` option names, and the key within it. */
  datatype Address = Address(client: string, key: CacheKey)

  type Store = map<Address, Entry>

  /** What `get(key, (err, cached) => ...)` delivers. */
  datatype ReadResult = ReadError | Miss | Hit(item: Object)

  function Read(store: Store, at: Address, fault: bool): (r: ReadResult)
    ensures r.ReadError? <==> fault
    ensures r.Hit? <==> !fault && at in store
    ensures r.Hit? ==> r.item == store[at].item
  {
    if fault then ReadError
    else if at in store then Hit(store[at].item)
    else Miss
  }

  /** `set(key, item, ttl, logError)`: a failed write is only logged, so it leaves the store as it was. */
  function Write(store: Store, at: Address, item: Object, ttl: int, fault: bool): (r: Store)
    ensures fault ==> r == store
    ensures !fault ==> at in r && r[at] == Entry(item, ttl)
    ensures forall a :: a != at ==> (a in r <==> a in store)
    ensures forall a :: a != at && a in store ==> r[a] == store[a]
  {
    if fault then store else store[at := Entry(item, ttl)]
  }

  /** A successful write is what the next successful read of that address
      returns; reads of other addresses, including the same key on another
      client, see what they saw before. */
  lemma ReadAfterWrite(store: Store, at: Address, other: Address, item: Object, ttl: int)
    ensures Read(Write(store, at, item, ttl, false), at, false) == Hit(item)
    ensures other != at ==> Read(Write(store, at, item, ttl, false), other, false) == Read(store, other, false)
  {
  }
}
