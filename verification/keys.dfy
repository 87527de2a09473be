/**
 * Cache-key derivation: the composite object hashed into an ident, gated by
 * the `parse` flags, and `buildCacheKey`, which turns the ident into the
 * backend's `{id, segment}` key via `String(ident)`.
 */
module Keys {
  import opened Js
  import opened Policy

  /** The request attributes the plugin reads. `path` is the concrete request
      path (`req.path`), not the route template. */
  datatype Request = Request(httpMethod: string, query: Object, path: string, route: Route)

  /** A digest as the hashing library returns it: a number (djb2) or a hex string. */
  datatype Ident = NumIdent(n: int) | StrIdent(s: string)

  /** The hashing library, `hash(value, algorithm)`; supplied from outside the model. */
  type Hasher = (Value, string) -> Ident

  /** `flag && value`: the value when the flag is set, otherwise `false`. */
  function Gate(flag: bool, v: Value): Value
  {
    if flag then v else Bool(false)
  }

  /** The object literal `{ method, query, route }` that is hashed. */
  function Composite(p: Parse, req: Request): (v: Value)
    ensures v.Obj? && v.fields.Keys == {"method", "query", "route"}
    ensures v.fields["method"] == (if p.httpMethod then Str(req.httpMethod) else Bool(false))
    ensures v.fields["query"] == (if p.query then Obj(req.query) else Bool(false))
    ensures v.fields["route"] == (if p.route then Str(req.path) else Bool(false))
  {
    Obj(map[
      "method" := Gate(p.httpMethod, Str(req.httpMethod)),
      "query" := Gate(p.query, Obj(req.query)),
      "route" := Gate(p.route, Str(req.path))])
  }

  /** The two requests agree on every attribute the flags select. */
  predicate SameSelected(p: Parse, a: Request, b: Request)
  {
    && (p.httpMethod ==> a.httpMethod == b.httpMethod)
    && (p.query ==> a.query == b.query)
    && (p.route ==> a.path == b.path)
  }

  /** The composite identifies exactly the flags and the selected attributes:
      equal composites mean equal flags and agreement on what they select,
      and conversely. Turning a flag off changes the composite even when the
      attribute it gated is empty. */
  lemma CompositeExact(p1: Parse, p2: Parse, a: Request, b: Request)
    ensures Composite(p1, a) == Composite(p2, b) <==> p1 == p2 && SameSelected(p1, a, b)
  {
    var ca, cb := Composite(p1, a), Composite(p2, b);
    if ca == cb {
      assert ca.fields["method"] == cb.fields["method"];
      assert ca.fields["query"] == cb.fields["query"];
      assert ca.fields["route"] == cb.fields["route"];
    }
  }

  /** Requests that agree on the selected attributes build the same composite. */
  lemma SelectionFixesComposite(p: Parse, a: Request, b: Request)
    requires SameSelected(p, a, b)
    ensures Composite(p, a) == Composite(p, b)
  {
    CompositeExact(p, p, a, b);
  }

  /** The ident of a request under resolved settings: the configured digest of
      the composite, so it depends on the request only through what the
      `parse` flags select. */
  function IdentOf(s: Settings, req: Request, hash: Hasher): (id: Ident)
    ensures forall other :: SameSelected(s.options.parse, req, other) ==>
      hash(Composite(s.options.parse, other), s.options.digest) == id
  {
    assert forall other :: SameSelected(s.options.parse, req, other) ==>
      Composite(s.options.parse, other) == Composite(s.options.parse, req) by {
      forall other | SameSelected(s.options.parse, req, other)
        ensures Composite(s.options.parse, other) == Composite(s.options.parse, req)
      {
        SelectionFixesComposite(s.options.parse, req, other);
      }
    }
    hash(Composite(s.options.parse, req), s.options.digest)
  }

  /** Requests agreeing on the selected attributes get the same ident;
      with a hash that separates composites, disagreeing ones get different idents. */
  lemma IdentDeterminedBySelection(s: Settings, a: Request, b: Request, hash: Hasher)
    ensures SameSelected(s.options.parse, a, b) ==> IdentOf(s, a, hash) == IdentOf(s, b, hash)
    ensures (forall u, v :: hash(u, s.options.digest) == hash(v, s.options.digest) ==> u == v) ==>
      (IdentOf(s, a, hash) == IdentOf(s, b, hash) <==> SameSelected(s.options.parse, a, b))
  {
    CompositeExact(s.options.parse, s.options.parse, a, b);
  }

  // ---- String(ident) ----

  function DigitChar(d: int): char
    requires 0 <= d < 10
  {
    "0123456789"[d]
  }

  function DigitValue(c: char): nat
  {
    if '0' <= c <= '9' then (c as int) - ('0' as int) else 0
  }

  /** Decimal digits of a natural number, without leading zeros. */
  function NatString(n: nat): (s: string)
    ensures |s| > 0
    ensures forall i :: 0 <= i < |s| ==> '0' <= s[i] <= '9'
    decreases n
  {
    if n < 10 then [DigitChar(n)] else NatString(n / 10) + [DigitChar(n % 10)]
  }

  /** The value of a run of decimal digits. */
  function ParseNat(s: string): nat
  {
    if |s| == 0 then 0 else ParseNat(s[..|s| - 1]) * 10 + DigitValue(s[|s| - 1])
  }

  /** `String(n)` for an integer-valued number. */
  function NumberString(n: int): string
  {
    if n < 0 then "-" + NatString(-n) else NatString(n)
  }

  /** Reads back what `NumberString` wrote. */
  function ParseNumber(s: string): int
  {
    if |s| > 0 && s[0] == '-' then -(ParseNat(s[1..]) as int) else ParseNat(s)
  }

  lemma {:induction false} NatStringRoundTrip(n: nat)
    ensures ParseNat(NatString(n)) == n
    decreases n
  {
    if n >= 10 {
      var s := NatString(n);
      var front := NatString(n / 10);
      assert s[..|s| - 1] == front;
      NatStringRoundTrip(n / 10);
      assert DigitValue(s[|s| - 1]) == n % 10;
    } else {
      assert DigitValue(NatString(n)[0]) == n;
    }
  }

  /** `String(n)` loses nothing: the number can be read back from it. */
  lemma NumberStringRoundTrip(n: int)
    ensures ParseNumber(NumberString(n)) == n
  {
    if n < 0 {
      NatStringRoundTrip(-n);
      assert NumberString(n)[1..] == NatString(-n);
    } else {
      NatStringRoundTrip(n);
      assert NatString(n)[0] != '-';
    }
  }

  /** `String(id)` */
  function IdentString(id: Ident): string
  {
    match id
    case NumIdent(n) => NumberString(n)
    case StrIdent(s) => s
  }

  /** The key the backend is addressed with. */
  datatype CacheKey = CacheKey(id: string, segment: string)

  /** `buildCacheKey(id, settings)`. */
  function BuildCacheKey(id: Ident, s: Settings): (k: CacheKey)
    ensures k.segment == s.options.segment
    ensures id.NumIdent? ==> ParseNumber(k.id) == id.n
    ensures id.StrIdent? ==> k.id == id.s
  {
    if id.NumIdent? then
      NumberStringRoundTrip(id.n);
      CacheKey(IdentString(id), s.options.segment)
    else
      CacheKey(IdentString(id), s.options.segment)
  }

  /** Same segment and same kind of digest: two keys coincide exactly when the idents do. */
  lemma CacheKeySeparatesIdents(a: Ident, b: Ident, s: Settings)
    requires a.NumIdent? == b.NumIdent?
    ensures BuildCacheKey(a, s) == BuildCacheKey(b, s) <==> a == b
  {
  }
}
