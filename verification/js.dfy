/**
 * The slice of JavaScript value semantics the plugin relies on: plain objects
 * as string-keyed maps, truthiness (`!x`, `a && b`, `a || b`), property reads
 * that throw on `undefined`/`null`, and the `pick` / key-copy helpers used to
 * store a response and to replay it.
 */
module Js {

  datatype Option<+T> = None | Some(value: T)

  /** A JavaScript value, as far as the plugin ever looks into one.
      Numbers are integers: the plugin only compares status codes and
      digests, never fractional values. */
  datatype Value =
    | Undefined
    | Null
    | Bool(b: bool)
    | Num(n: int)
    | Str(s: string)
    | Obj(fields: map<string, Value>)

  /** A plain object: its own enumerable keys and their values. */
  type Object = map<string, Value>

  /** JavaScript truthiness (`!!v`); NaN never arises in the model. */
  predicate Truthy(v: Value)
  {
    match v
    case Undefined => false
    case Null => false
    case Bool(b) => b
    case Num(n) => n != 0
    case Str(s) => s != ""
    case Obj(_) => true
  }

  /** `o[k]` on a plain object: a missing key reads as `undefined`. */
  function Get(o: Object, k: string): (v: Value)
    ensures k !in o ==> v == Undefined
    ensures k in o ==> v == o[k]
  {
    if k in o then o[k] else Undefined
  }

  /** The own properties of any value: an object's fields; a primitive has none. */
  function Fields(v: Value): Object
  {
    if v.Obj? then v.fields else map[]
  }

  /** `v[k]` as an expression: `None` when it throws a TypeError
      (reading a property of `undefined` or `null`). */
  function Prop(v: Value, k: string): (r: Option<Value>)
    ensures r.None? <==> v == Undefined || v == Null
    ensures r.Some? ==> r.value == Get(Fields(v), k)
  {
    match v
    case Undefined => None
    case Null => None
    case _ => Some(Get(Fields(v), k))
  }

  /** The set of keys listed in a sequence. */
  function KeySet(keys: seq<string>): set<string>
  {
    set i | 0 <= i < |keys| :: keys[i]
  }

  /** `pick(object, keys)`: a fresh object that has exactly the listed keys,
      each bound to the source's value for it (`undefined` when the source
      lacks it). Built the way `keys.forEach` builds it, key by key. */
  function Pick(o: Object, keys: seq<string>): (r: Object)
    ensures r.Keys == KeySet(keys)
    ensures forall k :: k in r ==> r[k] == Get(o, k)
  {
    if |keys| == 0 then map[]
    else
      var init := keys[..|keys| - 1];
      assert KeySet(keys) == KeySet(init) + {keys[|keys| - 1]} by {
        assert forall i :: 0 <= i < |init| ==> init[i] == keys[i];
      }
      Pick(o, init)[keys[|keys| - 1] := Get(o, keys[|keys| - 1])]
  }

  /** The object after `Object.keys(src).forEach(k => target[k] = src[k])`:
      a key is present when either object has it, and reading any key gives
      `src`'s value when `src` has the key and `target`'s reading otherwise. */
  function Overlay(target: Object, src: Object): (r: Object)
    ensures forall k :: k in r <==> k in src || k in target
    ensures forall k :: Get(r, k) == (if k in src then src[k] else Get(target, k))
  {
    target + src
  }

  /** The copy loop itself, one key at a time in an arbitrary key order;
      whatever order it visits the keys in, it ends at `Overlay(target, src)`. */
  method AssignEach(target: Object, src: Object) returns (r: Object)
    ensures r == Overlay(target, src)
  {
    r := target;
    var todo := src.Keys;
    while todo != {}
      invariant todo <= src.Keys
      invariant r.Keys == target.Keys + (src.Keys - todo)
      invariant forall k :: k in src.Keys - todo ==> r[k] == src[k]
      invariant forall k :: k in target && k !in src.Keys - todo ==> r[k] == target[k]
      decreases todo
    {
      var k :| k in todo;
      r := r[k := src[k]];
      todo := todo - {k};
    }
  }
}
