/**
 The JavaScript values the Ripple strategy reads and writes: option records,
 header maps, request options and parsed profile bodies.

 An object's own properties are a map from key to value together with the
 order in which the keys were added (the order a JavaScript engine
 enumerates string keys that are not array indices), so that both "what a key maps to" and "in which
 order the keys come" can be stated. Property access only covers plain named
 keys (not array indices, not `length`, not inherited names), which are the
 only keys the strategy uses.
 */
module JsValues {

  datatype JsValue =
    | Undefined
    | Null
    | Bool(b: bool)
    | Num(n: real)
    | Str(s: string)
    | Arr(items: seq<JsValue>, props: Props)
    | Obj(props: Props)

  /** Own named properties: their values, and their keys in insertion order. */
  datatype Props = Props(order: seq<string>, values: map<string, JsValue>)

  const EmptyProps := Props([], map[])

  /** Every key is listed once in `order`, and `order` lists exactly the keys that have values. */
  ghost predicate WellFormed(p: Props) {
    && (forall i, j :: 0 <= i < j < |p.order| ==> p.order[i] != p.order[j])
    && (forall k :: k in p.order <==> k in p.values)
  }

  /** JavaScript truthiness: `undefined`, `null`, `false`, `0` and `""` are falsy. */
  predicate Truthy(v: JsValue) {
    match v
    case Undefined => false
    case Null => false
    case Bool(b) => b
    case Num(n) => n != 0.0
    case Str(s) => s != ""
    case Arr(_, _) => true
    case Obj(_) => true
  }

  /** Values on which reading or writing a property throws a TypeError. */
  predicate Nullish(v: JsValue) {
    v.Undefined? || v.Null?
  }

  /** Values that carry own named properties. */
  predicate ObjectLike(v: JsValue) {
    v.Arr? || v.Obj?
  }

  /** The value of `a || b`. */
  function Or(a: JsValue, b: JsValue): (r: JsValue)
  {
    if Truthy(a) then a else b
  }

  predicate Has(p: Props, k: string) {
    k in p.values
  }

  /** `o[k]`: the own value of `k`, or `undefined` when there is none. */
  function Get(p: Props, k: string): JsValue {
    if k in p.values then p.values[k] else Undefined
  }

  /**
   `o[k] = v`: an existing key keeps its place and takes the new value; a new
   key goes last.
   */
  function Set(p: Props, k: string, v: JsValue): (r: Props)
    ensures Has(r, k) && Get(r, k) == v
  {
    Props(if k in p.values then p.order else p.order + [k], p.values[k := v])
  }

  /** A write touches no other key. */
  lemma SetFrame(p: Props, k: string, v: JsValue)
    ensures forall k' :: k' != k ==> Get(Set(p, k, v), k') == Get(p, k') && (Has(Set(p, k, v), k') <==> Has(p, k'))
  {
  }

  /** A write keeps the properties well formed; only a new key changes the order, by going last. */
  lemma SetOrder(p: Props, k: string, v: JsValue)
    requires WellFormed(p)
    ensures WellFormed(Set(p, k, v))
    ensures Set(p, k, v).order == if Has(p, k) then p.order else p.order + [k]
  {
  }

  /** Writing the value a present key already has changes nothing. */
  lemma SetUnchanged(p: Props, k: string)
    requires Has(p, k)
    ensures Set(p, k, Get(p, k)) == p
  {
    assert p.values[k := Get(p, k)] == p.values;
  }

  /** `v[k]` for a value that is neither `null` nor `undefined`. A primitive has no own named properties. */
  function GetNamed(target: JsValue, k: string): JsValue
    requires !Nullish(target)
  {
    match target
    case Obj(p) => Get(p, k)
    case Arr(_, p) => Get(p, k)
    case _ => Undefined
  }

  /** The own named keys of a value, in order; a primitive has none. */
  function OwnKeys(v: JsValue): seq<string> {
    match v
    case Obj(p) => p.order
    case Arr(_, p) => p.order
    case _ => []
  }

  /** An object or array whose own properties are well formed, or a primitive. */
  ghost predicate WellFormedValue(v: JsValue) {
    ObjectLike(v) ==> WellFormed(v.props)
  }

  /**
   `target[k] = v` outside strict mode, for a target that is neither `null`
   nor `undefined`: an object or array gains or overwrites the property, and
   the write to a primitive is silently dropped.
   */
  function SetNamed(target: JsValue, k: string, v: JsValue): (r: JsValue)
    requires !Nullish(target)
    ensures !Nullish(r) && r.Obj? == target.Obj? && r.Arr? == target.Arr?
    ensures target.Arr? ==> r.items == target.items
    ensures ObjectLike(target) ==> GetNamed(r, k) == v
    ensures !ObjectLike(target) ==> r == target
  {
    match target
    case Obj(p) => Obj(Set(p, k, v))
    case Arr(items, p) => Arr(items, Set(p, k, v))
    case _ => target
  }

  /** A named write touches no other key. */
  lemma SetNamedFrame(target: JsValue, k: string, v: JsValue)
    requires !Nullish(target)
    ensures forall k' :: k' != k ==> GetNamed(SetNamed(target, k, v), k') == GetNamed(target, k')
  {
  }

  /** A named write keeps an object's properties well formed, and a new key goes last. */
  lemma SetNamedOrder(target: JsValue, k: string, v: JsValue)
    requires !Nullish(target)
    ensures WellFormedValue(target) ==> WellFormedValue(SetNamed(target, k, v))
    ensures WellFormedValue(target) && ObjectLike(target) ==>
      OwnKeys(SetNamed(target, k, v)) == if k in OwnKeys(target) then OwnKeys(target) else OwnKeys(target) + [k]
  {
    if ObjectLike(target) && WellFormed(target.props) {
      SetOrder(target.props, k, v);
    }
  }
}
