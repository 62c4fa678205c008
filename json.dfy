/** The JavaScript values the handler reads from the store and writes back:
    what JSON.parse produces, plus `undefined`, which appears when a property
    is read that an object does not have. */
module Json {

  datatype Value =
    | Undefined
    | Null
    | Bool(b: bool)
    | Num(n: real)
    | Str(s: string)
    | Arr(items: seq<Value>)
    | Obj(props: seq<Prop>)

  datatype Prop = Prop(key: string, val: Value)

  /** An object's own properties, in property order. */
  type Object = seq<Prop>

  function Keys(o: Object): seq<string>
  {
    if o == [] then [] else [o[0].key] + Keys(o[1..])
  }

  /** A JavaScript object never has two properties with the same name. */
  predicate UniqueKeys(o: Object)
  {
    Distinct(Keys(o))
  }

  predicate Distinct(ks: seq<string>)
  {
    ks == [] || (ks[0] !in ks[1..] && Distinct(ks[1..]))
  }

  /** Property access `o.k` on own properties: the value of the own property
      named k, or `undefined`. Inherited properties are not modelled. */
  function Get(o: Object, k: string): (r: Value)
    ensures k !in Keys(o) ==> r == Undefined
  {
    if o == [] then Undefined
    else if o[0].key == k then o[0].val
    else Get(o[1..], k)
  }

  /** The object literal `{...o, k: v}`: a property k that o already has keeps
      its position and takes the value v; otherwise k is added last. */
  function Set(o: Object, k: string, v: Value): (r: Object)
    ensures Get(r, k) == v
    ensures forall k' :: k' != k ==> Get(r, k') == Get(o, k')
    ensures Keys(r) == if k in Keys(o) then Keys(o) else Keys(o) + [k]
    ensures UniqueKeys(o) ==> UniqueKeys(r)
  {
    if o == [] then [Prop(k, v)]
    else if o[0].key == k then [Prop(k, v)] + o[1..]
    else [o[0]] + Set(o[1..], k, v)
  }

  predicate IsPrimitive(v: Value)
  {
    !v.Arr? && !v.Obj?
  }

  /** Strict equality `a === b`. Two arrays or objects are equal only when they
      are the same reference, and JSON.parse gives every array and object of the
      store its own reference, so distinct places in the store never compare equal. */
  function StrictEq(a: Value, b: Value): (r: bool)
    ensures r <==> IsPrimitive(a) && a == b
  {
    match a
    case Undefined => b.Undefined?
    case Null => b.Null?
    case Bool(x) => b.Bool? && b.b == x
    case Num(x) => b.Num? && b.n == x
    case Str(x) => b.Str? && b.s == x
    case Arr(_) => false
    case Obj(_) => false
  }

  /** A value JSON.parse can produce: `undefined` occurs nowhere in it. */
  predicate IsJson(v: Value)
  {
    match v
    case Undefined => false
    case Arr(items) => forall i :: 0 <= i < |items| ==> IsJson(items[i])
    case Obj(props) => forall i :: 0 <= i < |props| ==> IsJson(props[i].val)
    case _ => true
  }

  /** An object as JSON.parse produces it. */
  predicate WellFormedObject(o: Object)
  {
    UniqueKeys(o) && forall i :: 0 <= i < |o| ==> IsJson(o[i].val)
  }

  /** JSON.stringify leaves out the properties whose value is `undefined`. */
  function DropUndefined(o: Object): (r: Object)
    ensures forall p :: p in r <==> p in o && p.val != Undefined
    ensures forall k :: k in Keys(r) ==> k in Keys(o)
  {
    if o == [] then []
    else if o[0].val == Undefined then DropUndefined(o[1..])
    else [o[0]] + DropUndefined(o[1..])
  }

  /** Inside an array JSON.stringify writes `undefined` as `null`. */
  function InArray(v: Value): Value
  {
    if v == Undefined then Null else v
  }

  /** The JSON value whose text JSON.stringify(v) writes, as `res.json` sends it;
      `undefined` at the top level stands for "nothing written". */
  function Serialize(v: Value): (r: Value)
    ensures r == Undefined <==> v == Undefined
    ensures v != Undefined ==> IsJson(r)
  {
    match v
    case Arr(items) =>
      Arr(seq(|items|, i requires 0 <= i < |items| => InArray(Serialize(items[i]))))
    case Obj(props) =>
      var mapped := seq(|props|, i requires 0 <= i < |props| => Prop(props[i].key, Serialize(props[i].val)));
      assert forall p :: p in mapped && p.val != Undefined ==> IsJson(p.val);
      Obj(DropUndefined(mapped))
    case _ => v
  }

  /** The serialized properties of an object. */
  function SerializeProps(o: Object): Object
  {
    Serialize(Obj(o)).props
  }

  /** A key the object has reads the value of its first property of that name. */
  lemma {:induction false} GetPresent(o: Object, k: string)
    requires k in Keys(o)
    ensures exists i :: 0 <= i < |o| && o[i].key == k && k !in Keys(o[..i]) && Get(o, k) == o[i].val
  {
    if o[0].key == k {
      assert o[..0] == [];
    } else {
      GetPresent(o[1..], k);
      var j :| 0 <= j < |o[1..]| && o[1..][j].key == k && k !in Keys(o[1..][..j]) && Get(o[1..], k) == o[1..][j].val;
      assert o[..j + 1][1..] == o[1..][..j];
      assert Keys(o[..j + 1]) == [o[0].key] + Keys(o[1..][..j]);
    }
  }

  lemma {:induction false} GetInKeys(o: Object, k: string)
    requires forall i :: 0 <= i < |o| ==> o[i].val != Undefined
    ensures k in Keys(o) <==> Get(o, k) != Undefined
  {
    if o != [] {
      GetInKeys(o[1..], k);
    }
  }

  lemma {:induction false} DropUndefinedGet(o: Object, k: string)
    requires UniqueKeys(o)
    ensures UniqueKeys(DropUndefined(o))
    ensures Get(DropUndefined(o), k) == Get(o, k)
  {
    if o != [] {
      DropUndefinedGet(o[1..], k);
    }
  }

  lemma {:induction false} DropUndefinedOfDefined(o: Object)
    requires forall i :: 0 <= i < |o| ==> o[i].val != Undefined
    ensures DropUndefined(o) == o
  {
    if o != [] {
      DropUndefinedOfDefined(o[1..]);
    }
  }

  lemma {:induction false} PointwiseGet(o: Object, m: Object, k: string)
    requires |m| == |o|
    requires forall i :: 0 <= i < |o| ==> m[i] == Prop(o[i].key, Serialize(o[i].val))
    ensures Keys(m) == Keys(o)
    ensures Get(m, k) == Serialize(Get(o, k))
  {
    if o != [] {
      PointwiseGet(o[1..], m[1..], k);
    }
  }

  /** Reading a property of the serialized object gives the serialized property,
      and the property is written exactly when its value is not `undefined`. */
  lemma SerializedGet(o: Object, k: string)
    requires UniqueKeys(o)
    ensures UniqueKeys(SerializeProps(o))
    ensures Get(SerializeProps(o), k) == Serialize(Get(o, k))
    ensures k in Keys(SerializeProps(o)) <==> Get(o, k) != Undefined
  {
    var mapped := seq(|o|, i requires 0 <= i < |o| => Prop(o[i].key, Serialize(o[i].val)));
    PointwiseGet(o, mapped, k);
    DropUndefinedGet(mapped, k);
    var r := DropUndefined(mapped);
    assert SerializeProps(o) == r;
    forall i | 0 <= i < |r| ensures r[i].val != Undefined {
      assert r[i] in r;
    }
    GetInKeys(r, k);
  }

  /** A value that is already JSON survives serialization unchanged. */
  lemma {:induction false} SerializeOfJson(v: Value)
    requires IsJson(v)
    ensures Serialize(v) == v
  {
    match v
    case Arr(items) =>
      forall i | 0 <= i < |items| ensures InArray(Serialize(items[i])) == items[i] {
        SerializeOfJson(items[i]);
      }
    case Obj(props) =>
      var mapped := seq(|props|, i requires 0 <= i < |props| => Prop(props[i].key, Serialize(props[i].val)));
      forall i | 0 <= i < |props| ensures mapped[i] == props[i] {
        SerializeOfJson(props[i].val);
      }
      assert mapped == props;
      DropUndefinedOfDefined(props);
    case _ =>
  }
}
