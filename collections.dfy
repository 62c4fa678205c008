/** The two queries the handler runs over a collection of the store:
    `filter` and `find` with the predicate `x => x.key === v`. */
module Collections {
  import opened Wrappers
  import opened Json

  /** The predicate `x => x.key === v`. */
  predicate Matches(o: Object, key: string, v: Value)
  {
    StrictEq(Get(o, key), v)
  }

  /** `objs.filter(x => x.key === v)`. */
  function Filter(objs: seq<Object>, key: string, v: Value): (r: seq<Object>)
    ensures |r| <= |objs|
    ensures forall o :: o in r <==> o in objs && Matches(o, key, v)
  {
    if objs == [] then []
    else (if Matches(objs[0], key, v) then [objs[0]] else []) + Filter(objs[1..], key, v)
  }

  /** Filtering a concatenation filters each part and keeps them in order; with
      the one-element case (kept exactly when it matches) this determines the
      result as the matching elements in their original order. */
  lemma {:induction false} FilterAppend(a: seq<Object>, b: seq<Object>, key: string, v: Value)
    ensures Filter(a + b, key, v) == Filter(a, key, v) + Filter(b, key, v)
  {
    if a == [] {
      assert a + b == b;
    } else {
      assert (a + b)[1..] == a[1..] + b;
      FilterAppend(a[1..], b, key, v);
    }
  }

  lemma FilterSingleton(o: Object, key: string, v: Value)
    ensures Filter([o], key, v) == if Matches(o, key, v) then [o] else []
  {
    assert [o][1..] == [];
  }

  /** Every element is kept as often as it occurs, when it matches, and never otherwise. */
  lemma {:induction false} FilterCount(objs: seq<Object>, key: string, v: Value, o: Object)
    ensures multiset(Filter(objs, key, v))[o] == if Matches(o, key, v) then multiset(objs)[o] else 0
  {
    if objs != [] {
      assert objs == [objs[0]] + objs[1..];
      FilterCount(objs[1..], key, v, o);
    }
  }

  /** `objs.find(x => x.key === v)`, given as the position of the element found. */
  function Find(objs: seq<Object>, key: string, v: Value): (r: Option<nat>)
    ensures r.Some? ==> r.value < |objs| && Matches(objs[r.value], key, v)
    ensures r.Some? ==> forall j :: 0 <= j < r.value ==> !Matches(objs[j], key, v)
    ensures r.None? ==> forall j :: 0 <= j < |objs| ==> !Matches(objs[j], key, v)
  {
    if objs == [] then None
    else if Matches(objs[0], key, v) then Some(0)
    else match Find(objs[1..], key, v)
      case None => None
      case Some(i) => Some(i + 1)
  }

  /** `find` fails exactly when `filter` is empty, and otherwise yields the
      first element `filter` keeps. */
  lemma {:induction false} FindIsFirstOfFilter(objs: seq<Object>, key: string, v: Value)
    ensures Find(objs, key, v).None? <==> Filter(objs, key, v) == []
    ensures Find(objs, key, v).Some? ==> Filter(objs, key, v)[0] == objs[Find(objs, key, v).value]
  {
    if objs != [] && !Matches(objs[0], key, v) {
      FindIsFirstOfFilter(objs[1..], key, v);
    }
  }
}
