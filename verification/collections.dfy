/**
 * The converter's collection helpers: `flattener` (the reducer that spreads arrays and pushes
 * anything else), `isEmpty`, `objMap`, and the `map` whose callback may throw, which every
 * processor runs over its input lists.
 */
module Collections {
  import opened Wrappers

  // ---------------------------------------------------------------------------------------------
  // flattener

  /** A value handed to `flattener`: an array, whose elements are spread, or a single value. */
  datatype Item<T> = Many(xs: seq<T>) | One(x: T)

  /** `flattener(result, item)`: the elements of an array item, or the item itself, pushed onto `result`. */
  function Flattener<T>(result: seq<T>, item: Item<T>): (r: seq<T>)
    ensures |r| >= |result| && r[..|result|] == result
  {
    match item
    case Many(xs) => result + xs
    case One(x) => result + [x]
  }

  /** `items.reduce(flattener, acc)`. */
  function FlattenFrom<T>(acc: seq<T>, items: seq<Item<T>>): seq<T>
    decreases |items|
  {
    if items == [] then acc else FlattenFrom(Flattener(acc, items[0]), items[1..])
  }

  /** `items.reduce(flattener, [])`. */
  function FlattenItems<T>(items: seq<Item<T>>): seq<T> {
    FlattenFrom([], items)
  }

  /** What one item contributes. */
  function Elements<T>(item: Item<T>): seq<T> {
    match item
    case Many(xs) => xs
    case One(x) => [x]
  }

  /** The elements of every item, item by item: the reference reading of a flattening. */
  function Concat<T>(items: seq<Item<T>>): seq<T> {
    if items == [] then [] else Elements(items[0]) + Concat(items[1..])
  }

  lemma {:induction false} ConcatAppend<T>(a: seq<Item<T>>, b: seq<Item<T>>)
    ensures Concat(a + b) == Concat(a) + Concat(b)
    decreases |a|
  {
    if a == [] {
      assert a + b == b;
    } else {
      assert (a + b)[1..] == a[1..] + b;
      ConcatAppend(a[1..], b);
    }
  }

  /** Reducing with `flattener` appends the items' elements in order, one level deep. */
  lemma {:induction false} FlattenFromConcat<T>(acc: seq<T>, items: seq<Item<T>>)
    ensures FlattenFrom(acc, items) == acc + Concat(items)
    decreases |items|
  {
    if items != [] {
      FlattenFromConcat(Flattener(acc, items[0]), items[1..]);
    }
  }

  lemma FlattenItemsConcat<T>(items: seq<Item<T>>)
    ensures FlattenItems(items) == Concat(items)
  {
    FlattenFromConcat([], items);
  }

  /** Flattening two lists of items is flattening each and concatenating. */
  lemma FlattenItemsAppend<T>(a: seq<Item<T>>, b: seq<Item<T>>)
    ensures FlattenItems(a + b) == FlattenItems(a) + FlattenItems(b)
  {
    FlattenItemsConcat(a + b);
    FlattenItemsConcat(a);
    FlattenItemsConcat(b);
    ConcatAppend(a, b);
  }

  // ---------------------------------------------------------------------------------------------
  // map with a throwing callback

  /** `xs.map(f)` where `f` may throw: the first element that throws ends the map with its error. */
  function MapResult<X, Y>(f: X -> Result<Y>, xs: seq<X>): (r: Result<seq<Y>>)
    ensures r.Ok? ==> |r.value| == |xs|
  {
    if xs == [] then Ok([])
    else if f(xs[0]).Err? then Err(f(xs[0]).message)
    else
      var tail := MapResult(f, xs[1..]);
      if tail.Err? then Err(tail.message) else Ok([f(xs[0]).value] + tail.value)
  }

  /** A map that succeeds holds, at each index, the callback's value for that element. */
  lemma {:induction false} MapResultAt<X, Y>(f: X -> Result<Y>, xs: seq<X>, i: nat)
    requires MapResult(f, xs).Ok? && i < |xs|
    ensures f(xs[i]).Ok? && MapResult(f, xs).value[i] == f(xs[i]).value
    decreases i
  {
    if i > 0 {
      MapResultAt(f, xs[1..], i - 1);
    }
  }

  /**
   * A map fails exactly when the callback throws for some element, and then with the error of
   * the first such element.
   */
  lemma {:induction false} MapResultFails<X, Y>(f: X -> Result<Y>, xs: seq<X>)
    ensures MapResult(f, xs).Err? <==> exists i :: 0 <= i < |xs| && f(xs[i]).Err?
    ensures MapResult(f, xs).Err? ==>
      exists i :: 0 <= i < |xs| && f(xs[i]).Err? && MapResult(f, xs).message == f(xs[i]).message
        && forall j :: 0 <= j < i ==> f(xs[j]).Ok?
    decreases |xs|
  {
    if xs != [] && f(xs[0]).Ok? {
      MapResultFails(f, xs[1..]);
      forall i | 1 <= i < |xs| ensures xs[i] == xs[1..][i - 1] {}
      if MapResult(f, xs).Err? {
        var i :| 0 <= i < |xs[1..]| && f(xs[1..][i]).Err? && MapResult(f, xs[1..]).message == f(xs[1..][i]).message
          && forall j :: 0 <= j < i ==> f(xs[1..][j]).Ok?;
        assert f(xs[i + 1]).Err?;
        forall j | 0 <= j < i + 1 ensures f(xs[j]).Ok? {
          if j > 0 {
            assert f(xs[1..][j - 1]).Ok?;
          }
        }
      }
    }
  }

  /** Mapping two lists that both succeed is mapping each and concatenating. */
  lemma {:induction false} MapResultAppend<X, Y>(f: X -> Result<Y>, a: seq<X>, b: seq<X>)
    requires MapResult(f, a).Ok? && MapResult(f, b).Ok?
    ensures MapResult(f, a + b).Ok? && MapResult(f, a + b).value == MapResult(f, a).value + MapResult(f, b).value
    decreases |a|
  {
    if a == [] {
      assert a + b == b;
    } else {
      assert (a + b)[0] == a[0] && (a + b)[1..] == a[1..] + b;
      MapResultAppend(f, a[1..], b);
    }
  }

  /** After a prefix whose elements all map, a map fails at the element that follows it. */
  lemma {:induction false} MapResultPrefixOk<X, Y>(f: X -> Result<Y>, pre: seq<X>, rest: seq<X>)
    requires forall u :: u in pre ==> f(u).Ok?
    requires rest != [] && f(rest[0]).Err?
    ensures MapResult(f, pre + rest).Err? && MapResult(f, pre + rest).message == f(rest[0]).message
    decreases |pre|
  {
    if pre == [] {
      assert pre + rest == rest;
    } else {
      assert (pre + rest)[0] == pre[0] && (pre + rest)[1..] == pre[1..] + rest;
      MapResultPrefixOk(f, pre[1..], rest);
    }
  }

  /**
   * A map that has succeeded on a prefix goes on with the next element: it extends by that
   * element's value, or the whole map fails with that element's error.
   */
  lemma MapResultStep<X, Y>(f: X -> Result<Y>, xs: seq<X>, i: nat)
    requires i < |xs| && MapResult(f, xs[..i]).Ok?
    ensures f(xs[i]).Ok? ==>
      (MapResult(f, xs[..i + 1]).Ok? && MapResult(f, xs[..i + 1]).value == MapResult(f, xs[..i]).value + [f(xs[i]).value])
    ensures f(xs[i]).Err? ==> MapResult(f, xs).Err? && MapResult(f, xs).message == f(xs[i]).message
  {
    assert xs[..i + 1] == xs[..i] + [xs[i]];
    if f(xs[i]).Ok? {
      MapResultOne(f, xs[i]);
      MapResultAppend(f, xs[..i], [xs[i]]);
    } else {
      MapResultFails(f, xs[..i]);
      assert xs == xs[..i] + xs[i..];
      MapResultPrefixOk(f, xs[..i], xs[i..]);
    }
  }

  /** A map over one element is that element's result. */
  lemma MapResultOne<X, Y>(f: X -> Result<Y>, x: X)
    ensures f(x).Ok? ==> MapResult(f, [x]).Ok? && MapResult(f, [x]).value == [f(x).value]
    ensures f(x).Err? ==> MapResult(f, [x]).Err? && MapResult(f, [x]).message == f(x).message
  {
    assert [x][1..] == [];
  }

  lemma FlattenOne<T>(xs: seq<T>)
    ensures FlattenItems([Many(xs)]) == xs
  {
    FlattenItemsConcat([Many(xs)]);
    assert [Many(xs)][1..] == [];
  }

  // ---------------------------------------------------------------------------------------------
  // isEmpty and objMap

  /** The shape of a value as `isEmpty` inspects it. */
  datatype Shape =
    | Absent                        // null or undefined
    | ArrayOf(length: nat)
    | StringOf(s: string)
    | ObjectWith(keys: seq<string>) // an object, by its own enumerable keys
    | Scalar                        // a number or a boolean: it has no own keys

  /** `isEmpty`: absent, or no elements, characters or keys. */
  predicate IsEmpty(v: Shape) {
    match v
    case Absent => true
    case ArrayOf(n) => n == 0
    case StringOf(s) => |s| == 0
    case ObjectWith(keys) => |keys| == 0
    case Scalar => true
  }

  /** Only values that hold something are non-empty; an object is empty exactly when it has no keys. */
  lemma IsEmptyIff(v: Shape)
    ensures !IsEmpty(v) <==> (v.ArrayOf? && v.length > 0) || (v.StringOf? && v.s != []) || (v.ObjectWith? && v.keys != [])
  {
  }

  /** `objMap(obj, f)`: `f(value, key)` for each property, in property order. */
  function ObjMap<V, U>(obj: seq<(string, V)>, f: (V, string) -> U): (r: seq<U>)
    ensures |r| == |obj|
  {
    if obj == [] then [] else [f(obj[0].1, obj[0].0)] + ObjMap(obj[1..], f)
  }

  /** `Object.keys(obj)`. */
  function Keys<V>(obj: seq<(string, V)>): (r: seq<string>)
    ensures |r| == |obj| && forall i :: 0 <= i < |obj| ==> r[i] == obj[i].0
  {
    seq(|obj|, i requires 0 <= i < |obj| => obj[i].0)
  }

  /** The `i`-th result is the callback applied to the `i`-th property's value and key. */
  lemma {:induction false} ObjMapAt<V, U>(obj: seq<(string, V)>, f: (V, string) -> U, i: nat)
    requires i < |obj|
    ensures ObjMap(obj, f)[i] == f(obj[i].1, obj[i].0)
    decreases i
  {
    if i > 0 {
      ObjMapAt(obj[1..], f, i - 1);
    }
  }
}
