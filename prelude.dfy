/**
 * The stateable helpers of pitest's functional Prelude: combinators that
 * return function objects (identity, singleton lists, string joining, the
 * null / equality / greater-than predicates) and the side-effect objects
 * that write into a collection or a map the caller holds by reference.
 *
 * A Java function object `F<A, B>` becomes a Dafny arrow `A -> B`; a
 * `Predicate<T>` that can throw becomes an arrow into `Result<bool>`.
 */
module Prelude {

  /** A Java reference: either null or a reference to a value. */
  datatype Nullable<T> = Null | Ref(value: T)

  /** The exception raised by calling a method on a null reference. */
  datatype Exception = NullPointerException

  /** What a Java call hands back: a value, or the exception it throws. */
  datatype Result<T> = Success(value: T) | Failure(error: Exception)

  /** A `Class<A>` token, used only to fix the type of the typed overloads. */
  datatype ClassToken = ClassToken(name: string)

  // ---------------------------------------------------------------------
  // Pure combinators
  // ---------------------------------------------------------------------

  /** `concatenateWith(separator)`: joins two strings with the separator between them. */
  function ConcatenateWith(separator: string): (f: (string, string) -> string)
    ensures forall a, b ::
              && |f(a, b)| == |a| + |separator| + |b|
              && f(a, b)[..|a|] == a
              && f(a, b)[|a|..|a| + |separator|] == separator
              && f(a, b)[|a| + |separator|..] == b
  {
    (a: string, b: string) => a + separator + b
  }

  /** `id()`: the function that returns its argument. */
  function Id<A(!new)>(): (f: A -> A)
    ensures forall a :: f(a) == a
  {
    a => a
  }

  /** `id(type)`: the typed overload, which is `id()` itself. */
  function IdOf<A(!new)>(token: ClassToken): (f: A -> A)
    ensures forall a :: f(a) == Id<A>()(a)
  {
    Id()
  }

  /** `toSingletonList()`: wraps a value in a list of exactly that one element. */
  function ToSingletonList<A(!new)>(): (f: A -> seq<A>)
    ensures forall a :: |f(a)| == 1 && f(a)[0] == a
  {
    a => [a]
  }

  /** `toSingletonList(type)`: the typed overload, which is `toSingletonList()` itself. */
  function ToSingletonListOf<A(!new)>(token: ClassToken): (f: A -> seq<A>)
    ensures forall a :: f(a) == ToSingletonList<A>()(a)
  {
    ToSingletonList()
  }

  /** `Number.longValue()` of an integral number: its low 64 bits read as a two's-complement
    * `long`. A value already in the `long` range is returned unchanged; a wider one
    * (a `BigInteger`) wraps around. */
  function LongValue(x: int): (r: int)
    ensures -0x8000_0000_0000_0000 <= r < 0x8000_0000_0000_0000
    ensures (x - r) % 0x1_0000_0000_0000_0000 == 0
  {
    (x + 0x8000_0000_0000_0000) % 0x1_0000_0000_0000_0000 - 0x8000_0000_0000_0000
  }

  /** On the `long` range, `longValue()` is the identity. */
  lemma LongValueInRange(x: int)
    requires -0x8000_0000_0000_0000 <= x < 0x8000_0000_0000_0000
    ensures LongValue(x) == x
  {
    assert 0 <= x + 0x8000_0000_0000_0000 < 0x1_0000_0000_0000_0000;
  }

  /** `isGreaterThan(value)` on integral numbers: `o.longValue() > value.longValue()`,
    * which dereferences both `o` and `value`. */
  function IsGreaterThan(value: Nullable<int>): (p: Nullable<int> -> Result<bool>)
    ensures forall o: Nullable<int> :: p(o).Failure? <==> (o.Null? || value.Null?)
    ensures forall o: Nullable<int> :: o.Ref? && value.Ref? ==>
              p(o).Success? && (p(o).value <==> LongValue(o.value) > LongValue(value.value))
  {
    (o: Nullable<int>) => if o.Null? || value.Null? then Failure(NullPointerException)
         else Success(LongValue(o.value) > LongValue(value.value))
  }

  /** For numbers in the `long` range (`Byte`, `Short`, `Integer`, `Long`, and `BigInteger`
    * values that fit), `isGreaterThan(value)` holds of `o` exactly when o > value. */
  lemma IsGreaterThanOnLongs(o: int, value: int)
    requires -0x8000_0000_0000_0000 <= o < 0x8000_0000_0000_0000
    requires -0x8000_0000_0000_0000 <= value < 0x8000_0000_0000_0000
    ensures IsGreaterThan(Ref(value))(Ref(o)) == Success(o > value)
  {
    LongValueInRange(o);
    LongValueInRange(value);
  }

  /** Outside the `long` range the comparison is on the wrapped values: 2^64 reads as 0
    * and 2^63 as -2^63, so neither is greater than 0. */
  lemma IsGreaterThanWraps()
    ensures IsGreaterThan(Ref(0))(Ref(0x1_0000_0000_0000_0000)) == Success(false)
    ensures IsGreaterThan(Ref(0))(Ref(0x8000_0000_0000_0000)) == Success(false)
  {
    assert LongValue(0x1_0000_0000_0000_0000) == 0;
    assert LongValue(0x8000_0000_0000_0000) == -0x8000_0000_0000_0000;
    assert LongValue(0) == 0;
  }

  /** `isEqualTo(value)`: `o.equals(value)`, which dereferences `o` but not `value`;
    * Java `equals` is taken to be value equality. */
  function IsEqualTo<T(==,!new)>(value: Nullable<T>): (p: Nullable<T> -> Result<bool>)
    ensures forall o: Nullable<T> :: p(o).Failure? <==> o.Null?
    ensures forall o: Nullable<T> :: o.Ref? ==> p(o).Success? && (p(o).value <==> o == value)
  {
    (o: Nullable<T>) => if o.Null? then Failure(NullPointerException) else Success(o == value)
  }

  /** `isNotNull()`: holds exactly of non-null references. */
  function IsNotNull<T(!new)>(): (p: Nullable<T> -> bool)
    ensures forall o: Nullable<T> :: p(o) <==> o.Ref?
  {
    (o: Nullable<T>) => o.Ref?
  }

  /** `isNull()`: holds exactly of the null reference. */
  function IsNull<T(!new)>(): (p: Nullable<T> -> bool)
    ensures forall o: Nullable<T> :: p(o) <==> o.Null?
  {
    (o: Nullable<T>) => o.Null?
  }

  /** `isNull()` and `isNotNull()` are complements: of every reference exactly one holds. */
  lemma NullPredicatesComplement<T(!new)>(o: Nullable<T>)
    ensures IsNull<T>()(o) != IsNotNull<T>()(o)
  {
  }

  // ---------------------------------------------------------------------
  // Side effects on collections and maps held by reference
  // ---------------------------------------------------------------------

  /** A Java list the caller owns; its state is its elements in order. */
  class ListCollection<A> {
    var elements: seq<A>

    constructor ()
      ensures elements == []
    {
      elements := [];
    }

    /** `Collection.add` on a list: append at the end. */
    method Add(a: A)
      modifies this
      ensures elements == old(elements) + [a]
    {
      elements := elements + [a];
    }
  }

  /** The side effect `accumulateTo(collection)` returns. It keeps a reference to the
    * caller's collection, so every application is visible to the caller. */
  class Accumulator<A> {
    const collection: ListCollection<A>

    constructor (collection: ListCollection<A>)
      ensures this.collection == collection
    {
      this.collection := collection;
    }

    /** `apply(a)`: adds `a` to the collection; earlier elements are kept in place. */
    method Apply(a: A)
      modifies collection
      ensures collection.elements == old(collection.elements) + [a]
    {
      collection.Add(a);
    }
  }

  /** `accumulateTo(collection)`: a new side effect bound to the given collection. */
  method AccumulateTo<A>(collection: ListCollection<A>) returns (effect: Accumulator<A>)
    ensures fresh(effect) && effect.collection == collection
  {
    effect := new Accumulator(collection);
  }

  /** The binding `Map.put(key, value)` leaves: `key` bound to `value`, every other
    * binding as it was. */
  function Updated<K, V>(m: map<K, V>, key: K, value: V): (r: map<K, V>)
    ensures r.Keys == m.Keys + {key}
    ensures r[key] == value
    ensures forall k :: k in m && k != key ==> r[k] == m[k]
  {
    m[key := value]
  }

  /** A Java map the caller owns; its state is its set of bindings. */
  class JavaMap<K(==), V> {
    var entries: map<K, V>

    constructor ()
      ensures entries == map[]
    {
      entries := map[];
    }

    /** `Map.put(key, value)`. */
    method Put(key: K, value: V)
      modifies this
      ensures entries == Updated(old(entries), key, value)
    {
      entries := entries[key := value];
    }
  }

  /** The side effect `putToMap(map, value)` returns: binds each key it is applied to
    * to the one fixed value. */
  class PutValue<K(==), V> {
    const target: JavaMap<K, V>
    const value: V

    constructor (target: JavaMap<K, V>, value: V)
      ensures this.target == target && this.value == value
    {
      this.target := target;
      this.value := value;
    }

    /** `apply(key)`: `target[key] = value`; no other key changes. */
    method Apply(key: K)
      modifies target
      ensures target.entries == Updated(old(target.entries), key, value)
    {
      target.Put(key, value);
    }
  }

  /** `putToMap(map, value)`: a new side effect bound to the map and the value. */
  method PutToMap<K(==), V>(target: JavaMap<K, V>, value: V) returns (effect: PutValue<K, V>)
    ensures fresh(effect) && effect.target == target && effect.value == value
  {
    effect := new PutValue(target, value);
  }

  /** The side effect `putToMap(map, f)` returns: binds each key it is applied to
    * to `f` of that key. */
  class PutComputed<K(==), V> {
    const target: JavaMap<K, V>
    const f: K -> V

    constructor (target: JavaMap<K, V>, f: K -> V)
      ensures this.target == target && this.f == f
    {
      this.target := target;
      this.f := f;
    }

    /** `apply(key)`: `target[key] = f(key)`; no other key changes. */
    method Apply(key: K)
      modifies target
      ensures target.entries == Updated(old(target.entries), key, f(key))
    {
      target.Put(key, f(key));
    }
  }

  /** `putToMap(map, f)`: a new side effect bound to the map and the function. */
  method PutToMapWith<K(==), V>(target: JavaMap<K, V>, f: K -> V) returns (effect: PutComputed<K, V>)
    ensures fresh(effect) && effect.target == target && effect.f == f
  {
    effect := new PutComputed(target, f);
  }

  /** The fold of `Updated(_, k, f(k))` over `keys`, starting from `m`: the step
    * `PutComputed.Apply` takes for one key, taken for each key in turn. */
  function UpdatedAll<K, V>(m: map<K, V>, keys: seq<K>, f: K -> V): map<K, V>
    decreases |keys|
  {
    if keys == [] then m else UpdatedAll(Updated(m, keys[0], f(keys[0])), keys[1..], f)
  }

  /** In the fold of `Updated(_, k, f(k))` over `keys`, every key of `keys` is bound to
    * `f` of itself, every other key keeps its old binding, and nothing else is bound. */
  lemma {:induction false} UpdatedAllBindsEachKey<K, V>(m: map<K, V>, keys: seq<K>, f: K -> V)
    ensures UpdatedAll(m, keys, f).Keys == m.Keys + (set k | k in keys)
    ensures forall k :: k in keys ==> UpdatedAll(m, keys, f)[k] == f(k)
    ensures forall k :: k in m && k !in keys ==> UpdatedAll(m, keys, f)[k] == m[k]
    decreases |keys|
  {
    if keys != [] {
      var m' := Updated(m, keys[0], f(keys[0]));
      UpdatedAllBindsEachKey(m', keys[1..], f);
      assert forall k :: k in keys <==> k == keys[0] || k in keys[1..];
    }
  }
}
