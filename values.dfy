/**
  The slice of Ruby's value model that the feeds API relies on: truthiness,
  `Hash#[]` with its `nil` default, `Array#flatten`, `Array#compact`, and a
  hash object that callers share and the API updates in place.
 */
module Values {

  /** A Ruby value as far as the feeds API looks at it. */
  datatype Value =
    | Nil
    | Bool(b: bool)
    | Int(i: int)
    | Str(s: string)
    | Sym(name: string)
    | List(items: seq<Value>)

  /**
    Ruby truthiness: only `nil` and `false` are falsy; `0`, the empty string
    and the empty array are all truthy.
   */
  function Truthy(v: Value): (t: bool)
    ensures !t <==> v == Nil || v == Bool(false)
    ensures v.Int? || v.Str? || v.Sym? || v.List? ==> t
  {
    v != Nil && v != Bool(false)
  }

  /** `hash[key]`: the stored value, or `nil` when the key is absent. */
  function Lookup(m: map<Value, Value>, key: Value): (v: Value)
    ensures key !in m ==> v == Nil
    ensures key in m ==> v == m[key]
  {
    if key in m then m[key] else Nil
  }

  /** A value that `flatten` leaves as it is. */
  predicate IsLeaf(v: Value) {
    !v.List?
  }

  /**
    `Array#flatten` with no depth argument: every nested array is replaced,
    recursively, by its elements, and the order of the leaves is kept.
   */
  function Flatten(vs: seq<Value>): (r: seq<Value>)
    ensures forall x :: x in r ==> IsLeaf(x)
    ensures (forall x :: x in vs ==> IsLeaf(x)) ==> r == vs
    decreases vs
  {
    if vs == [] then []
    else
      var rest := Flatten(vs[1..]);
      match vs[0]
      case List(items) => assert vs[0] in vs; Flatten(items) + rest
      case _ => [vs[0]] + rest
  }

  /** `Array#compact`: drops every `nil`, keeps everything else in order. */
  function Compact(vs: seq<Value>): (r: seq<Value>)
    ensures |r| <= |vs|
    ensures forall x :: x in r <==> x in vs && x != Nil
    ensures multiset(r) == multiset(vs)[Nil := 0]
    ensures Nil !in vs ==> r == vs
  {
    if vs == [] then []
    else
      assert vs == [vs[0]] + vs[1..];
      if vs[0] == Nil then Compact(vs[1..])
      else [vs[0]] + Compact(vs[1..])
  }

  /** `flatten` of a one-element array: the element's own leaves when it is an array, itself otherwise. */
  lemma FlattenOne(v: Value)
    ensures Flatten([v]) == if v.List? then Flatten(v.items) else [v]
  {
    assert [v][1..] == [];
    if v.List? {
      assert Flatten([v]) == Flatten(v.items) + [];
    }
  }

  /** `flatten` works element by element: concatenating first or last gives the same array. */
  lemma {:induction false} FlattenAppend(a: seq<Value>, b: seq<Value>)
    ensures Flatten(a + b) == Flatten(a) + Flatten(b)
    decreases a
  {
    if a == [] {
      assert a + b == b;
    } else {
      assert (a + b)[0] == a[0] && (a + b)[1..] == a[1..] + b;
      FlattenAppend(a[1..], b);
    }
  }

  /** `compact` works element by element, so it keeps order and multiplicity. */
  lemma {:induction false} CompactAppend(a: seq<Value>, b: seq<Value>)
    ensures Compact(a + b) == Compact(a) + Compact(b)
    decreases a
  {
    if a == [] {
      assert a + b == b;
    } else {
      assert (a + b)[0] == a[0] && (a + b)[1..] == a[1..] + b;
      CompactAppend(a[1..], b);
    }
  }

  /**
    `[ v ].flatten.compact`: the empty array for `nil`, a one-element array
    for any other single value, and the non-`nil` leaves of `v` when `v` is
    itself an array.
   */
  lemma {:induction false} WrapFlattenCompact(v: Value)
    ensures v == Nil ==> Compact(Flatten([v])) == []
    ensures v != Nil && IsLeaf(v) ==> Compact(Flatten([v])) == [v]
    ensures v.List? ==> Compact(Flatten([v])) == Compact(Flatten(v.items))
  {
    FlattenOne(v);
  }

  /** A Ruby `Hash` that several owners share and update in place. */
  class Hash {
    var entries: map<Value, Value>

    constructor (m: map<Value, Value>)
      ensures entries == m
    {
      entries := m;
    }

    /** `hash.delete(key)`: removes the key and returns its old value, or `nil`. */
    method Delete(key: Value) returns (v: Value)
      modifies this
      ensures v == Lookup(old(entries), key)
      ensures entries == old(entries) - {key}
    {
      v := Lookup(entries, key);
      entries := entries - {key};
    }
  }
}
