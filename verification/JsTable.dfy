/** A JavaScript `Map`, iterated in insertion order. */
module JsTable {
  import opened Prelude

  datatype Table<K(==, !new), V> = Table(keys: seq<K>, vals: map<K, V>) {
    ghost predicate Valid() {
      NoDup(keys) && forall k :: k in keys <==> k in vals
    }

    /** `set`: an existing key keeps its place, a new one goes last. */
    function Put(k: K, v: V): Table<K, V> {
      Table(if k in vals then keys else keys + [k], vals[k := v])
    }

    /** `delete` */
    function Drop(k: K): Table<K, V> { Table(Omit(keys, k), vals - {k}) }
  }

  function Omit<K(==, !new)>(keys: seq<K>, k: K): (r: seq<K>)
    ensures forall q :: q in r <==> q in keys && q != k
  {
    if keys == [] then []
    else if keys[0] == k then Omit(keys[1..], k)
    else [keys[0]] + Omit(keys[1..], k)
  }

  lemma {:induction false} OmitNoDup<K(!new)>(keys: seq<K>, k: K)
    requires NoDup(keys)
    ensures NoDup(Omit(keys, k))
  {
    if keys != [] {
      var tail, kept := keys[1..], Omit(keys[1..], k);
      assert forall i :: 0 <= i < |tail| ==> tail[i] == keys[i + 1];
      OmitNoDup(tail, k);
      assert forall i :: 0 <= i < |kept| ==> kept[i] in kept && kept[i] in tail;
      assert keys[0] !in tail;
    }
  }

  lemma DropValid<K(!new), V>(t: Table<K, V>, k: K)
    requires t.Valid()
    ensures t.Drop(k).Valid()
  {
    OmitNoDup(t.keys, k);
  }

  /** Deleting the first key leaves the others in order. */
  lemma OmitFirst<K(!new)>(keys: seq<K>)
    requires keys != [] && NoDup(keys)
    ensures Omit(keys, keys[0]) == keys[1..]
  {
    var tail := keys[1..];
    assert forall i :: 0 <= i < |tail| ==> tail[i] == keys[i + 1];
    OmitAbsent(tail, keys[0]);
  }

  lemma {:induction false} OmitAbsent<K(!new)>(keys: seq<K>, k: K)
    requires k !in keys
    ensures Omit(keys, k) == keys
  {
    if keys != [] {
      OmitAbsent(keys[1..], k);
    }
  }

  /** `set` keeps the place of a known key and puts a new one last; `delete` takes one key out of the order. */
  lemma OrderKept<K(!new), V>(before: seq<K>, k: K, after: seq<K>, vals: map<K, V>, v: V)
    requires k !in before && k !in after
    ensures k in vals ==> Table(before + [k] + after, vals).Put(k, v).keys == before + [k] + after
    ensures k !in vals ==> Table(before + after, vals).Put(k, v).keys == before + after + [k]
    ensures Table(before + [k] + after, vals).Drop(k).keys == before + after
  {
    OmitMiddle(before, k, after);
  }

  lemma OmitMiddle<K(!new)>(before: seq<K>, k: K, after: seq<K>)
    requires k !in before && k !in after
    ensures Omit(before + [k] + after, k) == before + after
  {
    var head := before + [k];
    OmitLast(before, k);
    OmitAbsent(after, k);
    OmitConcat(head, after, k);
  }

  lemma OmitLast<K(!new)>(before: seq<K>, k: K)
    requires k !in before
    ensures Omit(before + [k], k) == before
  {
    OmitAbsent(before, k);
    OmitConcat(before, [k], k);
    assert Omit([k], k) == Omit([k][1..], k) == [];
  }

  lemma {:induction false} OmitConcat<K(!new)>(a: seq<K>, b: seq<K>, k: K)
    ensures Omit(a + b, k) == Omit(a, k) + Omit(b, k)
  {
    if a == [] {
      assert a + b == b;
    } else {
      assert (a + b)[1..] == a[1..] + b;
      OmitConcat(a[1..], b, k);
    }
  }
}
