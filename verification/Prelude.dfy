/** Small vocabulary shared by every component. */
module Prelude {
  datatype Option<+T> = None | Some(value: T)

  ghost predicate NoDup<T(!new)>(s: seq<T>) {
    forall i, j :: 0 <= i < j < |s| ==> s[i] != s[j]
  }

  function RemoveAt<T>(s: seq<T>, i: nat): (r: seq<T>)
    requires i < |s|
    ensures |r| == |s| - 1
  {
    s[..i] + s[i + 1..]
  }

  /** Taking one element out of a sequence takes exactly one copy out of its multiset. */
  lemma RemoveAtMultiset<T>(s: seq<T>, i: nat)
    requires i < |s|
    ensures multiset(s) == multiset(RemoveAt(s, i)) + multiset{s[i]}
  {
    assert s == s[..i] + [s[i]] + s[i + 1..];
  }

  function Flatten<T>(parts: seq<seq<T>>): seq<T> {
    if parts == [] then [] else parts[0] + Flatten(parts[1..])
  }

  lemma {:induction false} FlattenSnoc<T>(parts: seq<seq<T>>, last: seq<T>)
    ensures Flatten(parts + [last]) == Flatten(parts) + last
  {
    if parts == [] {
      assert [last][1..] == [];
    } else {
      assert (parts + [last])[1..] == parts[1..] + [last];
      FlattenSnoc(parts[1..], last);
    }
  }

  lemma Reassociate<T>(a: seq<T>, b: seq<T>, c: seq<T>)
    ensures a + (b + c) == a + b + c
  {
  }

  lemma PartsOf<T>(a: seq<T>, b: seq<T>)
    ensures multiset(a) <= multiset(a + b) && multiset(b) <= multiset(a + b)
  {
    assert multiset(a + b) == multiset(a) + multiset(b);
  }

  function Map<A, B>(f: A -> B, xs: seq<A>): seq<B> {
    if xs == [] then [] else Map(f, xs[..|xs| - 1]) + [f(xs[|xs| - 1])]
  }

  function FlatMap<A, B>(f: A -> seq<B>, xs: seq<A>): seq<B> {
    if xs == [] then [] else FlatMap(f, xs[..|xs| - 1]) + f(xs[|xs| - 1])
  }

  /** An image that is also kept comes no more often among the images than among those kept. */
  lemma {:induction false} CountKept<A, B>(f: A -> B, keep: A -> seq<B>, xs: seq<A>, b: B)
    requires forall x :: f(x) == b ==> keep(x) == [b]
    ensures multiset(Map(f, xs))[b] <= multiset(FlatMap(keep, xs))[b]
    decreases |xs|
  {
    if xs != [] {
      var before, last := xs[..|xs| - 1], xs[|xs| - 1];
      CountKept(f, keep, before, b);
      PartsOf(FlatMap(keep, before), keep(last));
    }
  }

  lemma MapSnoc<A, B>(f: A -> B, xs: seq<A>, x: A)
    ensures Map(f, xs + [x]) == Map(f, xs) + [f(x)]
  {
    assert (xs + [x])[..|xs|] == xs;
  }

  lemma {:induction false} MapRemove<A, B>(f: A -> B, xs: seq<A>, i: nat)
    requires i < |xs|
    ensures multiset(Map(f, xs)) == multiset(Map(f, RemoveAt(xs, i))) + multiset{f(xs[i])}
    decreases |xs|
  {
    var before, last := xs[..|xs| - 1], xs[|xs| - 1];
    assert xs == before + [last];
    MapSnoc(f, before, last);
    if i < |before| {
      MapRemove(f, before, i);
      RemoveBeforeLast(before, last, i);
      MapSnoc(f, RemoveAt(before, i), last);
      TakeOut(Map(f, before), Map(f, RemoveAt(before, i)), f(xs[i]), f(last));
    } else {
      assert RemoveAt(xs, i) == before;
    }
  }

  lemma TakeOut<B>(all: seq<B>, rest: seq<B>, b: B, last: B)
    requires multiset(all) == multiset(rest) + multiset{b}
    ensures multiset(all + [last]) == multiset(rest + [last]) + multiset{b}
  {
  }

  lemma RemoveBeforeLast<A>(xs: seq<A>, last: A, i: nat)
    requires i < |xs|
    ensures RemoveAt(xs + [last], i) == RemoveAt(xs, i) + [last]
  {
  }

  lemma {:induction false} FlatMapFront<A, B>(f: A -> seq<B>, xs: seq<A>)
    requires xs != []
    ensures FlatMap(f, xs) == f(xs[0]) + FlatMap(f, xs[1..])
    decreases |xs|
  {
    var before, last := xs[..|xs| - 1], xs[|xs| - 1];
    if before == [] {
      assert xs[1..] == [] && FlatMap(f, before) == [];
    } else {
      FlatMapFront(f, before);
      assert xs[1..][..|xs| - 2] == before[1..];
      Reassociate(f(xs[0]), FlatMap(f, before[1..]), f(last));
    }
  }

  /** What keeps each item or drops it makes no more of any, and keeps only what it would keep. */
  lemma {:induction false} FlatMapKeeps<A>(f: A -> seq<A>, xs: seq<A>)
    requires forall x :: f(x) == [] || f(x) == [x]
    ensures multiset(FlatMap(f, xs)) <= multiset(xs)
    ensures forall x :: x in FlatMap(f, xs) ==> f(x) == [x]
    decreases |xs|
  {
    if xs != [] {
      var before, last := xs[..|xs| - 1], xs[|xs| - 1];
      FlatMapKeeps(f, before);
      KeepOneMore(FlatMap(f, before), before, f(last), last);
      assert xs == before + [last];
    }
  }

  lemma KeepOneMore<A>(kept: seq<A>, all: seq<A>, part: seq<A>, last: A)
    requires multiset(kept) <= multiset(all) && (part == [] || part == [last])
    ensures multiset(kept + part) <= multiset(all + [last])
  {
    assert multiset(kept + part) == multiset(kept) + multiset(part);
    assert multiset(all + [last]) == multiset(all) + multiset{last};
  }
}
