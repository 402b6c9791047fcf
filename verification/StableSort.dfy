/** JavaScript's stable sort, as an insertion sort on items that carry their place in the input. */
module StableSort {
  datatype Placed<+T> = Placed(place: nat, item: T)

  /** What a comparison function has to be: strict, and whatever is between two items is told apart from one of them. */
  ghost predicate Compares<T(!new)>(ahead: (T, T) -> bool) {
    && (forall a, b :: ahead(a, b) ==> !ahead(b, a))
    && (forall a, b, c :: ahead(a, b) ==> ahead(a, c) || ahead(c, b))
  }

  /** Equals stay in the order of the input. */
  predicate Before<T>(ahead: (T, T) -> bool, a: Placed<T>, b: Placed<T>) {
    ahead(a.item, b.item) || (!ahead(b.item, a.item) && a.place < b.place)
  }

  ghost predicate Ordered<T>(ahead: (T, T) -> bool, rs: seq<Placed<T>>) {
    forall i, j :: 0 <= i < j < |rs| ==> Before(ahead, rs[i], rs[j])
  }

  ghost predicate SameElements<T(!new)>(a: seq<T>, b: seq<T>) { forall x :: x in a <==> x in b }

  lemma BeforeTransitive<T(!new)>(ahead: (T, T) -> bool, a: Placed<T>, b: Placed<T>, c: Placed<T>)
    requires Compares(ahead) && Before(ahead, a, b) && Before(ahead, b, c)
    ensures Before(ahead, a, c)
  {
  }

  /** Puts an item with a later place behind all that it is not strictly ahead of. */
  method Insert<T(!new)>(ahead: (T, T) -> bool, rs: seq<Placed<T>>, r: Placed<T>) returns (out: seq<Placed<T>>)
    requires Compares(ahead) && Ordered(ahead, rs) && forall x :: x in rs ==> x.place < r.place
    ensures Ordered(ahead, out) && |out| == |rs| + 1 && forall x :: x in out <==> x in rs || x == r
  {
    var n := |rs|;
    while n > 0 && ahead(r.item, rs[n - 1].item)
      invariant 0 <= n <= |rs|
      invariant forall i :: n <= i < |rs| ==> Before(ahead, r, rs[i])
    {
      n := n - 1;
    }
    if n > 0 {
      assert rs[n - 1] in rs;
      AllBefore(ahead, rs, n, r);
    }
    Inserted(ahead, rs, n, r);
    out := rs[..n] + [r] + rs[n..];
  }

  /** What is behind the last of a stretch is behind all of it. */
  lemma AllBefore<T(!new)>(ahead: (T, T) -> bool, rs: seq<Placed<T>>, n: nat, r: Placed<T>)
    requires Compares(ahead) && Ordered(ahead, rs) && 0 < n <= |rs| && Before(ahead, rs[n - 1], r)
    ensures forall i :: 0 <= i < n ==> Before(ahead, rs[i], r)
  {
    forall i | 0 <= i < n ensures Before(ahead, rs[i], r) {
      if i < n - 1 { BeforeTransitive(ahead, rs[i], rs[n - 1], r); }
    }
  }

  lemma Inserted<T>(ahead: (T, T) -> bool, rs: seq<Placed<T>>, n: nat, r: Placed<T>)
    requires Ordered(ahead, rs) && n <= |rs|
    requires forall i :: 0 <= i < n ==> Before(ahead, rs[i], r)
    requires forall i :: n <= i < |rs| ==> Before(ahead, r, rs[i])
    ensures var out := rs[..n] + [r] + rs[n..]; Ordered(ahead, out) && forall x :: x in out <==> x in rs || x == r
  {
    hide Before;
    assert rs == rs[..n] + rs[n..];
  }

  /** The same items, ordered, equals in the order of the input. */
  method Sort<T(!new)>(ahead: (T, T) -> bool, rs: seq<Placed<T>>) returns (sorted: seq<Placed<T>>)
    requires Compares(ahead) && forall i, j :: 0 <= i < j < |rs| ==> rs[i].place < rs[j].place
    ensures Ordered(ahead, sorted) && |sorted| == |rs| && SameElements(sorted, rs)
  {
    sorted := [];
    var i := 0;
    while i < |rs|
      invariant 0 <= i <= |rs| && |sorted| == i && Ordered(ahead, sorted)
      invariant SameElements(sorted, rs[..i])
    {
      assert rs[..i + 1] == rs[..i] + [rs[i]];
      sorted := Insert(ahead, sorted, rs[i]);
      i := i + 1;
    }
    assert rs[..i] == rs;
  }

  /** There is only one such list: the sort has no choice. */
  lemma {:induction false} OrderedIsUnique<T(!new)>(ahead: (T, T) -> bool, a: seq<Placed<T>>, b: seq<Placed<T>>)
    requires Compares(ahead) && Ordered(ahead, a) && Ordered(ahead, b) && SameElements(a, b)
    ensures a == b
  {
    assert a != [] ==> a[0] in a;
    assert b != [] ==> b[0] in b;
    if a != [] {
      SameFirst(ahead, a, b);
      forall x ensures x in a[1..] <==> x in b[1..] { NotFirst(ahead, a, x); NotFirst(ahead, b, x); }
      OrderedIsUnique(ahead, a[1..], b[1..]);
    }
  }

  lemma Leads<T>(ahead: (T, T) -> bool, a: seq<Placed<T>>, x: Placed<T>)
    requires Ordered(ahead, a) && x in a
    ensures x == a[0] || Before(ahead, a[0], x)
  {
    hide Before;
    var i :| 0 <= i < |a| && a[i] == x;
  }

  lemma SameFirst<T(!new)>(ahead: (T, T) -> bool, a: seq<Placed<T>>, b: seq<Placed<T>>)
    requires Compares(ahead) && Ordered(ahead, a) && Ordered(ahead, b) && SameElements(a, b) && a != [] && b != []
    ensures a[0] == b[0]
  {
    assert a[0] in b && b[0] in a;
    Leads(ahead, a, b[0]);
    Leads(ahead, b, a[0]);
  }

  lemma NotFirst<T(!new)>(ahead: (T, T) -> bool, a: seq<Placed<T>>, x: Placed<T>)
    requires Compares(ahead) && Ordered(ahead, a) && a != []
    ensures x in a[1..] <==> x in a && x != a[0]
  {
    if x in a[1..] {
      var i :| 0 <= i < |a[1..]| && a[1..][i] == x;
      assert Before(ahead, a[0], a[i + 1]);
    }
    assert a == [a[0]] + a[1..];
  }
}
