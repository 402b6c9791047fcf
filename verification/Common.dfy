/** Small datatypes and sequence facts shared by the other modules. */
module Common {
  datatype Option<+T> = None | Some(value: T)

  datatype Result<+T, +E> = Ok(value: T) | Err(error: E)

  function Min(a: int, b: int): int { if a <= b then a else b }

  function Max(a: int, b: int): int { if a >= b then a else b }

  /** Concatenation of a list of lists. */
  function Flatten<T>(ss: seq<seq<T>>): seq<T> {
    if ss == [] then [] else ss[0] + Flatten(ss[1..])
  }

  lemma Associates<T>(a: seq<T>, b: seq<T>, c: seq<T>)
    ensures a + b + c == a + (b + c)
  {
  }

  lemma PlusNone<T>(a: multiset<T>)
    ensures a + multiset{} == a
  {
  }

  lemma AtMostBoth<T>(a: multiset<T>, x: multiset<T>, b: multiset<T>, y: multiset<T>, c: multiset<T>)
    requires a + x <= b && b + y <= c
    ensures a + (x + y) <= c
  {
  }

  lemma AtMostSum<T>(c: multiset<T>, b: multiset<T>, y: multiset<T>, a: multiset<T>, x: multiset<T>)
    requires c <= b + y && b <= a + x
    ensures c <= a + (x + y)
  {
  }

  lemma AtMostParts<T>(p: multiset<T>, a: multiset<T>, b: multiset<T>, c: multiset<T>, q: multiset<T>, d: multiset<T>)
    requires p + a <= b && b <= c && c + q <= multiset{} + d
    ensures a <= d
  {
    forall x ensures a[x] <= d[x] {
      assert (p + a)[x] <= b[x] <= c[x] <= (c + q)[x] <= (multiset{} + d)[x];
    }
  }
}
