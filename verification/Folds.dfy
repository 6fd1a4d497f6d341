/** Folds over sequences and the laws of splitting them. */
module Folds {

  function Min(a: nat, b: nat): nat {
    if a <= b then a else b
  }

  function Sum<A>(f: A -> nat, xs: seq<A>): (total: nat)
    ensures |xs| == 1 ==> total == f(xs[0])
  {
    if xs == [] then 0 else f(xs[0]) + Sum(f, xs[1..])
  }

  lemma {:induction false} SumConcat<A>(f: A -> nat, xs: seq<A>, ys: seq<A>)
    ensures Sum(f, xs + ys) == Sum(f, xs) + Sum(f, ys)
  {
    if xs == [] {
      assert xs + ys == ys;
    } else {
      SumConcat(f, xs[1..], ys);
      assert (xs + ys)[1..] == xs[1..] + ys;
    }
  }

  lemma {:induction false} SumZero<A>(f: A -> nat, xs: seq<A>)
    requires forall x <- xs :: f(x) == 0
    ensures Sum(f, xs) == 0
  {
    if xs != [] {
      SumZero(f, xs[1..]);
    }
  }

  lemma {:induction false} SumEqual<A>(f: A -> nat, g: A -> nat, xs: seq<A>)
    requires forall x <- xs :: f(x) == g(x)
    ensures Sum(f, xs) == Sum(g, xs)
  {
    if xs != [] {
      SumEqual(f, g, xs[1..]);
    }
  }

  function FlatMap<A, B>(f: A -> seq<B>, xs: seq<A>): (flat: seq<B>)
    ensures |xs| == 1 ==> flat == f(xs[0])
  {
    if xs == [] then [] else f(xs[0]) + FlatMap(f, xs[1..])
  }

  lemma {:induction false} FlatMapConcat<A, B>(f: A -> seq<B>, xs: seq<A>, ys: seq<A>)
    ensures FlatMap(f, xs + ys) == FlatMap(f, xs) + FlatMap(f, ys)
  {
    if xs == [] {
      assert xs + ys == ys;
    } else {
      FlatMapConcat(f, xs[1..], ys);
      assert (xs + ys)[1..] == xs[1..] + ys;
    }
  }

  lemma FlatMapHead<A, B>(f: A -> seq<B>, xs: seq<A>)
    requires xs != []
    ensures FlatMap(f, xs) == f(xs[0]) + FlatMap(f, xs[1..])
  {
  }

  lemma {:induction false} FlatMapEmpty<A, B>(f: A -> seq<B>, xs: seq<A>)
    requires forall x <- xs :: f(x) == []
    ensures FlatMap(f, xs) == []
  {
    if xs != [] {
      FlatMapEmpty(f, xs[1..]);
    }
  }

  function Length<T>(part: seq<T>): nat { |part| }

  function Join<T>(parts: seq<seq<T>>): (all: seq<T>)
    ensures |parts| == 1 ==> all == parts[0]
  {
    if parts == [] then [] else parts[0] + Join(parts[1..])
  }

  lemma JoinOneMore<T>(part: seq<T>, more: seq<seq<T>>)
    ensures Join([part] + more) == part + Join(more)
  {
    assert ([part] + more)[1..] == more;
  }

  lemma {:induction false} JoinConcat<T>(a: seq<seq<T>>, b: seq<seq<T>>)
    ensures Join(a + b) == Join(a) + Join(b)
  {
    if a == [] {
      assert a + b == b;
    } else {
      JoinConcat(a[1..], b);
      assert (a + b)[1..] == a[1..] + b;
    }
  }

  lemma {:induction false} JoinLength<T>(parts: seq<seq<T>>)
    ensures |Join(parts)| == Sum(Length, parts)
  {
    if parts != [] {
      JoinLength(parts[1..]);
    }
  }

  lemma Regroup<T>(a: seq<T>, b: seq<T>, c: seq<T>, d: seq<T>, e: seq<T>)
    requires b + c == d + e
    ensures (a + b) + c == (a + d) + e
  {
    assert (a + b) + c == a + (b + c);
    assert (a + d) + e == a + (d + e);
  }

  lemma Associate<T>(a: seq<T>, b: seq<T>, c: seq<T>)
    ensures (a + b) + c == a + (b + c)
  {
  }

  /** Something appended in the middle, where nothing follows. */
  lemma InsertLast<T>(a: seq<T>, b: seq<T>, t: seq<T>, c: seq<T>)
    requires t == [] || c == []
    ensures (a + (b + t)) + c == ((a + b) + c) + t
  {
  }

  /** Two splits side by side, one of them of nothing. */
  lemma Interleave<T>(a: seq<T>, b: seq<T>, c: seq<T>, d: seq<T>)
    requires (a == [] && b == []) || (c == [] && d == [])
    ensures (a + c) + (b + d) == (a + b) + (c + d)
  {
  }
}
