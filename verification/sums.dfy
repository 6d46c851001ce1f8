/** Finite sums over sequences, used for conservation laws and termination measures. */
module Sums {

  datatype Option<+T> = None | Some(value: T)

  /** The sum of `f` over the elements of `s`. */
  ghost function Sum<T(!new)>(f: T -> nat, s: seq<T>): nat
  {
    if s == [] then 0 else f(s[0]) + Sum(f, s[1..])
  }

  lemma {:induction false} SumConcat<T(!new)>(f: T -> nat, a: seq<T>, b: seq<T>)
    ensures Sum(f, a + b) == Sum(f, a) + Sum(f, b)
  {
    if a == [] {
      assert a + b == b;
    } else {
      assert (a + b)[0] == a[0] && (a + b)[1..] == a[1..] + b;
      SumConcat(f, a[1..], b);
    }
  }

  lemma SumSnoc<T(!new)>(f: T -> nat, s: seq<T>, x: T)
    ensures Sum(f, s + [x]) == Sum(f, s) + f(x)
  {
    SumConcat(f, s, [x]);
    assert [x][1..] == [];
  }

  /** Replacing one element changes the sum by the difference of the two elements. */
  lemma {:induction false} SumUpdate<T(!new)>(f: T -> nat, s: seq<T>, i: nat, x: T)
    requires i < |s|
    ensures Sum(f, s[i := x]) + f(s[i]) == Sum(f, s) + f(x)
  {
    if i == 0 {
      assert s[i := x][1..] == s[1..];
    } else {
      assert s[i := x][1..] == s[1..][i - 1 := x];
      SumUpdate(f, s[1..], i - 1, x);
    }
  }

  lemma {:induction false} SumMember<T(!new)>(f: T -> nat, s: seq<T>, i: nat)
    requires i < |s|
    ensures f(s[i]) <= Sum(f, s)
  {
    if i != 0 {
      SumMember(f, s[1..], i - 1);
    }
  }

  /** Functions that add up on every element have sums that add up. */
  lemma {:induction false} SumAdds<T(!new)>(f: T -> nat, g: T -> nat, h: T -> nat, s: seq<T>)
    requires forall i :: 0 <= i < |s| ==> f(s[i]) + g(s[i]) == h(s[i])
    ensures Sum(f, s) + Sum(g, s) == Sum(h, s)
  {
    if s != [] {
      SumAdds(f, g, h, s[1..]);
    }
  }

  /** A function that is the same constant on every element. */
  lemma {:induction false} SumConstant<T(!new)>(f: T -> nat, s: seq<T>, k: nat)
    requires forall i :: 0 <= i < |s| ==> f(s[i]) == k
    ensures Sum(f, s) == k * |s|
  {
    if s != [] {
      SumConstant(f, s[1..], k);
    }
  }

  lemma Assoc<T>(a: seq<T>, b: seq<T>, c: seq<T>)
    ensures a + b + c == a + (b + c)
  {
  }

  /** What `f` makes of each element, in order. */
  ghost function Collect<T(!new), U>(f: T -> seq<U>, s: seq<T>): seq<U>
  {
    if s == [] then [] else f(s[0]) + Collect(f, s[1..])
  }

  lemma {:induction false} CollectConcat<T(!new), U>(f: T -> seq<U>, a: seq<T>, b: seq<T>)
    ensures Collect(f, a + b) == Collect(f, a) + Collect(f, b)
  {
    if a == [] {
      assert a + b == b;
    } else {
      assert (a + b)[0] == a[0] && (a + b)[1..] == a[1..] + b;
      CollectConcat(f, a[1..], b);
    }
  }

  lemma CollectSnoc<T(!new), U>(f: T -> seq<U>, s: seq<T>, x: T)
    ensures Collect(f, s + [x]) == Collect(f, s) + f(x)
  {
    CollectConcat(f, s, [x]);
    assert [x][1..] == [];
    assert Collect(f, [x]) == f(x) + Collect(f, []) == f(x);
  }

  lemma CollectPair<T(!new), U>(f: T -> seq<U>, a: T, b: T)
    ensures Collect(f, [a, b]) == f(a) + f(b)
  {
    CollectSnoc(f, [], a);
    CollectSnoc(f, [a], b);
    assert [] + [a] == [a] && [a] + [b] == [a, b];
  }

  lemma CollectTriple<T(!new), U>(f: T -> seq<U>, a: T, b: T, c: T)
    ensures Collect(f, [a, b, c]) == f(a) + f(b) + f(c)
  {
    CollectPair(f, a, b);
    CollectSnoc(f, [a, b], c);
    assert [a, b] + [c] == [a, b, c];
  }
}
