/** Small value types and sequence helpers shared by the catalog client and
    the modelling tools. */
module Common {

  datatype Option<+T> = None | Some(value: T)

  /** The Python exceptions the modelled code can raise, with their messages. */
  datatype Error =
    | ValueError(message: string)
    | TypeError(message: string)
    | KeyError(keys: seq<string>)

  datatype Result<+T> = Ok(value: T) | Err(error: Error)

  /** An argument the source accepts either as a single value or as a list
      (`if not isinstance(x, list): x = [x]`). */
  datatype OneOrMany<T> = One(item: T) | Many(items: seq<T>)

  function AsList<T>(arg: OneOrMany<T>): (xs: seq<T>)
    ensures arg.One? ==> xs == [arg.item]
    ensures arg.Many? ==> xs == arg.items
  {
    match arg
    case One(x) => [x]
    case Many(xs) => xs
  }

  /** The set of elements of a list (Python's `set(xs)`). */
  function Elems<T>(xs: seq<T>): set<T> {
    set x | x in xs
  }

  predicate NoDups<T(==)>(xs: seq<T>) {
    forall i, j | 0 <= i < j < |xs| :: xs[i] != xs[j]
  }

  lemma ElemsAppend<T>(xs: seq<T>, ys: seq<T>)
    ensures Elems(xs + ys) == Elems(xs) + Elems(ys)
  {
    forall x | x in Elems(xs) + Elems(ys) ensures x in xs + ys {
      if x in xs {
        var i :| 0 <= i < |xs| && xs[i] == x;
        assert (xs + ys)[i] == x;
      } else {
        var i :| 0 <= i < |ys| && ys[i] == x;
        assert (xs + ys)[|xs| + i] == x;
      }
    }
  }

  /** A duplicate-free list has as many distinct elements as entries. */
  lemma {:induction false} NoDupsCard<T>(xs: seq<T>)
    requires NoDups(xs)
    ensures |Elems(xs)| == |xs|
  {
    if xs != [] {
      var init, last := xs[..|xs| - 1], xs[|xs| - 1];
      assert xs == init + [last];
      NoDupsCard(init);
      ElemsAppend(init, [last]);
      assert Elems([last]) == {last};
      forall i | 0 <= i < |init| ensures init[i] != last {
        assert init[i] == xs[i];
      }
    }
  }

  /** Two duplicate-free lists with no element in common concatenate to a
      duplicate-free list. */
  lemma NoDupsAppend<T>(xs: seq<T>, ys: seq<T>)
    requires NoDups(xs) && NoDups(ys) && Elems(xs) !! Elems(ys)
    ensures NoDups(xs + ys)
  {
    forall i, j | 0 <= i < j < |xs + ys| ensures (xs + ys)[i] != (xs + ys)[j] {
      if j < |xs| {
        assert (xs + ys)[i] == xs[i] && (xs + ys)[j] == xs[j];
      } else if i >= |xs| {
        assert (xs + ys)[i] == ys[i - |xs|] && (xs + ys)[j] == ys[j - |xs|];
      } else {
        assert (xs + ys)[i] in Elems(xs) && (xs + ys)[j] in Elems(ys);
      }
    }
  }

  /** Concatenation of a list of lists. */
  function Flatten<T>(xss: seq<seq<T>>): seq<T> {
    if xss == [] then [] else xss[0] + Flatten(xss[1..])
  }

  lemma {:induction false} FlattenSnoc<T>(xss: seq<seq<T>>, xs: seq<T>)
    ensures Flatten(xss + [xs]) == Flatten(xss) + xs
  {
    if xss == [] {
      assert Flatten([xs][1..]) == [];
    } else {
      assert (xss + [xs])[1..] == xss[1..] + [xs];
      FlattenSnoc(xss[1..], xs);
    }
  }

  /** `a` is `b` with some entries removed, the rest in their original order. */
  predicate IsSubseq<T(==)>(a: seq<T>, b: seq<T>) {
    a == [] || (b != [] && ((a[0] == b[0] && IsSubseq(a[1..], b[1..])) || IsSubseq(a, b[1..])))
  }

  /** The entries of `xs` that satisfy `keep`, in their original order. */
  function Filter<T(==)>(xs: seq<T>, keep: T -> bool): (r: seq<T>)
    ensures forall i | 0 <= i < |r| :: r[i] in xs && keep(r[i])
    ensures forall i | 0 <= i < |xs| && keep(xs[i]) :: xs[i] in r
    ensures IsSubseq(r, xs)
    ensures |r| <= |xs|
  {
    if xs == [] then []
    else if keep(xs[0]) then
      var rest := Filter(xs[1..], keep);
      assert ([xs[0]] + rest)[1..] == rest;
      [xs[0]] + rest
    else Filter(xs[1..], keep)
  }

  /** A filter keeps every copy of each value it keeps. */
  lemma {:induction false} FilterCount<T>(xs: seq<T>, keep: T -> bool, x: T)
    requires keep(x)
    ensures multiset(Filter(xs, keep))[x] == multiset(xs)[x]
  {
    if xs != [] {
      FilterCount(xs[1..], keep, x);
      assert xs == [xs[0]] + xs[1..];
    }
  }

  /** A filter that every entry passes keeps the list as it is. */
  lemma {:induction false} FilterKeepsAll<T>(xs: seq<T>, keep: T -> bool)
    requires forall i | 0 <= i < |xs| :: keep(xs[i])
    ensures Filter(xs, keep) == xs
  {
    if xs != [] {
      FilterKeepsAll(xs[1..], keep);
      assert [xs[0]] + xs[1..] == xs;
    }
  }

  /** `f` applied to every entry, in order. */
  function Map<A, B>(f: A -> B, xs: seq<A>): (ys: seq<B>)
    ensures |ys| == |xs| && forall i | 0 <= i < |xs| :: ys[i] == f(xs[i])
  {
    seq(|xs|, i requires 0 <= i < |xs| => f(xs[i]))
  }

  lemma MapAppend<A, B>(f: A -> B, xs: seq<A>, ys: seq<A>)
    ensures Map(f, xs + ys) == Map(f, xs) + Map(f, ys)
  {
  }

  /** One row of a nested loop: `x` paired with every entry of `ys`. */
  function Row<X, Y>(x: X, ys: seq<Y>): (r: seq<(X, Y)>)
    ensures |r| == |ys|
    ensures forall j :: 0 <= j < |ys| ==> r[j] == (x, ys[j])
  {
    if ys == [] then [] else Row(x, ys[..|ys| - 1]) + [(x, ys[|ys| - 1])]
  }

  /** The pairs visited by `for x in xs: for y in ys`, in that order. */
  function Cross<X, Y>(xs: seq<X>, ys: seq<Y>): seq<(X, Y)> {
    if xs == [] then [] else Cross(xs[..|xs| - 1], ys) + Row(xs[|xs| - 1], ys)
  }

  /** The nested loop takes `|xs| * |ys|` turns. */
  lemma {:induction false} CrossLength<X, Y>(xs: seq<X>, ys: seq<Y>)
    ensures |Cross(xs, ys)| == |xs| * |ys|
  {
    if xs != [] {
      CrossLength(xs[..|xs| - 1], ys);
      assert (|xs| - 1) * |ys| + |ys| == |xs| * |ys|;
    }
  }

  /** The outer loop's next turn appends one row. */
  lemma CrossSnoc<X, Y>(xs: seq<X>, x: X, ys: seq<Y>)
    ensures Cross(xs + [x], ys) == Cross(xs, ys) + Row(x, ys)
  {
    assert (xs + [x])[..|xs|] == xs;
  }

  /** The inner loop's next turn appends one pair. */
  lemma RowSnoc<X, Y>(x: X, ys: seq<Y>, y: Y)
    ensures Row(x, ys + [y]) == Row(x, ys) + [(x, y)]
  {
    assert (ys + [y])[..|ys|] == ys;
  }

  /** Entry `i * |ys| + j` of the product is `(xs[i], ys[j])`: `xs` is the outer loop. */
  lemma {:induction false} CrossAt<X, Y>(xs: seq<X>, ys: seq<Y>, i: nat, j: nat)
    requires i < |xs| && j < |ys|
    ensures i * |ys| + j < |Cross(xs, ys)|
    ensures Cross(xs, ys)[i * |ys| + j] == (xs[i], ys[j])
  {
    var init := xs[..|xs| - 1];
    CrossLength(init, ys);
    if i < |xs| - 1 {
      CrossAt(init, ys, i, j);
    } else {
      assert i * |ys| == |Cross(init, ys)|;
    }
  }

  /** Every pair of the product comes from the two lists, and every such pair occurs. */
  lemma {:induction false} CrossMembers<X, Y>(xs: seq<X>, ys: seq<Y>)
    ensures forall p :: p in Cross(xs, ys) <==> p.0 in xs && p.1 in ys
  {
    if xs != [] {
      var init, last := xs[..|xs| - 1], xs[|xs| - 1];
      CrossMembers(init, ys);
      assert xs == init + [last];
      forall p ensures p in Cross(xs, ys) <==> p.0 in xs && p.1 in ys {
        assert p in Cross(xs, ys) <==> p in Cross(init, ys) || p in Row(last, ys);
        if p in Row(last, ys) {
          var j :| 0 <= j < |ys| && Row(last, ys)[j] == p;
        }
        if p.0 == last && p.1 in ys {
          var j :| 0 <= j < |ys| && ys[j] == p.1;
          assert Row(last, ys)[j] == p;
        }
      }
    }
  }

  /** Over duplicate-free lists, the nested loop visits each pair exactly once. */
  lemma {:induction false} CrossNoDups<X, Y>(xs: seq<X>, ys: seq<Y>)
    requires NoDups(xs) && NoDups(ys)
    ensures NoDups(Cross(xs, ys))
  {
    if xs != [] {
      var init, last := xs[..|xs| - 1], xs[|xs| - 1];
      CrossNoDups(init, ys);
      CrossMembers(init, ys);
      var a, b := Cross(init, ys), Row(last, ys);
      forall i, j | 0 <= i < j < |a + b| ensures (a + b)[i] != (a + b)[j] {
        if j < |a| {
          assert (a + b)[i] == a[i] && (a + b)[j] == a[j];
        } else if i >= |a| {
          assert (a + b)[i] == b[i - |a|] && (a + b)[j] == b[j - |a|];
        } else {
          assert (a + b)[j] == b[j - |a|];
          assert (a + b)[i] in a;
          forall k | 0 <= k < |init| ensures init[k] != last {
            assert init[k] == xs[k];
          }
        }
      }
    }
  }

  /** Python's `list(s)` for a set `s`: every element once, in an order the
      model leaves open (CPython's hash order). */
  method SetToSeq<T(==)>(s: set<T>) returns (xs: seq<T>)
    ensures Elems(xs) == s
    ensures NoDups(xs)
  {
    xs := [];
    var rest := s;
    while rest != {}
      invariant Elems(xs) + rest == s
      invariant Elems(xs) !! rest
      invariant NoDups(xs)
      decreases |rest|
    {
      var x :| x in rest;
      ElemsAppend(xs, [x]);
      assert Elems([x]) == {x};
      xs := xs + [x];
      rest := rest - {x};
    }
  }
}
