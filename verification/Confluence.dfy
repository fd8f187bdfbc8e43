// Folding a family of state transformers over a list of ids. When the
// transformers are idempotent and commute on an invariant set of states, the
// result depends only on which ids still had work to do, not on their order,
// their repetitions or on ids with nothing to do.

module Confluence {

  ghost function Fold<S, I>(f: (S, I) -> S, s: S, ids: seq<I>): S {
    if ids == [] then s else Fold(f, f(s, ids[0]), ids[1..])
  }

  ghost predicate Keeps<S(!new), I(!new)>(inv: S -> bool, f: (S, I) -> S) {
    forall s, i :: inv(s) ==> inv(f(s, i))
  }

  ghost predicate Idempotent<S(!new), I(!new)>(inv: S -> bool, f: (S, I) -> S) {
    forall s, i :: inv(s) ==> f(f(s, i), i) == f(s, i)
  }

  ghost predicate Commutes<S(!new), I(!new)>(inv: S -> bool, f: (S, I) -> S) {
    forall s, i, j :: inv(s) ==> f(f(s, i), j) == f(f(s, j), i)
  }

  ghost predicate Confluent<S(!new), I(!new)>(inv: S -> bool, f: (S, I) -> S) {
    Keeps(inv, f) && Idempotent(inv, f) && Commutes(inv, f)
  }

  lemma {:induction false} FoldConcat<S, I>(f: (S, I) -> S, s: S, a: seq<I>, b: seq<I>)
    ensures Fold(f, s, a + b) == Fold(f, Fold(f, s, a), b)
  {
    if a == [] {
      assert a + b == b;
    } else {
      assert (a + b)[0] == a[0] && (a + b)[1..] == a[1..] + b;
      FoldConcat(f, f(s, a[0]), a[1..], b);
    }
  }

  lemma {:induction false} FoldKeeps<S(!new), I(!new)>(inv: S -> bool, f: (S, I) -> S, s: S, ids: seq<I>)
    requires Keeps(inv, f) && inv(s)
    ensures inv(Fold(f, s, ids))
  {
    if ids != [] {
      FoldKeeps(inv, f, f(s, ids[0]), ids[1..]);
    }
  }

  lemma {:induction false} FoldIdle<S, I>(f: (S, I) -> S, s: S, ids: seq<I>)
    requires forall i | i in ids :: f(s, i) == s
    ensures Fold(f, s, ids) == s
  {
    if ids != [] {
      assert ids[0] in ids;
      FoldIdle(f, s, ids[1..]);
    }
  }

  /** Doing `a` first changes nothing when `a` occurs in the list anyway. */
  lemma {:induction false} FoldAbsorbs<S(!new), I(!new)>(inv: S -> bool, f: (S, I) -> S, s: S, a: I, ids: seq<I>)
    requires Confluent(inv, f) && inv(s) && a in ids
    ensures Fold(f, f(s, a), ids) == Fold(f, s, ids)
    decreases ids
  {
    var b := ids[0];
    if a == b {
      assert f(f(s, a), a) == f(s, a);
    } else {
      assert inv(f(s, b)) && f(f(s, a), b) == f(f(s, b), a);
      FoldAbsorbs(inv, f, f(s, b), a, ids[1..]);
    }
  }

  /** Two lists that agree on the ids that still have work to do fold alike. */
  lemma {:induction false} SameWork<S(!new), I(!new)>(inv: S -> bool, f: (S, I) -> S, s: S, t1: seq<I>, t2: seq<I>)
    requires Confluent(inv, f) && inv(s)
    requires forall x :: f(s, x) != s ==> (x in t1 <==> x in t2)
    ensures Fold(f, s, t1) == Fold(f, s, t2)
    decreases t1
  {
    if t1 == [] {
      FoldIdle(f, s, t2);
    } else {
      var a, rest := t1[0], t1[1..];
      assert t1 == [a] + rest;
      if f(s, a) == s {
        SameWork(inv, f, s, rest, t2);
      } else {
        assert a in t2;
        FoldAbsorbs(inv, f, s, a, t2);
        var s' := f(s, a);
        assert inv(s') && f(s', a) == s';
        forall x | f(s', x) != s' ensures x in rest <==> x in t2 {
          assert f(s', x) == f(f(s, x), a);
        }
        SameWork(inv, f, s', rest, t2);
      }
    }
  }

  /** Once an id of the list has been handled it has nothing left to do. */
  lemma FoldSettles<S(!new), I(!new)>(inv: S -> bool, f: (S, I) -> S, s: S, ids: seq<I>, x: I)
    requires Confluent(inv, f) && inv(s) && x in ids
    ensures f(Fold(f, s, ids), x) == Fold(f, s, ids)
  {
    FoldConcat(f, s, ids, [x]);
    assert Fold(f, Fold(f, s, ids), [x]) == Fold(f, f(Fold(f, s, ids), x), []);
    SameWork(inv, f, s, ids + [x], ids);
  }

  ghost predicate Distinct<I>(ids: seq<I>) {
    forall m, n :: 0 <= m < n < |ids| ==> ids[m] != ids[n]
  }

  lemma {:induction false} FoldToFront<S(!new), I(!new)>(
      inv: S -> bool, f: (S, I) -> S, s: S, u: seq<I>, a: I, v: seq<I>)
    requires Keeps(inv, f) && Commutes(inv, f) && inv(s)
    ensures Fold(f, s, u + [a] + v) == Fold(f, f(s, a), u + v)
    decreases u
  {
    var ids := u + [a] + v;
    if u == [] {
      assert ids[1..] == v && u + v == v;
    } else {
      assert ids[0] == u[0] && ids[1..] == u[1..] + [a] + v;
      assert (u + v)[0] == u[0] && (u + v)[1..] == u[1..] + v;
      assert f(f(s, u[0]), a) == f(f(s, a), u[0]);
      FoldToFront(inv, f, f(s, u[0]), u[1..], a, v);
    }
  }

  /** Without idempotence: any two lists of the same distinct ids fold alike. */
  lemma {:induction false} SamePermutation<S(!new), I(!new)>(
      inv: S -> bool, f: (S, I) -> S, s: S, t1: seq<I>, t2: seq<I>)
    requires Keeps(inv, f) && Commutes(inv, f) && inv(s)
    requires Distinct(t1) && Distinct(t2) && (forall x :: x in t1 <==> x in t2)
    ensures Fold(f, s, t1) == Fold(f, s, t2)
    decreases t1
  {
    if t1 == [] {
      FoldIdle(f, s, t2);
    } else {
      var a, rest := t1[0], t1[1..];
      assert t1 == [a] + rest && a in t2;
      var m :| 0 <= m < |t2| && t2[m] == a;
      var u, v := t2[..m], t2[m + 1..];
      assert t2 == u + [a] + v;
      FoldToFront(inv, f, s, u, a, v);
      forall x ensures x in rest <==> x in u + v {
        assert x in t1 <==> x in t2;
        assert a !in rest;
        assert a !in u + v;
      }
      SamePermutation(inv, f, f(s, a), rest, u + v);
    }
  }
}
