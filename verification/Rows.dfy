/** Tables are maps keyed by row id.  Where the source loops over a query that names no order,
    the model visits the rows in ascending id order. */
module Rows {

  datatype Option<+T> = None | Some(value: T)

  datatype Result<+T, +E> = Ok(value: T) | Err(error: E)

  lemma {:induction false} LeastExists(ids: set<nat>) returns (m: nat)
    requires ids != {}
    ensures m in ids && forall x :: x in ids ==> m <= x
    decreases |ids|
  {
    m :| m in ids;
    var rest := ids - {m};
    assert ids == rest + {m};
    if rest != {} {
      var least := LeastExists(rest);
      if least < m { m := least; }
    }
  }

  function Least(ids: set<nat>): (m: nat)
    requires ids != {}
    ensures m in ids && forall x :: x in ids ==> m <= x
  {
    assert exists m :: m in ids && forall x :: x in ids ==> m <= x by {
      var m := LeastExists(ids);
    }
    var m :| m in ids && forall x :: x in ids ==> m <= x;
    m
  }

  /** The ids in ascending order. */
  function Ordered(ids: set<nat>): (q: seq<nat>)
    ensures |q| == |ids|
  {
    if ids == {} then []
    else
      var m := Least(ids);
      [m] + Ordered(ids - {m})
  }

  lemma {:induction false} OrderedAt(ids: set<nat>, i: nat)
    requires i < |ids|
    ensures Ordered(ids)[i] in ids
    decreases |ids|
  {
    if i > 0 { OrderedAt(ids - {Least(ids)}, i - 1); }
  }

  /** Ascending, so each id once. */
  lemma {:induction false} OrderedAscends(ids: set<nat>, i: nat, j: nat)
    requires i < j < |ids|
    ensures Ordered(ids)[i] < Ordered(ids)[j]
    decreases |ids|
  {
    var rest := ids - {Least(ids)};
    if i == 0 { OrderedAt(rest, j - 1); } else { OrderedAscends(rest, i - 1, j - 1); }
  }

  /** Every id is there. */
  lemma {:induction false} OrderedHas(ids: set<nat>, x: nat) returns (i: nat)
    requires x in ids
    ensures i < |ids| && Ordered(ids)[i] == x
    decreases |ids|
  {
    var m := Least(ids);
    i := 0;
    if x != m {
      var k := OrderedHas(ids - {m}, x);
      i := k + 1;
    }
  }

  /** The ids visited after i steps. */
  function Visited(order: seq<nat>, i: nat): set<nat>
    requires i <= |order|
  {
    set k | 0 <= k < i :: order[k]
  }

  /** A loop over Ordered(ids) meets each id for the first time, and in the end has met all. */
  lemma {:induction false} VisitOne(ids: set<nat>, i: nat)
    requires i < |ids|
    ensures
      var order := Ordered(ids);
      && order[i] in ids && order[i] !in Visited(order, i)
      && Visited(order, i + 1) == Visited(order, i) + {order[i]}
  {
    OrderedAt(ids, i);
    forall k | 0 <= k < i ensures Ordered(ids)[k] != Ordered(ids)[i] {
      OrderedAscends(ids, k, i);
    }
    hide Ordered;
  }

  lemma {:induction false} VisitAll(ids: set<nat>)
    ensures Visited(Ordered(ids), |ids|) == ids
  {
    forall x | x in ids ensures x in Visited(Ordered(ids), |ids|) {
      var i := OrderedHas(ids, x);
    }
    forall x | x in Visited(Ordered(ids), |ids|) ensures x in ids {
      var i :| 0 <= i < |ids| && Ordered(ids)[i] == x;
      OrderedAt(ids, i);
    }
  }

  /** SQL's Sum over a column, 0 on no rows. */
  function Sum(amounts: seq<int>): int
  {
    if amounts == [] then 0 else Sum(amounts[..|amounts| - 1]) + amounts[|amounts| - 1]
  }

  lemma Regroup<T>(a: seq<T>, b: seq<T>, c: seq<T>)
    ensures (a + b) + c == a + (b + c)
  {
  }

  lemma NothingMore<T>(a: seq<T>)
    ensures a + [] == a
  {
  }

  /** A set inside another of the same size is the other. */
  lemma {:induction false} SubsetOfSameSize<T>(a: set<T>, b: set<T>)
    requires a <= b && |a| == |b|
    ensures a == b
  {
    assert |b| == |a| + |b - a| by { assert b == a + (b - a); }
  }

  lemma {:induction false} SubsetSize<T>(a: set<T>, b: set<T>)
    requires a <= b
    ensures |a| <= |b|
  {
    assert b == a + (b - a);
  }

  /** The numbers 1..n. */
  function OneTo(n: nat): (s: set<nat>)
    ensures |s| == n
    ensures forall k :: k in s <==> 1 <= k <= n
  {
    if n == 0 then {} else OneTo(n - 1) + {n}
  }

  function Image<K, V>(domain: set<K>, f: map<K, V>): set<V>
  {
    set a | a in domain && a in f :: f[a]
  }

  /** A one-to-one image has as many elements as its domain. */
  lemma {:induction false} InjectiveImageSize<K, V>(domain: set<K>, f: map<K, V>)
    requires domain <= f.Keys
    requires forall a, b :: a in domain && b in domain && a != b ==> f[a] != f[b]
    ensures |Image(domain, f)| == |domain|
  {
    if domain == {} {
      assert Image(domain, f) == {};
    } else {
      var a :| a in domain;
      InjectiveImageSize(domain - {a}, f);
      assert Image(domain, f) == Image(domain - {a}, f) + {f[a]};
    }
  }
}
