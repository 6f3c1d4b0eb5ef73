/** Maps as Go has them, whose keys are visited in any order, and the counting facts about maps
    that the other modules need. */
module MapOrder {

  predicate IsOrder<T(==)>(order: seq<T>, s: set<T>) {
    && (forall x <- order :: x in s)
    && (forall x <- s :: x in order)
    && (forall i, k | 0 <= i < k < |order| :: order[i] != order[k])
  }

  lemma OrderMembers<T>(order: seq<T>, s: set<T>)
    requires IsOrder(order, s)
    ensures forall i | 0 <= i < |order| :: order[i] in s
  {
    assert forall i | 0 <= i < |order| :: order[i] in order;
  }

  /** What has been visited before turn "n". */
  ghost function Before<T>(order: seq<T>, n: nat): set<T>
    requires n <= |order|
  {
    set i | 0 <= i < n :: order[i]
  }

  lemma BeforeNext<T>(order: seq<T>, s: set<T>, n: nat)
    requires IsOrder(order, s) && n < |order|
    ensures order[n] in s && order[n] !in Before(order, n)
    ensures Before(order, n + 1) == Before(order, n) + {order[n]}
  {
    assert order[n] in order;
  }

  lemma BeforeEnds<T>(order: seq<T>, s: set<T>)
    requires IsOrder(order, s)
    ensures Before(order, 0) == {} && Before(order, |order|) == s
  {
    assert forall x <- s :: x in order;
    assert forall i | 0 <= i < |order| :: order[i] in order;
  }

  method AnyOrder<T(==)>(s: set<T>) returns (order: seq<T>)
    ensures IsOrder(order, s)
  {
    order := [];
    var todo := s;
    while todo != {}
      invariant todo <= s && IsOrder(order, s - todo)
    {
      var x :| x in todo;
      order, todo := order + [x], todo - {x};
    }
    assert s - {} == s;
  }

  /** An order visits every key exactly once. */
  lemma {:induction false} OrderLength<T>(order: seq<T>, s: set<T>)
    requires IsOrder(order, s)
    ensures |order| == |s|
    decreases |order|
  {
    if order == [] {
      assert s == {};
    } else {
      var n := |order| - 1;
      forall x <- s - {order[n]} ensures x in order[..n] {
        var i :| 0 <= i < |order| && order[i] == x;
        assert order[..n][i] == x;
      }
      assert order[n] in order;
      OrderLength(order[..n], s - {order[n]});
    }
  }

  lemma KeyOf<K, V>(m: map<K, V>, v: V) returns (k: K)
    requires v in m.Values
    ensures k in m && m[k] == v
  {
    k :| k in m && m[k] == v;
  }

  lemma SubsetOfSameSize<T>(a: set<T>, b: set<T>)
    requires a <= b && |a| == |b|
    ensures a == b
  {
    assert b == a + (b - a);
  }

  /** Different sets of one size each have an element of their own. */
  lemma EachHasMore<T>(a: set<T>, b: set<T>) returns (x: T, y: T)
    requires a != b && |a| == |b|
    ensures x in a - b && y in b - a
  {
    if a <= b {
      SubsetOfSameSize(a, b);
    }
    if b <= a {
      SubsetOfSameSize(b, a);
    }
    x :| x in a && x !in b;
    y :| y in b && y !in a;
  }

  ghost predicate Injective<K, V>(m: map<K, V>) {
    forall c, d | c in m && d in m && c != d :: m[c] != m[d]
  }

  lemma {:induction false} InjectiveSize<K, V>(m: map<K, V>)
    requires Injective(m)
    ensures |m| == |m.Values|
    decreases |m|
  {
    if m.Keys == {} {
      assert m.Values == {};
    } else {
      var c :| c in m.Keys;
      var rest := m - {c};
      assert m.Keys == rest.Keys + {c};
      InjectiveSize(rest);
      assert m.Values == rest.Values + {m[c]};
    }
  }

  lemma InjectiveImage<K, V>(m: map<K, V>, s: set<V>)
    requires Injective(m)
    ensures |set c | c in m && m[c] in s| == |m.Values * s|
  {
    var part := map c | c in m && m[c] in s :: m[c];
    assert part.Keys == set c | c in m && m[c] in s;
    forall v <- m.Values * s ensures v in part.Values {
      var c := KeyOf(m, v);
      assert part[c] == v;
    }
    assert part.Values == m.Values * s;
    InjectiveSize(part);
  }

  /** The numbers 1 to n. */
  function UpTo(n: nat): (s: set<int>)
    ensures |s| == n && forall k :: k in s <==> 1 <= k <= n
  {
    if n == 0 then {} else UpTo(n - 1) + {n}
  }
}
