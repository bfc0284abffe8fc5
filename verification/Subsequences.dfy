// A sequence with some of its elements taken out.

module Subsequences {
  // now is was with exactly what is gone taken out, in order; at are the places kept.
  ghost predicate Picks<T(!new)>(was: seq<T>, now: seq<T>, gone: T -> bool, at: seq<nat>) {
    && |at| == |now|
    && (forall i, j :: 0 <= i < j < |at| ==> at[i] < at[j])
    && (forall i :: 0 <= i < |at| ==> at[i] < |was| && now[i] == was[at[i]])
    && (forall k: nat :: k < |was| ==> (k in at <==> !gone(was[k])))
  }

  ghost predicate Without<T(!new)>(was: seq<T>, now: seq<T>, gone: T -> bool) {
    exists at: seq<nat> :: Picks(was, now, gone, at)
  }

  lemma WithoutNone<T(!new)>(gone: T -> bool)
    ensures Without([], [], gone)
  {
    var none: seq<T> := [];
    assert Picks(none, none, gone, []);
  }

  lemma WithoutOne<T(!new)>(x: T, gone: T -> bool)
    ensures Without([x], if gone(x) then [] else [x], gone)
  {
    var at: seq<nat> := if gone(x) then [] else [0];
    assert Picks([x], if gone(x) then [] else [x], gone, at);
  }

  lemma WithoutConcat<T(!new)>(a: seq<T>, b: seq<T>, a1: seq<T>, b1: seq<T>, gone: T -> bool)
    requires Without(a, a1, gone) && Without(b, b1, gone)
    ensures Without(a + b, a1 + b1, gone)
  {
    var at: seq<nat> :| Picks(a, a1, gone, at);
    var to: seq<nat> :| Picks(b, b1, gone, to);
    PicksConcat(a, b, a1, b1, gone, at, to);
  }

  function Moved(at: seq<nat>, n: nat): (r: seq<nat>)
    ensures |r| == |at| && forall i :: 0 <= i < |at| ==> r[i] == at[i] + n
  {
    seq(|at|, i requires 0 <= i < |at| => at[i] + n)
  }

  lemma MovedIn(at: seq<nat>, n: nat, k: nat)
    ensures k in Moved(at, n) <==> k >= n && k - n in at
  {
    if k >= n && k - n in at {
      var i :| 0 <= i < |at| && at[i] == k - n;
      assert Moved(at, n)[i] == k;
    }
  }

  lemma PicksConcat<T(!new)>(a: seq<T>, b: seq<T>, a1: seq<T>, b1: seq<T>, gone: T -> bool, at: seq<nat>, to: seq<nat>)
    requires Picks(a, a1, gone, at) && Picks(b, b1, gone, to)
    ensures Picks(a + b, a1 + b1, gone, at + Moved(to, |a|))
  {
    hide Moved;
    var all, left, moved := a + b, a1 + b1, Moved(to, |a|);
    var places := at + moved;
    forall k: nat | k < |all|
      ensures k in places <==> !gone(all[k])
    {
      MovedIn(to, |a|, k);
      assert k in places <==> k in at || k in moved;
      if k >= |a| {
        assert all[k] == b[k - |a|] && k !in at;
      }
    }
    forall i | 0 <= i < |places|
      ensures places[i] < |all| && left[i] == all[places[i]]
    {
      if i >= |at| {
        assert places[i] == moved[i - |at|] == to[i - |at|] + |a|;
      }
    }
    forall i, j | 0 <= i < j < |places|
      ensures places[i] < places[j]
    {
      if i >= |at| {
        assert places[i] == to[i - |at|] + |a| && places[j] == to[j - |at|] + |a|;
      }
    }
  }

  lemma WithoutCons<T(!new)>(x: T, was: seq<T>, now: seq<T>, gone: T -> bool)
    requires Without(was, now, gone)
    ensures Without([x] + was, (if gone(x) then [] else [x]) + now, gone)
  {
    hide Without;
    WithoutOne(x, gone);
    WithoutConcat([x], was, if gone(x) then [] else [x], now, gone);
  }

  lemma {:induction false} PicksSame<T(!new)>(was: seq<T>, a: seq<T>, b: seq<T>, gone: T -> bool, at: seq<nat>, to: seq<nat>, n: nat)
    requires Picks(was, a, gone, at) && Picks(was, b, gone, to) && n <= |at|
    ensures n <= |to| && forall i :: 0 <= i < n ==> at[i] == to[i]
  {
    if n > 0 {
      PicksSame(was, a, b, gone, at, to, n - 1);
      var k := at[n - 1];
      assert k in at;
      assert k in to;
      var j :| 0 <= j < |to| && to[j] == k;
      assert j >= n - 1;
      var m := to[n - 1];
      assert m in to && m <= k;
      assert m in at;
      var i :| 0 <= i < |at| && at[i] == m;
      assert i >= n - 1;
    }
  }

  // Taking out the same leaves the same.
  lemma WithoutSame<T(!new)>(was: seq<T>, a: seq<T>, b: seq<T>, gone: T -> bool)
    requires Without(was, a, gone) && Without(was, b, gone)
    ensures a == b
  {
    var at: seq<nat> :| Picks(was, a, gone, at);
    var to: seq<nat> :| Picks(was, b, gone, to);
    PicksSame(was, a, b, gone, at, to, |at|);
    PicksSame(was, b, a, gone, to, at, |to|);
    assert at == to;
  }
}
