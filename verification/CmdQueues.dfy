// The queues updated in place: a class whose methods do to the lists of items and to the references what
// the C code does, with its loops, each tied to the function of CmdScheduler or CmdRuns that says so.

module CmdQueues {
  import opened CmdQueue
  import opened CmdScheduler
  import opened CmdRuns

  lemma {:induction false} FreshPush(chain: seq<Item>, x: Item, client: nat)
    ensures Fresh(chain + [x], client) == Fresh(chain, client) + [Entry(x, client, false, false)]
    decreases |chain|
  {
    if chain != [] {
      assert (chain + [x])[1..] == chain[1..] + [x];
      FreshPush(chain[1..], x, client);
    }
  }

  lemma ReferTwice(refs: seq<int>, client: nat, a: int, b: int)
    ensures Refer(Refer(refs, client, a), client, b) == Refer(refs, client, a + b)
  {
  }

  // One more item after those of a chain already inserted.
  lemma InsertPush(s: Sched, q: nat, i: nat, chain: seq<Item>, x: Item)
    requires q < |s.lists| && i < |s.lists[q]|
    ensures var t := InsertAt(s, q, i, chain);
      && |t.lists| == |s.lists| && i + |chain| < |t.lists[q]|
      && InsertAt(t, q, i + |chain|, [x]) == InsertAt(s, q, i, chain + [x])
  {
    hide Fresh;
    var list := s.lists[q];
    var client := list[i].client;
    var made := Fresh(chain, client);
    FreshPush(chain, x, client);
    FreshPush([], x, client);
    FreshLength(chain, client);
    FreshClient(chain, client);
    var t := InsertAt(s, q, i, chain);
    var now := t.lists[q];
    assert now[..i + |chain| + 1] == list[..i + 1] + made;
    assert now[i + |chain| + 1..] == list[i + 1..];
    assert now[i + |chain|].client == client;
    FreshNone(client);
    var longer := list[..i + 1] + Fresh(chain + [x], client) + list[i + 1..];
    assert longer == now[..i + |chain| + 1] + Fresh([x], client) + now[i + |chain| + 1..];
    assert s.lists[q := now][q := longer] == s.lists[q := longer];
    ReferTwice(s.refs, client, |chain|, 1);
  }

  lemma FreshNone(client: nat)
    ensures Fresh([], client) == [] && forall x :: Fresh([x], client) == [Entry(x, client, false, false)]
  {
  }

  lemma {:induction false} FreshClient(chain: seq<Item>, client: nat)
    ensures forall k :: 0 <= k < |Fresh(chain, client)| ==> Fresh(chain, client)[k].client == client
  {
    if chain != [] {
      FreshClient(chain[1..], client);
    }
  }

  lemma AppendPush(s: Sched, q: nat, chain: seq<Item>, x: Item)
    requires q < |s.lists|
    ensures AppendTo(AppendTo(s, q, chain), q, [x]) == AppendTo(s, q, chain + [x])
  {
    FreshPush(chain, x, q);
    var t := AppendTo(s, q, chain);
    assert t.lists[q] + Fresh([x], q) == AppendTo(s, q, chain + [x]).lists[q];
    assert AppendTo(t, q, [x]).lists == AppendTo(s, q, chain + [x]).lists;
  }

  lemma NothingAdded(s: Sched, q: nat)
    requires q < |s.lists|
    ensures AppendTo(s, q, []) == s && forall i :: 0 <= i < |s.lists[q]| ==> InsertAt(s, q, i, []) == s
  {
    assert s.lists[q] + [] == s.lists[q];
    forall i | 0 <= i < |s.lists[q]|
      ensures InsertAt(s, q, i, []) == s
    {
      assert s.lists[q][..i + 1] + [] + s.lists[q][i + 1..] == s.lists[q];
    }
  }

  class Queues {
    var lists: seq<seq<Entry>>
    var refs: seq<int>
    ghost var trace: seq<seq<nat>>

    ghost function St(): Sched
      reads this
    {
      Sched(lists, refs, trace)
    }

    method Reference(client: nat, more: int)
      modifies this
      ensures St() == old(St()).(refs := Refer(old(refs), client, more))
    {
      if 0 < client < |refs| {
        refs := refs[client := refs[client] + more];
      }
    }

    // cmdq_append
    method Push(q: nat, chain: seq<Item>)
      requires q < |lists|
      modifies this
      ensures St() == AppendTo(old(St()), q, chain)
    {
      ghost var s := St();
      var k := 0;
      NothingAdded(s, q);
      while k < |chain|
        invariant k <= |chain| && St() == AppendTo(s, q, chain[..k])
      {
        AppendPush(s, q, chain[..k], chain[k]);
        assert chain[..k] + [chain[k]] == chain[..k + 1];
        assert Fresh([chain[k]], q) == [Entry(chain[k], q, false, false)];
        PushOne(q, chain[k]);
        k := k + 1;
      }
      assert chain[..k] == chain;
    }

    method PushOne(q: nat, x: Item)
      requires q < |lists|
      modifies this
      ensures St() == AppendTo(old(St()), q, [x])
    {
      Reference(q, 1);
      lists := lists[q := lists[q] + [Entry(x, q, false, false)]];
      assert Fresh([x], q) == [Entry(x, q, false, false)];
    }

    // cmdq_insert_after the i-th entry
    method InsertAfter(q: nat, i: nat, chain: seq<Item>)
      requires q < |lists| && i < |lists[q]|
      modifies this
      ensures St() == InsertAt(old(St()), q, i, chain)
    {
      hide InsertAt;
      ghost var s := St();
      var k, after := 0, i;
      NothingAdded(s, q);
      while k < |chain|
        invariant k <= |chain| && after == i + k && q < |lists| && after < |lists[q]|
        invariant St() == InsertAt(s, q, i, chain[..k])
      {
        InsertPush(s, q, i, chain[..k], chain[k]);
        InsertPush(s, q, i, chain[..k + 1], chain[k]);
        assert chain[..k] + [chain[k]] == chain[..k + 1];
        InsertOne(q, after, chain[k]);
        k, after := k + 1, after + 1;
      }
      assert chain[..k] == chain;
    }

    method InsertOne(q: nat, i: nat, x: Item)
      requires q < |lists| && i < |lists[q]|
      modifies this
      ensures St() == InsertAt(old(St()), q, i, [x])
    {
      var client := lists[q][i].client;
      Reference(client, 1);
      lists := lists[q := lists[q][..i + 1] + [Entry(x, client, false, false)] + lists[q][i + 1..]];
      assert Fresh([x], client) == [Entry(x, client, false, false)];
    }

    // cmdq_remove
    method Remove(q: nat, i: nat)
      requires q < |lists| && i < |lists[q]|
      modifies this
      ensures St() == RemoveAt(old(St()), q, i)
    {
      Reference(lists[q][i].client, -1);
      lists := lists[q := lists[q][..i] + lists[q][i + 1..]];
    }

    // cmdq_remove_group of the head
    method RemoveRest(q: nat, group: nat)
      requires q < |lists| && lists[q] != []
      modifies this
      ensures St() == RemoveGroup(old(St()), q, 1, group)
    {
      hide RemoveAt;
      ghost var s := St();
      var i := 1;
      while i < |lists[q]|
        invariant q < |lists| && 1 <= i <= |lists[q]|
        invariant RemoveGroup(St(), q, i, group) == RemoveGroup(s, q, 1, group)
        decreases |lists[q]| - i
      {
        if lists[q][i].item.group == group {
          RemoveShape(St(), q, i);
          Remove(q, i);
        } else {
          i := i + 1;
        }
      }
    }

    method PutHead(q: nat, x: Entry)
      requires q < |lists| && lists[q] != []
      modifies this
      ensures St() == SetHead(old(St()), q, x)
    {
      lists := lists[q := lists[q][0 := x]];
    }

    // What the running item does.
    method Perform(q: nat, acts: seq<Act>)
      requires Shaped(St()) && q < |lists| && lists[q] != []
      modifies this
      ensures St() == DoActs(old(St()), q, acts, 0)
    {
      hide InsertAt, AppendTo, Fresh;
      ghost var s := St();
      var k: nat, done: nat := 0, 0;
      assert acts[0..] == acts;
      while k < |acts|
        invariant k <= |acts| && Shaped(St()) && q < |lists| == |s.lists| && done < |lists[q]|
        invariant DoActs(St(), q, acts[k..], done) == DoActs(s, q, acts, 0)
      {
        ghost var s1 := St();
        assert acts[k..][0] == acts[k] && acts[k..][1..] == acts[k + 1..];
        var chain := acts[k].chain;
        if acts[k].Insert? {
          var at := if acts[k].at <= done then acts[k].at else done;
          InsertShape(s1, q, at, chain);
          InsertAfter(q, at, chain);
          done := done + |chain|;
        } else {
          var to := if acts[k].queue < |lists| then acts[k].queue else 0;
          AppendGrows(s1, to, chain);
          Push(to, chain);
        }
        k := k + 1;
      }
      assert acts[k..] == [];
    }

    // A command has failed: its hook goes behind it and the rest of its group goes.
    method FailHead(q: nat, x: Item)
      requires Shaped(St()) && q < |lists| && lists[q] != []
      modifies this
      ensures var s := old(St());
        var s4 := InsertAt(s, q, 0, x.hook);
        |s4.lists| == |s.lists| && s4.lists[q] != []
        && St() == (if x.group != 0 then RemoveGroup(s4, q, 1, x.group) else s4) && q < |lists| && lists[q] != []
    {
      hide RemoveGroup, InsertAt;
      InsertHead(St(), q, x.hook);
      InsertAfter(q, 0, x.hook);
      if x.group != 0 {
        RemoveGroupHead(St(), q, 1, x.group);
        RemoveRest(q, x.group);
      }
    }

    // cmdq_fire_command and cmdq_fire_callback
    method FireHead(q: nat)
      requires Shaped(St()) && q < |lists| && lists[q] != []
      modifies this
      ensures St() == Fire(old(St()), q)
    {
      hide DoActs, RemoveGroup, InsertAt, SetHead;
      ghost var s := St();
      var head := lists[q][0];
      var x := head.item;
      trace := trace[q := trace[q] + [x.id]];
      var lent := if x.command && head.client == 0 then (if x.found < |lists| then x.found else 0) else head.client;
      HeadShape(St(), q, head.(client := lent));
      PutHead(q, head.(client := lent));
      DoActsShape(St(), q, x.acts, 0);
      Perform(q, x.acts);
      HeadShape(St(), q, head);
      PutHead(q, head);
      if Failed(x) {
        FailHead(q, x);
      }
      PutHead(q, head.(fired := true, waiting := x.ret == Wait));
    }

    // cmdq_continue
    method ContinueHead(q: nat)
      requires q < |lists|
      modifies this
      ensures St() == Continue(old(St()), q)
    {
      if lists[q] != [] {
        PutHead(q, lists[q][0].(waiting := false));
      }
    }

    // One turn of cmdq_next on a head that is not waiting.
    method RunHead(q: nat) returns (stop: bool)
      requires Good(St()) && q < |lists| && lists[q] != [] && !lists[q][0].waiting
      modifies this
      ensures Good(St()) && |lists| == |old(lists)|
      ensures ListOk(old(lists)[q]) && ListOk(lists[q])
      ensures Next(old(St()), q) == if stop then St() else Next(St(), q)
      ensures !stop ==> Remaining(lists[q]) < Remaining(old(lists[q]))
    {
      hide Owed, Fire, Unfired, Left, Items, RemoveAt;
      ghost var s := St();
      ListsOk(s, q);
      RemainingParts(lists[q]);
      if !lists[q][0].fired {
        FireItems(s, q);
        FireGood(s, q);
        LeftShrinks(s, q);
        FireHead(q);
        ListsOk(St(), q);
        if lists[q][0].waiting {
          return true;
        }
      }
      RemoveHead(St(), q);
      RemoveHeadOthers(St(), q);
      RemainingParts(lists[q]);
      RemainingParts(lists[q][1..]);
      Remove(q, 0);
      return false;
    }

    // cmdq_next
    method RunQueue(q: nat)
      requires Good(St()) && q < |lists|
      modifies this
      ensures Good(St()) && |lists| == |old(lists)|
      ensures ListOk(old(lists)[q]) && St() == Next(old(St()), q)
    {
      hide Good, ListOk, Remaining;
      ghost var s := St();
      ListsOk(s, q);
      while lists[q] != [] && !lists[q][0].waiting
        invariant Good(St()) && |lists| == |s.lists|
        invariant Shaped(St()) && ListOk(lists[q]) && Unfired(lists[q]) && Next(St(), q) == Next(s, q)
        decreases Remaining(lists[q])
      {
        var stop := RunHead(q);
        ListsOk(St(), q);
        if stop {
          return;
        }
      }
    }
  }

  lemma ListsOk(s: Sched, q: nat)
    requires Good(s) && q < |s.lists|
    ensures Shaped(s) && ListOk(s.lists[q]) && Unfired(s.lists[q])
  {
  }

  // What cmdq_next has still to do.
  function Remaining(list: seq<Entry>): nat {
    2 * Sizes(Left(list)) + if list != [] && list[0].fired then 1 else 0
  }

  lemma RemainingParts(list: seq<Entry>)
    ensures list != [] && list[0].fired ==> Left(list) == Items(list[1..]) && Remaining(list) == 2 * Sizes(Items(list[1..])) + 1
    ensures list != [] && !list[0].fired ==> Remaining(list) == 2 * Sizes(Left(list))
  {
  }

  lemma LeftShrinks(s: Sched, q: nat)
    requires Shaped(s) && q < |s.lists| && s.lists[q] != [] && !s.lists[q][0].fired
    ensures var items := Items(s.lists[q]);
      items != [] && Left(s.lists[q]) == items && Sizes(After(items, q, |s.lists|)) < Sizes(items)
  {
    AfterSize(Items(s.lists[q]), q, |s.lists|);
  }

  lemma RemoveShape(s: Sched, q: nat, i: nat)
    requires q < |s.lists| && i < |s.lists[q]|
    ensures var r := RemoveAt(s, q, i); |r.lists| == |s.lists| && |r.lists[q]| == |s.lists[q]| - 1
  {
  }

  lemma InsertShape(s: Sched, q: nat, i: nat, chain: seq<Item>)
    requires Shaped(s) && q < |s.lists| && i < |s.lists[q]|
    ensures var r := InsertAt(s, q, i, chain);
      Shaped(r) && |r.lists| == |s.lists| && |r.lists[q]| == |s.lists[q]| + |chain|
  {
    FreshLength(chain, s.lists[q][i].client);
  }

  lemma AppendGrows(s: Sched, q: nat, chain: seq<Item>)
    requires Shaped(s) && q < |s.lists|
    ensures var r := AppendTo(s, q, chain);
      Shaped(r) && |r.lists| == |s.lists| && forall d :: 0 <= d < |s.lists| ==> |s.lists[d]| <= |r.lists[d]|
  {
  }

  lemma HeadShape(s: Sched, q: nat, x: Entry)
    requires Shaped(s) && q < |s.lists| && s.lists[q] != []
    ensures var r := SetHead(s, q, x); Shaped(r) && |r.lists| == |s.lists| && r.lists[q] != [] && r.lists[q][0] == x
  {
  }
}
