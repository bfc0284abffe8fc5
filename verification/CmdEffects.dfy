// What firing an item does to the queues, entry by entry.

module CmdEffects {
  import opened CmdQueue
  import opened CmdScheduler
  import opened CmdRuns
  import opened Subsequences

  // ----- What is taken out -----

  lemma {:induction false} DroppedWithout(items: seq<Item>, group: nat)
    ensures Without(items, Dropped(items, {group}), (y: Item) => y.group == group)
  {
    hide Without;
    var gone := (y: Item) => y.group == group;
    if items == [] {
      WithoutNone(gone);
    } else {
      DroppedWithout(items[1..], group);
      WithoutCons(items[0], items[1..], Dropped(items[1..], {group}), gone);
      assert [items[0]] + items[1..] == items;
    }
  }

  lemma {:induction false} RemoveGroupWithout(s: Sched, q: nat, i: nat, group: nat)
    requires q < |s.lists| && i <= |s.lists[q]|
    ensures var now := RemoveGroup(s, q, i, group).lists[q];
      now[..i] == s.lists[q][..i] && Without(s.lists[q][i..], now[i..], (e: Entry) => e.item.group == group)
    decreases |s.lists[q]| - i
  {
    hide Without;
    var gone := (e: Entry) => e.item.group == group;
    var list := s.lists[q];
    if i == |list| {
      WithoutNone(gone);
      assert list[i..] == [];
    } else {
      assert list[i..] == [list[i]] + list[i + 1..];
      if list[i].item.group == group {
        var t := RemoveAt(s, q, i);
        RemoveGroupWithout(t, q, i, group);
        assert t.lists[q][i..] == list[i + 1..] && t.lists[q][..i] == list[..i];
        var now := RemoveGroup(s, q, i, group).lists[q];
        WithoutCons(list[i], list[i + 1..], now[i..], gone);
        assert [] + now[i..] == now[i..];
      } else {
        RemoveGroupWithout(s, q, i + 1, group);
        var now := RemoveGroup(s, q, i, group).lists[q];
        WithoutCons(list[i], list[i + 1..], now[i + 1..], gone);
        assert now[..i] == now[..i + 1][..i] == list[..i + 1][..i] == list[..i];
        assert now[i] == now[..i + 1][i] == list[i];
        assert now[i..] == [list[i]] + now[i + 1..];
      }
    }
  }

  // ----- Insertions and appends -----

  // A chain made into entries.
  lemma {:induction false} FreshEach(chain: seq<Item>, client: nat)
    ensures |Fresh(chain, client)| == |chain|
    ensures forall k :: 0 <= k < |chain| ==> Fresh(chain, client)[k] == Entry(chain[k], client, false, false)
  {
    if chain != [] {
      FreshEach(chain[1..], client);
    }
  }

  lemma {:induction false} FreshTwice(a: seq<Item>, b: seq<Item>, client: nat)
    ensures Fresh(a + b, client) == Fresh(a, client) + Fresh(b, client)
    decreases |a|
  {
    if a == [] {
      assert a + b == b;
    } else {
      assert (a + b)[1..] == a[1..] + b;
      FreshTwice(a[1..], b, client);
    }
  }

  // Insertions are made one after another: each goes where it says behind the item, or behind everything
  // the item has inserted if that is not so much, and what was there stays in order around it.
  lemma {:induction false} NetEach(a: seq<Act>, b: seq<Act>, at: nat, chain: seq<Item>, queue: nat, inserted: seq<Item>)
    ensures Net(a + b, inserted) == Net(b, Net(a, inserted))
    ensures Net([Append(queue, chain)], inserted) == inserted
    ensures at <= |inserted| ==> Net([Insert(at, chain)], inserted) == inserted[..at] + chain + inserted[at..]
    ensures at > |inserted| ==> Net([Insert(at, chain)], inserted) == inserted + chain
    decreases |a|
  {
    NetJoined(a, b, inserted);
    assert [Insert(at, chain)][1..] == [] && [Append(queue, chain)][1..] == [];
    assert inserted[..|inserted|] + chain + inserted[|inserted|..] == inserted + chain;
  }

  lemma {:induction false} NetJoined(a: seq<Act>, b: seq<Act>, inserted: seq<Item>)
    ensures Net(a + b, inserted) == Net(b, Net(a, inserted))
    decreases |a|
  {
    if a == [] {
      assert a + b == b;
    } else {
      assert (a + b)[1..] == a[1..] + b && (a + b)[0] == a[0];
      NetOnce(a + b, inserted);
      NetOnce(a, inserted);
      NetJoined(a[1..], b, if a[0].Insert? then Insertion(inserted, a[0].at, a[0].chain) else inserted);
    }
  }

  // Appends go in order to the queue they name, or to the global queue if there is none.
  lemma AppendedEach(a: seq<Act>, b: seq<Act>, to: nat, at: nat, chain: seq<Item>, queue: nat, n: nat)
    requires queue < n
    ensures Appended(a + b, queue, n) == Appended(a, queue, n) + Appended(b, queue, n)
    ensures Appended([Insert(at, chain)], queue, n) == []
    ensures to == queue || (to >= n && queue == 0) ==> Appended([Append(to, chain)], queue, n) == chain
    ensures to != queue && (to < n || queue != 0) ==> Appended([Append(to, chain)], queue, n) == []
  {
    AppendedJoined(a, b, queue, n);
    assert [Insert(at, chain)][1..] == [] && [Append(to, chain)][1..] == [];
  }

  lemma {:induction false} AppendedJoined(a: seq<Act>, b: seq<Act>, queue: nat, n: nat)
    ensures Appended(a + b, queue, n) == Appended(a, queue, n) + Appended(b, queue, n)
    decreases |a|
  {
    hide Appended;
    if a == [] {
      NoActs(queue, n);
      assert a + b == b;
    } else {
      assert (a + b)[1..] == a[1..] + b && (a + b)[0] == a[0];
      AppendedOnce(a + b, queue, n);
      AppendedOnce(a, queue, n);
      AppendedJoined(a[1..], b, queue, n);
    }
  }

  // ----- Firing -----

  // What an item does, entry by entry: what it inserts has the client of the item while it runs, and what
  // it appends has that of the queue.
  lemma {:induction false} DoActsEntries(s: Sched, q: nat, acts: seq<Act>, head: Entry, inserted: seq<Item>, rest: seq<Entry>)
    requires q < |s.lists| && s.lists[q] == [head] + Fresh(inserted, head.client) + rest && |inserted| < |s.lists[q]|
    ensures DoActs(s, q, acts, |inserted|).lists[q] ==
      [head] + Fresh(Net(acts, inserted), head.client) + (rest + Fresh(Appended(acts, q, |s.lists|), q))
    decreases |acts|
  {
    hide Fresh, Net, Appended, Insertion, AppendTo;
    var n, client := |s.lists|, head.client;
    if acts == [] {
      NoActs(q, n);
      FreshNone(q);
      assert rest + [] == rest;
    } else if acts[0].Insert? {
      var at := if acts[0].at <= |inserted| then acts[0].at else |inserted|;
      var chain := acts[0].chain;
      FreshEach(inserted, client);
      assert s.lists[q][at].client == client;
      FreshEach(chain, client);
      NetInsert(acts, inserted, q, n);
      InsertionLength(inserted, at, chain);
      InsertEntries(s.lists[q], head, inserted, at, chain, rest);
      DoActsEntries(InsertAt(s, q, at, chain), q, acts[1..], head, Insertion(inserted, at, chain), rest);
    } else {
      var to, chain := Queue(acts[0].queue, n), acts[0].chain;
      NetOnce(acts, inserted);
      AppendedOnce(acts, q, n);
      var here := if to == q then chain else [];
      FreshTwice(here, Appended(acts[1..], q, n), q);
      AppendEntries(s, to, chain, q);
      var t := AppendTo(s, to, chain);
      assert t.lists[q] == [head] + Fresh(inserted, client) + (rest + Fresh(here, q));
      DoActsEntries(t, q, acts[1..], head, inserted, rest + Fresh(here, q));
      assert rest + Fresh(here, q) + Fresh(Appended(acts[1..], q, n), q) == rest + Fresh(Appended(acts, q, n), q);
    }
  }

  lemma AppendEntries(s: Sched, to: nat, chain: seq<Item>, q: nat)
    requires to < |s.lists| && q < |s.lists|
    ensures var t := AppendTo(s, to, chain);
      |t.lists| == |s.lists| && t.lists[q] == s.lists[q] + Fresh(if to == q then chain else [], q)
  {
    FreshNone(q);
  }

  lemma FreshNone(client: nat)
    ensures Fresh([], client) == []
  {
  }

  lemma InsertEntries(list: seq<Entry>, head: Entry, inserted: seq<Item>, at: nat, chain: seq<Item>, rest: seq<Entry>)
    requires list == [head] + Fresh(inserted, head.client) + rest && at <= |inserted| && at < |list|
    ensures list[..at + 1] + Fresh(chain, head.client) + list[at + 1..]
      == [head] + Fresh(Insertion(inserted, at, chain), head.client) + rest
  {
    hide Fresh;
    var c := head.client;
    FreshEach(inserted, c);
    FreshTwice(inserted[..at], inserted[at..], c);
    assert inserted[..at] + inserted[at..] == inserted;
    FreshEach(inserted[..at], c);
    FreshTwice(inserted[..at] + chain, inserted[at..], c);
    FreshTwice(inserted[..at], chain, c);
    assert list[..at + 1] == [head] + Fresh(inserted[..at], c);
    assert list[at + 1..] == Fresh(inserted[at..], c) + rest;
  }

  lemma {:induction false} DoActsElsewhere(s: Sched, q: nat, acts: seq<Act>, done: nat, d: nat)
    requires q < |s.lists| && done < |s.lists[q]| && d < |s.lists| && d != q
    ensures DoActs(s, q, acts, done).lists[d] == s.lists[d] + Fresh(Appended(acts, d, |s.lists|), d)
    decreases |acts|
  {
    hide Fresh, Appended, AppendTo;
    var n := |s.lists|;
    FreshNone(d);
    if acts == [] {
      NoActs(d, n);
    } else if acts[0].Insert? {
      var at := if acts[0].at <= done then acts[0].at else done;
      FreshLength(acts[0].chain, s.lists[q][at].client);
      AppendedOnce(acts, d, n);
      assert [] + Appended(acts[1..], d, n) == Appended(acts[1..], d, n);
      DoActsElsewhere(InsertAt(s, q, at, acts[0].chain), q, acts[1..], done + |acts[0].chain|, d);
    } else {
      var to, chain := Queue(acts[0].queue, n), acts[0].chain;
      AppendedOnce(acts, d, n);
      var here := if to == d then chain else [];
      FreshTwice(here, Appended(acts[1..], d, n), d);
      AppendEntries(s, to, chain, d);
      AppendEntries(s, to, chain, q);
      DoActsElsewhere(AppendTo(s, to, chain), q, acts[1..], done, d);
      assert s.lists[d] + Fresh(here, d) + Fresh(Appended(acts[1..], d, n), d)
             == s.lists[d] + Fresh(Appended(acts, d, n), d);
    }
  }

  // Firing the head of a queue: it stays as the head with what it returned; behind it come what it inserted,
  // what was there and what it appended. A command that returns an error has its hook put first and then
  // all of its group taken out, if it has one; nothing else is ever taken out and no other hook is put in.
  lemma FireEntries(s: Sched, q: nat)
    requires Shaped(s) && q < |s.lists| && s.lists[q] != []
    ensures var r, head, n := Fire(s, q), s.lists[q][0], |s.lists|;
      var x := head.item;
      var lent := if x.command && head.client == 0 then (if x.found < n then x.found else 0) else head.client;
      var behind := Fresh(Net(x.acts, []), lent) + s.lists[q][1..] + Fresh(Appended(x.acts, q, n), q);
      && |r.lists| == n && r.lists[q] != [] && r.trace == s.trace[q := s.trace[q] + [x.id]]
      && r.lists[q][0] == head.(fired := true, waiting := x.ret == Wait)
      && (x.command && x.ret == Error && x.group != 0 ==>
            Without(Fresh(x.hook, head.client) + behind, r.lists[q][1..], (e: Entry) => e.item.group == x.group))
      && (x.command && x.ret == Error && x.group == 0 ==> r.lists[q][1..] == Fresh(x.hook, head.client) + behind)
      && (!x.command || x.ret != Error ==> r.lists[q][1..] == behind)
  {
    hide DoActs, RemoveGroup, Fresh, Appended, Net, Without;
    var head, n := s.lists[q][0], |s.lists|;
    var x := head.item;
    var lent := if x.command && head.client == 0 then Queue(x.found, n) else head.client;
    var lender := head.(client := lent);
    var s1 := SetHead(s.(trace := s.trace[q := s.trace[q] + [x.id]]), q, lender);
    var rest := s.lists[q][1..];
    FreshEach([], lent);
    assert s1.lists[q] == [lender] + Fresh([], lent) + rest;
    DoActsEntries(s1, q, x.acts, lender, [], rest);
    DoActsShape(s1, q, x.acts, 0);
    var s3 := SetHead(DoActs(s1, q, x.acts, 0), q, head);
    var behind := Fresh(Net(x.acts, []), lent) + rest + Fresh(Appended(x.acts, q, n), q);
    assert s3.lists[q] == [head] + behind;
    FailEntries(s3, q, head, behind);
  }

  lemma FailEntries(s: Sched, q: nat, head: Entry, behind: seq<Entry>)
    requires Shaped(s) && q < |s.lists| && s.lists[q] == [head] + behind
    ensures var x := head.item;
      var s4 := if Failed(x) then InsertAt(s, q, 0, x.hook) else s;
      var s5 := if Failed(x) && x.group != 0 then RemoveGroup(s4, q, 1, x.group) else s4;
      && |s4.lists| == |s.lists| && s4.lists[q] != []
      && |s5.lists| == |s.lists| && s5.lists[q] != [] && s5.trace == s.trace
      && (x.command && x.ret == Error && x.group != 0 ==>
            Without(Fresh(x.hook, head.client) + behind, s5.lists[q][1..], (e: Entry) => e.item.group == x.group))
      && (x.command && x.ret == Error && x.group == 0 ==> s5.lists[q][1..] == Fresh(x.hook, head.client) + behind)
      && (!x.command || x.ret != Error ==> s5.lists[q][1..] == behind)
  {
    hide RemoveGroup, Fresh, Without;
    var x := head.item;
    InsertHead(s, q, x.hook);
    var s4 := if Failed(x) then InsertAt(s, q, 0, x.hook) else s;
    if Failed(x) {
      assert s4.lists[q] == [head] + (Fresh(x.hook, head.client) + behind);
      RemoveGroupHead(s4, q, 1, x.group);
      RemoveGroupWithout(s4, q, 1, x.group);
    }
  }

  // And each other queue gets at its end what the item appended to it.
  lemma FireElsewhere(s: Sched, q: nat, d: nat)
    requires Shaped(s) && q < |s.lists| && s.lists[q] != [] && d < |s.lists| && d != q
    ensures d < |Fire(s, q).lists|
    ensures Fire(s, q).lists[d] == s.lists[d] + Fresh(Appended(s.lists[q][0].item.acts, d, |s.lists|), d)
  {
    hide DoActs, RemoveGroup, Fresh, Appended;
    var head := s.lists[q][0];
    var x := head.item;
    var lent := if x.command && head.client == 0 then Queue(x.found, |s.lists|) else head.client;
    var s1 := SetHead(s.(trace := s.trace[q := s.trace[q] + [x.id]]), q, head.(client := lent));
    DoActsShape(s1, q, x.acts, 0);
    DoActsElsewhere(s1, q, x.acts, 0, d);
    var s3 := SetHead(DoActs(s1, q, x.acts, 0), q, head);
    InsertHead(s3, q, x.hook);
    var s4 := if Failed(x) then InsertAt(s3, q, 0, x.hook) else s3;
    RemoveGroupHead(s4, q, 1, x.group);
  }

  // ----- Order -----

  // What fires after the first item of a queue.
  lemma IterFirst(items: seq<Item>, queue: nat, n: nat) returns (left: seq<Item>)
    requires items != []
    ensures Iter(items, queue, n) == [items[0].id] + Iter(left, queue, n)
    ensures var x := items[0];
      var behind := Net(x.acts, []) + items[1..] + Appended(x.acts, queue, n);
      && (x.command && x.ret == Error && x.group != 0 ==> Without(x.hook + behind, left, (y: Item) => y.group == x.group))
      && (x.command && x.ret == Error && x.group == 0 ==> left == x.hook + behind)
      && (!x.command || x.ret != Error ==> left == behind)
  {
    hide Without, Net, Appended, Dropped;
    var x := items[0];
    left := After(items, queue, n);
    var behind := Net(x.acts, []) + items[1..] + Appended(x.acts, queue, n);
    assert Inserted(x) + items[1..] + Appended(x.acts, queue, n) == (if Failed(x) then x.hook else []) + behind;
    if Failed(x) && x.group != 0 {
      DroppedWithout(x.hook + behind, x.group);
    } else {
      DroppedNone((if Failed(x) then x.hook else []) + behind);
    }
  }

  lemma {:induction false} NamedAmong(items: seq<Item>, id: nat)
    requires forall y :: y in items ==> NamedItem(y, id) == 0
    ensures Named(items, id) == 0
  {
    if items != [] {
      NamedAmong(items[1..], id);
    }
  }

  // A command that fails stops its group: what is only in items of the group never fires from that queue.
  lemma FailedStops(items: seq<Item>, queue: nat, n: nat, id: nat)
    requires items != [] && items[0].command && items[0].ret == Error && items[0].group != 0
    requires var x := items[0];
      forall y :: y in x.hook + Net(x.acts, []) + items[1..] + Appended(x.acts, queue, n) && y.group != x.group ==>
        NamedItem(y, id) == 0
    ensures multiset(Iter(items, queue, n))[id] == if items[0].id == id then 1 else 0
  {
    hide Named, Iter;
    var x := items[0];
    var left := IterFirst(items, queue, n);
    var behind := Net(x.acts, []) + items[1..] + Appended(x.acts, queue, n);
    var all := x.hook + behind;
    assert x.hook + Net(x.acts, []) + items[1..] + Appended(x.acts, queue, n) == all;
    var at: seq<nat> :| Picks(all, left, (y: Item) => y.group == x.group, at);
    forall y | y in left
      ensures NamedItem(y, id) == 0
    {
      var i :| 0 <= i < |left| && left[i] == y;
      assert at[i] in at && all[at[i]] == y;
      assert y in all;
    }
    NamedAmong(left, id);
    FiresOnce(left, queue, n, id);
    assert multiset([x.id] + Iter(left, queue, n)) == multiset{x.id} + multiset(Iter(left, queue, n));
  }

  // Two commands of one group: the second fires if and only if the first does not fail.
  lemma GroupOfTwo(ret: Ret, n: nat)
    requires n > 0
    ensures Iter([Item(1, true, 1, 0, [], ret, []), Item(2, true, 1, 0, [], Normal, [])], 0, n)
      == if ret == Error then [1] else [1, 2]
  {
    var a, b := Item(1, true, 1, 0, [], ret, []), Item(2, true, 1, 0, [], Normal, []);
    NoActs(0, n);
    var after := After([a, b], 0, n);
    assert [a, b][1..] == [b] && [b][1..] == [];
    assert Inserted(a) == [] && Inserted(b) == [];
    assert [] + [b] + [] == [b];
    assert after == Dropped([b], Kills(a)) == if ret == Error then [] else [b];
    assert After([b], 0, n) == Dropped([], {}) == [];
    assert Iter([b], 0, n) == [2] + Iter([], 0, n);
  }

  // ----- Everything fires -----

  // Nothing in a tree fails.
  ghost predicate Calm(items: seq<Item>)
    decreases items
  {
    items == [] || (CalmItem(items[0]) && Calm(items[1..]))
  }

  ghost predicate CalmItem(x: Item)
    decreases x
  {
    (!x.command || x.ret != Error) && x.hook == [] && CalmActs(x.acts)
  }

  ghost predicate CalmActs(acts: seq<Act>)
    decreases acts
  {
    acts == [] || (Calm(acts[0].chain) && CalmActs(acts[1..]))
  }

  lemma {:induction false} CalmConcat(a: seq<Item>, b: seq<Item>)
    ensures Calm(a + b) <==> Calm(a) && Calm(b)
    decreases |a|
  {
    if a == [] {
      assert a + b == b;
    } else {
      assert (a + b)[1..] == a[1..] + b;
      CalmConcat(a[1..], b);
    }
  }

  lemma {:induction false} CalmDone(acts: seq<Act>, inserted: seq<Item>, queue: nat, n: nat)
    requires CalmActs(acts) && Calm(inserted)
    ensures Calm(Net(acts, inserted)) && Calm(Appended(acts, queue, n))
    decreases acts
  {
    if acts != [] {
      var act, rest := acts[0], acts[1..];
      CalmConcat(if act.Append? && Queue(act.queue, n) == queue then act.chain else [], Appended(rest, queue, n));
      if act.Insert? {
        var i := if act.at <= |inserted| then act.at else |inserted|;
        CalmConcat(inserted[..i], inserted[i..]);
        assert inserted[..i] + inserted[i..] == inserted;
        CalmConcat(inserted[..i], act.chain);
        CalmConcat(inserted[..i] + act.chain, inserted[i..]);
        CalmDone(rest, Insertion(inserted, act.at, act.chain), queue, n);
      } else {
        CalmDone(rest, inserted, queue, n);
      }
    }
  }

  // If nothing fails, every item ever inserted in or appended to the only queue fires exactly once.
  lemma {:induction false} AllFire(items: seq<Item>, id: nat)
    requires Calm(items)
    ensures multiset(Iter(items, 0, 1))[id] == Named(items, id)
    decreases Sizes(items)
  {
    hide Without, Net, Appended, Calm, Named, Dropped;
    if items == [] {
      NamedNone(id);
      EmptyLeft(0, 1);
    } else {
      var x, after := items[0], After(items, 0, 1);
      var app := Appended(x.acts, 0, 1);
      CalmHead(items);
      CalmDone(x.acts, [], 0, 1);
      assert Inserted(x) == Net(x.acts, []) by { assert [] + Net(x.acts, []) == Net(x.acts, []); }
      DroppedNone(Inserted(x) + items[1..] + app);
      CalmConcat(Inserted(x) + items[1..], app);
      CalmConcat(Inserted(x), items[1..]);
      AfterSize(items, 0, 1);
      AllFire(after, id);
      CalmNamed(items, id);
      assert multiset([x.id] + Iter(after, 0, 1)) == multiset{x.id} + multiset(Iter(after, 0, 1));
    }
  }

  lemma CalmHead(items: seq<Item>)
    requires items != [] && Calm(items)
    ensures Calm([]) && CalmItem(items[0]) && Calm(items[1..])
  {
  }

  lemma CalmNamed(items: seq<Item>, id: nat)
    requires items != [] && CalmItem(items[0])
    ensures var x := items[0];
      Named(Net(x.acts, []) + items[1..] + Appended(x.acts, 0, 1), id) + (if x.id == id then 1 else 0) == Named(items, id)
  {
    hide Net, Appended;
    var x := items[0];
    NamedConcat(Net(x.acts, []) + items[1..], Appended(x.acts, 0, 1), id);
    NamedConcat(Net(x.acts, []), items[1..], id);
    ActsNamedAll(x.acts, [], 1, id);
    assert NamedAppended(x.acts, 1, id) == [Named(Appended(x.acts, 0, 1), id)];
    SumOne(Named(Appended(x.acts, 0, 1), id));
  }

  lemma SumOne(k: nat)
    ensures Sum([k]) == k
  {
    assert [k][1..] == [];
  }

  // ----- Going on -----

  lemma {:induction false} NextGrows(s: Sched, q: nat)
    requires Good(s) && q < |s.lists|
    ensures Shaped(s) && ListOk(s.lists[q]) && Shaped(Next(s, q)) && q < |Next(s, q).trace|
    ensures s.trace[q] <= Next(s, q).trace[q]
    decreases Sizes(Left(s.lists[q])), if s.lists[q] != [] && s.lists[q][0].fired then 1 else 0
  {
    hide Owed, Unfired, Fire, OthersGrow, RemoveAt, Items, After;
    var list := s.lists[q];
    assert ListOk(list);
    if list == [] || list[0].waiting {
    } else if list[0].fired {
      RemoveHead(s, q);
      RemoveHeadOthers(s, q);
      NextGrows(RemoveAt(s, q, 0), q);
    } else {
      FireItems(s, q);
      FireGood(s, q);
      HeadItem(list);
      AfterSize(Items(list), q, |s.lists|);
      var s1 := Fire(s, q);
      if !s1.lists[q][0].waiting {
        RemoveHead(s1, q);
        RemoveHeadOthers(s1, q);
        NextGrows(RemoveAt(s1, q, 0), q);
      }
    }
  }

  // Continuing the item that waits changes nothing but that it waits; the queue then goes on as if it were
  // gone, and the one behind it fires.
  lemma ContinueGoesOn(s: Sched, q: nat)
    requires Good(s) && q < |s.lists| && s.lists[q] != [] && s.lists[q][0].waiting
    ensures Shaped(Continue(s, q)) && Good(Continue(s, q)) && Good(RemoveAt(s, q, 0))
    ensures ListOk(Continue(s, q).lists[q]) && ListOk(RemoveAt(s, q, 0).lists[q])
    ensures Continue(s, q) == s.(lists := s.lists[q := [s.lists[q][0].(waiting := false)] + s.lists[q][1..]])
    ensures Next(Continue(s, q), q) == Next(RemoveAt(s, q, 0), q)
    ensures |s.lists[q]| > 1 ==> s.trace[q] + [s.lists[q][1].item.id] <= Next(Continue(s, q), q).trace[q]
  {
    hide Owed, Fire, Unfired, Left, OthersGrow;
    var t, gone := Continue(s, q), RemoveAt(s, q, 0);
    assert ListOk(s.lists[q]);
    ContinueGood(s, q);
    assert s.lists[q][0 := s.lists[q][0].(waiting := false)] == [s.lists[q][0].(waiting := false)] + s.lists[q][1..];
    RemoveHead(s, q);
    RemoveHeadOthers(s, q);
    assert RemoveAt(t, q, 0) == gone by {
      assert t.lists[q][..0] + t.lists[q][1..] == s.lists[q][..0] + s.lists[q][1..];
      assert s.lists[q := t.lists[q]][q := gone.lists[q]] == s.lists[q := gone.lists[q]];
    }
    assert ListOk(t.lists[q]);
    if |s.lists[q]| > 1 {
      FireItems(gone, q);
      FireGood(gone, q);
      var s1 := Fire(gone, q);
      assert s1.trace[q] == s.trace[q] + [s.lists[q][1].item.id];
      if !s1.lists[q][0].waiting {
        RemoveHead(s1, q);
        RemoveHeadOthers(s1, q);
        NextGrows(RemoveAt(s1, q, 0), q);
      }
    }
  }
}
