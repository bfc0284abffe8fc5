// The queues as they are run, and the references they hold: firing an item is what it does while it runs,
// then its hook and the removal of its group if it fails, and leaves what program order says is next.

module CmdScheduler {
  import opened CmdQueue

  // An item on a queue; client is 0 for none.
  datatype Entry = Entry(item: Item, client: nat, fired: bool, waiting: bool)

  // lists[c] is the queue of client c and lists[0] the global queue; refs[c] the references queued items
  // hold on client c; trace[c] what has fired from the queue of c.
  datatype Sched = Sched(lists: seq<seq<Entry>>, refs: seq<int>, trace: seq<seq<nat>>)

  ghost predicate Shaped(s: Sched) {
    |s.lists| > 0 && |s.refs| == |s.lists| && |s.trace| == |s.lists|
  }

  function Fresh(chain: seq<Item>, client: nat): seq<Entry> {
    if chain == [] then [] else [Entry(chain[0], client, false, false)] + Fresh(chain[1..], client)
  }

  function Items(list: seq<Entry>): seq<Item> {
    if list == [] then [] else [list[0].item] + Items(list[1..])
  }

  function Refer(refs: seq<int>, client: nat, more: int): seq<int> {
    if client == 0 || client >= |refs| then refs else refs[client := refs[client] + more]
  }

  // ----- Operations -----

  function AppendTo(s: Sched, q: nat, chain: seq<Item>): Sched
    requires q < |s.lists|
  {
    s.(lists := s.lists[q := s.lists[q] + Fresh(chain, q)], refs := Refer(s.refs, q, |chain|))
  }

  // After the i-th entry, with its client.
  function InsertAt(s: Sched, q: nat, i: nat, chain: seq<Item>): Sched
    requires q < |s.lists| && i < |s.lists[q]|
  {
    var list := s.lists[q];
    var client := list[i].client;
    s.(lists := s.lists[q := list[..i + 1] + Fresh(chain, client) + list[i + 1..]],
       refs := Refer(s.refs, client, |chain|))
  }

  function RemoveAt(s: Sched, q: nat, i: nat): Sched
    requires q < |s.lists| && i < |s.lists[q]|
  {
    var list := s.lists[q];
    s.(lists := s.lists[q := list[..i] + list[i + 1..]], refs := Refer(s.refs, list[i].client, -1))
  }

  // cmdq_remove_group, from the i-th entry on
  function RemoveGroup(s: Sched, q: nat, i: nat, group: nat): (r: Sched)
    requires q < |s.lists| && i <= |s.lists[q]|
    ensures |r.lists| == |s.lists| && i <= |r.lists[q]|
    decreases |s.lists[q]| - i
  {
    if i == |s.lists[q]| then s
    else if s.lists[q][i].item.group == group then RemoveGroup(RemoveAt(s, q, i), q, i, group)
    else RemoveGroup(s, q, i + 1, group)
  }

  function SetHead(s: Sched, q: nat, x: Entry): Sched
    requires q < |s.lists| && s.lists[q] != []
  {
    s.(lists := s.lists[q := s.lists[q][0 := x]])
  }

  // What an item does while it runs, done entries being inserted after it so far.
  function DoActs(s: Sched, q: nat, acts: seq<Act>, done: nat): (r: Sched)
    requires q < |s.lists| && done < |s.lists[q]|
    ensures |r.lists| == |s.lists| && r.lists[q] != []
    decreases |acts|
  {
    if acts == [] then s
    else if acts[0].Insert? then
      FreshLength(acts[0].chain, s.lists[q][0].client);
      var at := if acts[0].at <= done then acts[0].at else done;
      FreshLength(acts[0].chain, s.lists[q][at].client);
      DoActs(InsertAt(s, q, at, acts[0].chain), q, acts[1..], done + |acts[0].chain|)
    else DoActs(AppendTo(s, Queue(acts[0].queue, |s.lists|), acts[0].chain), q, acts[1..], done)
  }

  lemma {:induction false} FreshLength(chain: seq<Item>, client: nat)
    ensures |Fresh(chain, client)| == |chain|
  {
    if chain != [] {
      FreshLength(chain[1..], client);
    }
  }

  // cmdq_fire_command and cmdq_fire_callback on the head of a queue. A command that has no client is
  // lent one; a command that fails has its hook queued and the rest of its group removed.
  function Fire(s: Sched, q: nat): Sched
    requires Shaped(s) && q < |s.lists| && s.lists[q] != []
  {
    var head := s.lists[q][0];
    var x := head.item;
    var lent := if x.command && head.client == 0 then Queue(x.found, |s.lists|) else head.client;
    var s1 := SetHead(s.(trace := s.trace[q := s.trace[q] + [x.id]]), q, head.(client := lent));
    var s2 := DoActs(s1, q, x.acts, 0);
    var s3 := SetHead(s2, q, head);
    var s4 := if Failed(x) then InsertAt(s3, q, 0, x.hook) else s3;
    var s5 := if Failed(x) && x.group != 0 then RemoveGroup(s4, q, 1, x.group) else s4;
    SetHead(s5, q, head.(fired := true, waiting := x.ret == Wait))
  }

  // ----- References -----

  function Count(list: seq<Entry>, c: nat): nat {
    if list == [] then 0 else (if list[0].client == c then 1 else 0) + Count(list[1..], c)
  }

  function Total(lists: seq<seq<Entry>>, c: nat): nat {
    if lists == [] then 0 else Count(lists[0], c) + Total(lists[1..], c)
  }

  // The references a client has beyond the queued items that name it.
  function Owed(s: Sched, c: nat): int
    requires c < |s.refs|
  {
    s.refs[c] - Total(s.lists, c)
  }

  lemma {:induction false} CountConcat(a: seq<Entry>, b: seq<Entry>, c: nat)
    ensures Count(a + b, c) == Count(a, c) + Count(b, c)
    decreases |a|
  {
    if a == [] {
      assert a + b == b;
    } else {
      assert (a + b)[1..] == a[1..] + b;
      CountConcat(a[1..], b, c);
    }
  }

  lemma {:induction false} CountFresh(chain: seq<Item>, client: nat, c: nat)
    ensures Count(Fresh(chain, client), c) == if client == c then |chain| else 0
  {
    if chain != [] {
      CountFresh(chain[1..], client, c);
    }
  }

  lemma {:induction false} TotalUpdate(lists: seq<seq<Entry>>, q: nat, list: seq<Entry>, c: nat)
    requires q < |lists|
    ensures Total(lists[q := list], c) == Total(lists, c) - Count(lists[q], c) + Count(list, c)
    decreases |lists|
  {
    if q == 0 {
      assert lists[q := list][1..] == lists[1..];
    } else {
      assert lists[q := list][1..] == lists[1..][q - 1 := list];
      TotalUpdate(lists[1..], q - 1, list, c);
    }
  }

  lemma AppendOwed(s: Sched, q: nat, chain: seq<Item>, c: nat)
    requires Shaped(s) && q < |s.lists| && 0 < c < |s.lists|
    ensures Owed(AppendTo(s, q, chain), c) == Owed(s, c)
  {
    CountFresh(chain, q, c);
    CountConcat(s.lists[q], Fresh(chain, q), c);
    TotalUpdate(s.lists, q, s.lists[q] + Fresh(chain, q), c);
  }

  lemma InsertOwed(s: Sched, q: nat, i: nat, chain: seq<Item>, c: nat)
    requires Shaped(s) && q < |s.lists| && i < |s.lists[q]| && 0 < c < |s.lists|
    ensures Owed(InsertAt(s, q, i, chain), c) == Owed(s, c)
  {
    hide Count, Total, Fresh;
    var list := s.lists[q];
    var made := Fresh(chain, list[i].client);
    CountFresh(chain, list[i].client, c);
    CountConcat(list[..i + 1] + made, list[i + 1..], c);
    CountConcat(list[..i + 1], made, c);
    CountConcat(list[..i + 1], list[i + 1..], c);
    assert list[..i + 1] + list[i + 1..] == list;
    TotalUpdate(s.lists, q, list[..i + 1] + made + list[i + 1..], c);
  }

  lemma RemoveOwed(s: Sched, q: nat, i: nat, c: nat)
    requires Shaped(s) && q < |s.lists| && i < |s.lists[q]| && 0 < c < |s.lists|
    ensures Owed(RemoveAt(s, q, i), c) == Owed(s, c)
  {
    hide Total;
    var list := s.lists[q];
    CountConcat(list[..i], list[i + 1..], c);
    CountConcat(list[..i] + [list[i]], list[i + 1..], c);
    CountConcat(list[..i], [list[i]], c);
    assert list[..i] + [list[i]] + list[i + 1..] == list;
    TotalUpdate(s.lists, q, list[..i] + list[i + 1..], c);
  }

  lemma {:induction false} RemoveGroupOwed(s: Sched, q: nat, i: nat, group: nat, c: nat)
    requires Shaped(s) && q < |s.lists| && i <= |s.lists[q]| && 0 < c < |s.lists|
    ensures var r := RemoveGroup(s, q, i, group);
      Shaped(r) && |r.lists| == |s.lists| && Owed(r, c) == Owed(s, c)
    decreases |s.lists[q]| - i
  {
    hide Owed;
    if i == |s.lists[q]| {
    } else if s.lists[q][i].item.group == group {
      RemoveOwed(s, q, i, c);
      RemoveGroupOwed(RemoveAt(s, q, i), q, i, group, c);
    } else {
      RemoveGroupOwed(s, q, i + 1, group, c);
    }
  }

  lemma SetHeadOwed(s: Sched, q: nat, x: Entry, c: nat)
    requires Shaped(s) && q < |s.lists| && s.lists[q] != [] && 0 < c < |s.lists|
    ensures Owed(SetHead(s, q, x), c)
      == Owed(s, c) + (if s.lists[q][0].client == c then 1 else 0) - (if x.client == c then 1 else 0)
  {
    hide Total;
    TotalUpdate(s.lists, q, s.lists[q][0 := x], c);
    assert s.lists[q][0 := x][1..] == s.lists[q][1..];
  }

  lemma {:induction false} DoActsOwed(s: Sched, q: nat, acts: seq<Act>, done: nat, c: nat)
    requires Shaped(s) && q < |s.lists| && done < |s.lists[q]| && 0 < c < |s.lists|
    ensures var r := DoActs(s, q, acts, done);
      Shaped(r) && Owed(r, c) == Owed(s, c) && r.lists[q][0] == s.lists[q][0] && r.trace == s.trace
    decreases |acts|
  {
    hide Owed;
    if acts == [] {
    } else if acts[0].Insert? {
      var at := if acts[0].at <= done then acts[0].at else done;
      FreshLength(acts[0].chain, s.lists[q][at].client);
      InsertOwed(s, q, at, acts[0].chain, c);
      DoActsOwed(InsertAt(s, q, at, acts[0].chain), q, acts[1..], done + |acts[0].chain|, c);
    } else {
      var to := Queue(acts[0].queue, |s.lists|);
      AppendOwed(s, to, acts[0].chain, c);
      DoActsOwed(AppendTo(s, to, acts[0].chain), q, acts[1..], done, c);
    }
  }

  lemma {:induction false} RemoveGroupHead(s: Sched, q: nat, i: nat, group: nat)
    requires Shaped(s) && q < |s.lists| && 0 < i <= |s.lists[q]|
    ensures var r := RemoveGroup(s, q, i, group);
      && Shaped(r) && |r.lists| == |s.lists| && r.lists[q] != [] && r.lists[q][0] == s.lists[q][0] && r.trace == s.trace
      && (forall d :: 0 <= d < |s.lists| && d != q ==> r.lists[d] == s.lists[d])
    decreases |s.lists[q]| - i
  {
    if i == |s.lists[q]| {
    } else if s.lists[q][i].item.group == group {
      RemoveGroupHead(RemoveAt(s, q, i), q, i, group);
    } else {
      RemoveGroupHead(s, q, i + 1, group);
    }
  }

  // Firing an item leaves each client owed what it was: the client lent to a command while it runs
  // holds no reference, and what it inserts holds its own.
  lemma FireOwed(s: Sched, q: nat, c: nat)
    requires Shaped(s) && q < |s.lists| && s.lists[q] != [] && 0 < c < |s.lists|
    ensures Shaped(Fire(s, q)) && |Fire(s, q).lists| == |s.lists| && Owed(Fire(s, q), c) == Owed(s, c)
  {
    hide Owed, DoActs, RemoveGroup, InsertAt, Fresh;
    var head := s.lists[q][0];
    var x := head.item;
    var lent := if x.command && head.client == 0 then Queue(x.found, |s.lists|) else head.client;
    var s0 := s.(trace := s.trace[q := s.trace[q] + [x.id]]);
    var s1 := SetHead(s0, q, head.(client := lent));
    TraceOwed(s, s0.trace, c);
    SetHeadOwed(s0, q, head.(client := lent), c);
    var s2 := DoActs(s1, q, x.acts, 0);
    DoActsOwed(s1, q, x.acts, 0, c);
    var s3 := SetHead(s2, q, head);
    SetHeadOwed(s2, q, head, c);
    assert Owed(s3, c) == Owed(s, c);
    InsertOwed(s3, q, 0, x.hook, c);
    InsertHead(s3, q, x.hook);
    var s4 := if Failed(x) then InsertAt(s3, q, 0, x.hook) else s3;
    RemoveGroupOwed(s4, q, 1, x.group, c);
    RemoveGroupHead(s4, q, 1, x.group);
    var s5 := if Failed(x) && x.group != 0 then RemoveGroup(s4, q, 1, x.group) else s4;
    SetHeadOwed(s5, q, head.(fired := true, waiting := x.ret == Wait), c);
  }

  lemma TraceOwed(s: Sched, trace: seq<seq<nat>>, c: nat)
    requires c < |s.refs|
    ensures Owed(s.(trace := trace), c) == Owed(s, c)
  {
  }

  lemma InsertHead(s: Sched, q: nat, chain: seq<Item>)
    requires Shaped(s) && q < |s.lists| && s.lists[q] != []
    ensures var r := InsertAt(s, q, 0, chain);
      Shaped(r) && |r.lists| == |s.lists| && r.lists[q] != [] && r.lists[q][0] == s.lists[q][0] && r.trace == s.trace
  {
  }

  // ----- Order -----

  lemma {:induction false} ItemsConcat(a: seq<Entry>, b: seq<Entry>)
    ensures Items(a + b) == Items(a) + Items(b)
    decreases |a|
  {
    if a == [] {
      assert a + b == b;
    } else {
      assert (a + b)[1..] == a[1..] + b;
      ItemsConcat(a[1..], b);
    }
  }

  lemma {:induction false} ItemsFresh(chain: seq<Item>, client: nat)
    ensures Items(Fresh(chain, client)) == chain
  {
    if chain != [] {
      ItemsFresh(chain[1..], client);
    }
  }

  lemma {:induction false} ItemsSlices(list: seq<Entry>, i: nat)
    requires i <= |list|
    ensures |Items(list)| == |list|
    ensures Items(list[..i]) == Items(list)[..i] && Items(list[i..]) == Items(list)[i..]
  {
    if list == [] {
    } else if i == 0 {
      ItemsSlices(list[1..], 0);
      assert list[0..] == list && Items(list)[0..] == Items(list);
    } else {
      ItemsSlices(list[1..], i - 1);
      assert list[..i] == [list[0]] + list[1..][..i - 1];
      assert list[i..] == list[1..][i - 1..];
    }
  }

  // No entry behind the head has fired or waits.
  ghost predicate Unfired(list: seq<Entry>) {
    forall i :: 0 < i < |list| ==> !list[i].fired && !list[i].waiting
  }

  lemma {:induction false} FreshUnfired(chain: seq<Item>, client: nat)
    ensures forall i :: 0 <= i < |Fresh(chain, client)| ==>
      !Fresh(chain, client)[i].fired && !Fresh(chain, client)[i].waiting
  {
    if chain != [] {
      FreshUnfired(chain[1..], client);
    }
  }

  lemma InsertItems(s: Sched, q: nat, i: nat, chain: seq<Item>)
    requires q < |s.lists| && i < |s.lists[q]|
    ensures var was, now := Items(s.lists[q]), Items(InsertAt(s, q, i, chain).lists[q]);
      && |was| == |s.lists[q]| && now == was[..i + 1] + chain + was[i + 1..]
    ensures Unfired(s.lists[q]) ==> Unfired(InsertAt(s, q, i, chain).lists[q])
  {
    hide Items, Fresh;
    var list := s.lists[q];
    var made := Fresh(chain, list[i].client);
    ItemsConcat(list[..i + 1] + made, list[i + 1..]);
    ItemsConcat(list[..i + 1], made);
    ItemsFresh(chain, list[i].client);
    ItemsSlices(list, i + 1);
    FreshUnfired(chain, list[i].client);
  }

  lemma AppendItems(s: Sched, q: nat, chain: seq<Item>)
    requires q < |s.lists|
    ensures Items(AppendTo(s, q, chain).lists[q]) == Items(s.lists[q]) + chain
    ensures s.lists[q] != [] && Unfired(s.lists[q]) ==> Unfired(AppendTo(s, q, chain).lists[q])
    ensures s.lists[q] == [] ==> Unfired(AppendTo(s, q, chain).lists[q])
  {
    hide Items, Fresh;
    ItemsConcat(s.lists[q], Fresh(chain, q));
    ItemsFresh(chain, q);
    FreshUnfired(chain, q);
  }

  lemma InsertStep(s: Sched, q: nat, at: nat, chain: seq<Item>, x: Item, inserted: seq<Item>, rest: seq<Item>)
    requires q < |s.lists| && |inserted| < |s.lists[q]| && Unfired(s.lists[q]) && at <= |inserted|
    requires Items(s.lists[q]) == [x] + inserted + rest
    ensures var t := InsertAt(s, q, at, chain);
      && Items(t.lists[q]) == [x] + Insertion(inserted, at, chain) + rest && Unfired(t.lists[q])
      && |Insertion(inserted, at, chain)| < |t.lists[q]|
  {
    hide Items, Unfired, Fresh;
    InsertItems(s, q, at, chain);
    FreshLength(chain, s.lists[q][at].client);
    assert ([x] + inserted + rest)[..at + 1] == [x] + inserted[..at];
    assert ([x] + inserted + rest)[at + 1..] == inserted[at..] + rest;
  }

  lemma AppendStep(s: Sched, q: nat, to: nat, chain: seq<Item>, x: Item, inserted: seq<Item>, rest: seq<Item>)
    requires Shaped(s) && q < |s.lists| && |inserted| < |s.lists[q]| && Unfired(s.lists[q]) && to < |s.lists|
    requires Items(s.lists[q]) == [x] + inserted + rest
    ensures var t, here := AppendTo(s, to, chain), if to == q then chain else [];
      && Items(t.lists[q]) == [x] + inserted + (rest + here) && Unfired(t.lists[q])
      && |inserted| < |t.lists[q]| && Shaped(t) && |t.lists| == |s.lists|
  {
    hide Items, Unfired, Fresh;
    AppendItems(s, to, chain);
    FreshLength(chain, to);
    var here := if to == q then chain else [];
    assert [x] + inserted + rest + here == [x] + inserted + (rest + here);
    assert rest + [] == rest;
  }

  lemma NetInsert(acts: seq<Act>, inserted: seq<Item>, q: nat, n: nat)
    requires acts != [] && acts[0].Insert?
    ensures var at := if acts[0].at <= |inserted| then acts[0].at else |inserted|;
      && Net(acts, inserted) == Net(acts[1..], Insertion(inserted, at, acts[0].chain))
      && Appended(acts, q, n) == Appended(acts[1..], q, n)
  {
    hide Net, Appended;
    assert Net(acts, inserted) == Net(acts[1..], Insertion(inserted, acts[0].at, acts[0].chain)) by { NetOnce(acts, inserted); }
    AppendedOnce(acts, q, n);
  }

  lemma NetOnce(acts: seq<Act>, inserted: seq<Item>)
    requires acts != []
    ensures Net(acts, inserted) ==
      Net(acts[1..], if acts[0].Insert? then Insertion(inserted, acts[0].at, acts[0].chain) else inserted)
  {
  }

  lemma AppendedOnce(acts: seq<Act>, q: nat, n: nat)
    requires acts != []
    ensures Appended(acts, q, n) ==
      (if acts[0].Append? && Queue(acts[0].queue, n) == q then acts[0].chain else []) + Appended(acts[1..], q, n)
  {
  }

  // What an item does puts its insertions between it and the rest, and what it appends at the end.
  lemma {:induction false} DoActsItems(s: Sched, q: nat, acts: seq<Act>, x: Item, inserted: seq<Item>, rest: seq<Item>)
    requires Shaped(s) && q < |s.lists| && |inserted| < |s.lists[q]| && Unfired(s.lists[q])
    requires Items(s.lists[q]) == [x] + inserted + rest
    ensures var r := DoActs(s, q, acts, |inserted|);
      && Items(r.lists[q]) == [x] + Net(acts, inserted) + (rest + Appended(acts, q, |s.lists|))
      && Unfired(r.lists[q])
    decreases |acts|
  {
    hide Items, Unfired, Insertion, Fresh, Net, Appended, AppendTo;
    var n := |s.lists|;
    if acts == [] {
      NoActs(q, n);
      assert rest + [] == rest;
    } else if acts[0].Insert? {
      var at := if acts[0].at <= |inserted| then acts[0].at else |inserted|;
      var chain := acts[0].chain;
      InsertStep(s, q, at, chain, x, inserted, rest);
      NetInsert(acts, inserted, q, n);
      FreshLength(chain, s.lists[q][at].client);
      InsertionLength(inserted, at, chain);
      DoActsItems(InsertAt(s, q, at, chain), q, acts[1..], x, Insertion(inserted, at, chain), rest);
    } else {
      var to, chain := Queue(acts[0].queue, n), acts[0].chain;
      AppendStep(s, q, to, chain, x, inserted, rest);
      NetOnce(acts, inserted);
      AppendedOnce(acts, q, n);
      var here := if to == q then chain else [];
      DoActsItems(AppendTo(s, to, chain), q, acts[1..], x, inserted, rest + here);
      assert rest + here + Appended(acts[1..], q, n) == rest + (here + Appended(acts[1..], q, n));
    }
  }

  lemma NoActs(q: nat, n: nat)
    ensures Appended([], q, n) == [] && forall inserted :: Net([], inserted) == inserted
  {
  }

  lemma InsertionLength(inserted: seq<Item>, at: nat, chain: seq<Item>)
    ensures |Insertion(inserted, at, chain)| == |inserted| + |chain|
  {
  }

  // r is a queue with chain appended.
  ghost predicate Extended(list: seq<Entry>, r: seq<Entry>, chain: seq<Item>) {
    && Items(r) == Items(list) + chain && Unfired(r)
    && (list != [] ==> r != [] && r[0] == list[0])
    && (list == [] && r != [] ==> !r[0].fired && !r[0].waiting)
  }

  lemma ExtendedOnce(s: Sched, q: nat, chain: seq<Item>)
    requires q < |s.lists| && Unfired(s.lists[q])
    ensures Extended(s.lists[q], AppendTo(s, q, chain).lists[q], chain)
  {
    hide Items, Fresh;
    AppendItems(s, q, chain);
    FreshUnfired(chain, q);
  }

  lemma ExtendedTwice(list: seq<Entry>, r: seq<Entry>, t: seq<Entry>, chain: seq<Item>, more: seq<Item>)
    requires Extended(list, r, chain) && Extended(r, t, more)
    ensures Extended(list, t, chain + more)
  {
    hide Unfired;
    assert Items(list) + chain + more == Items(list) + (chain + more);
  }

  // Other queues are only appended to.
  lemma {:induction false} DoActsOthers(s: Sched, q: nat, acts: seq<Act>, done: nat, d: nat)
    requires Shaped(s) && q < |s.lists| && done < |s.lists[q]| && d < |s.lists| && d != q && Unfired(s.lists[d])
    ensures Extended(s.lists[d], DoActs(s, q, acts, done).lists[d], Appended(acts, d, |s.lists|))
    decreases |acts|
  {
    hide Extended, Unfired, Fresh, Appended, Items;
    var n := |s.lists|;
    if acts == [] {
      NoActs(d, n);
      ExtendedNone(s.lists[d]);
    } else if acts[0].Insert? {
      var at := if acts[0].at <= done then acts[0].at else done;
      FreshLength(acts[0].chain, s.lists[q][at].client);
      AppendedOnce(acts, d, n);
      assert [] + Appended(acts[1..], d, n) == Appended(acts[1..], d, n);
      DoActsOthers(InsertAt(s, q, at, acts[0].chain), q, acts[1..], done + |acts[0].chain|, d);
    } else {
      var to, chain := Queue(acts[0].queue, n), acts[0].chain;
      var t := AppendTo(s, to, chain);
      FreshLength(chain, to);
      AppendedOnce(acts, d, n);
      if to == d {
        ExtendedOnce(s, d, chain);
        ExtendedUnfired(s.lists[d], t.lists[d], chain);
        DoActsOthers(t, q, acts[1..], done, d);
        ExtendedTwice(s.lists[d], t.lists[d], DoActs(t, q, acts[1..], done).lists[d], chain, Appended(acts[1..], d, n));
      } else {
        assert [] + Appended(acts[1..], d, n) == Appended(acts[1..], d, n);
        DoActsOthers(t, q, acts[1..], done, d);
      }
    }
  }

  lemma ExtendedNone(list: seq<Entry>)
    requires Unfired(list)
    ensures Extended(list, list, [])
  {
    hide Unfired;
    assert Items(list) + [] == Items(list);
    UnfiredEmpty();
  }

  lemma UnfiredEmpty()
    ensures Unfired([])
  {
  }

  lemma ExtendedUnfired(list: seq<Entry>, r: seq<Entry>, chain: seq<Item>)
    requires Extended(list, r, chain)
    ensures Unfired(r)
  {
  }

  // Exactly the later entries of the group go.
  lemma {:induction false} RemoveGroupItems(s: Sched, q: nat, i: nat, group: nat)
    requires Shaped(s) && q < |s.lists| && 0 < i <= |s.lists[q]| && Unfired(s.lists[q])
    ensures var list, now := s.lists[q], RemoveGroup(s, q, i, group).lists[q];
      && Items(now) == Items(list[..i]) + Dropped(Items(list[i..]), {group})
      && Unfired(now)
    decreases |s.lists[q]| - i
  {
    hide Items, Dropped;
    var list := s.lists[q];
    if i == |list| {
      assert list[..i] == list && list[i..] == [];
      assert Items(list) + [] == Items(list);
      ItemsNone();
    } else {
      assert list[i..][1..] == list[i + 1..];
      ItemsHead(list[i..], group);
      if list[i].item.group == group {
        var t := RemoveAt(s, q, i);
        assert t.lists[q][..i] == list[..i] && t.lists[q][i..] == list[i + 1..];
        RemoveGroupItems(t, q, i, group);
        assert [] + Dropped(Items(list[i + 1..]), {group}) == Dropped(Items(list[i + 1..]), {group});
      } else {
        RemoveGroupItems(s, q, i + 1, group);
        ItemsSlices(list, i);
        ItemsSlices(list, i + 1);
        assert Items(list)[..i + 1] == Items(list)[..i] + [Items(list)[i]];
        assert Items(list[i..])[0] == Items(list)[i];
        assert Items(list)[..i] + [list[i].item] + Dropped(Items(list[i + 1..]), {group})
               == Items(list)[..i] + ([list[i].item] + Dropped(Items(list[i + 1..]), {group}));
      }
    }
  }

  lemma ItemsNone()
    ensures Items([]) == [] && Dropped([], {}) == [] && forall g :: Dropped([], g) == []
  {
  }

  lemma ItemsHead(list: seq<Entry>, group: nat)
    requires list != []
    ensures Items(list) == [list[0].item] + Items(list[1..])
    ensures Dropped(Items(list), {group}) ==
      (if list[0].item.group == group then [] else [list[0].item]) + Dropped(Items(list[1..]), {group})
  {
    assert Items(list)[1..] == Items(list[1..]);
  }

  // ----- Firing -----

  // What is left of a queue to run.
  function Left(list: seq<Entry>): seq<Item> {
    if list == [] then [] else if list[0].fired then Items(list[1..]) else Items(list)
  }

  lemma SetHeadItems(list: seq<Entry>, x: Entry)
    requires list != [] && x.item == list[0].item && Unfired(list)
    ensures Items(list[0 := x]) == Items(list) && Unfired(list[0 := x]) && list[0 := x][1..] == list[1..]
  {
    assert list[0 := x][1..] == list[1..];
  }

  // Firing the head of a queue leaves what program order says is next.
  lemma FireItems(s: Sched, q: nat)
    requires Shaped(s) && q < |s.lists| && s.lists[q] != [] && Unfired(s.lists[q])
    ensures var r, x := Fire(s, q), s.lists[q][0].item;
      && Shaped(r) && |r.lists| == |s.lists| && r.lists[q] != [] && Unfired(r.lists[q])
      && r.lists[q][0] == s.lists[q][0].(fired := true, waiting := x.ret == Wait)
      && Left(r.lists[q]) == After(Items(s.lists[q]), q, |s.lists|)
      && r.trace == s.trace[q := s.trace[q] + [x.id]]
  {
    hide Items, Unfired, DoActs, InsertAt, RemoveGroup, Dropped, Appended, Net;
    var head, list := s.lists[q][0], s.lists[q];
    var x, n := head.item, |s.lists|;
    var lent := if x.command && head.client == 0 then Queue(x.found, n) else head.client;
    var s1 := SetHead(s.(trace := s.trace[q := s.trace[q] + [x.id]]), q, head.(client := lent));
    var rest := Items(list[1..]);
    SetHeadItems(list, head.(client := lent));
    ItemsHead(list, 0);
    assert Items(s1.lists[q]) == [x] + [] + rest;
    DoActsItems(s1, q, x.acts, x, [], rest);
    DoActsShape(s1, q, x.acts, 0);
    var s2 := DoActs(s1, q, x.acts, 0);
    var s3 := SetHead(s2, q, head);
    SetHeadItems(s2.lists[q], head);
    var tail := Net(x.acts, []) + (rest + Appended(x.acts, q, n));
    assert [x] + tail == [x] + Net(x.acts, []) + (rest + Appended(x.acts, q, n));
    FailItems(s3, q, x, tail);
    InsertHead(s3, q, x.hook);
    var s4 := if Failed(x) then InsertAt(s3, q, 0, x.hook) else s3;
    var s5 := if Failed(x) && x.group != 0 then RemoveGroup(s4, q, 1, x.group) else s4;
    SetHeadItems(s5.lists[q], head.(fired := true, waiting := x.ret == Wait));
    ItemsHead(s5.lists[q], 0);
    assert Items(list)[0] == x && Items(list)[1..] == rest;
    AfterParts(Items(list), q, n, tail);
    Cancel(x, Items(s5.lists[q][1..]), After(Items(list), q, n));
  }

  lemma Cancel(x: Item, a: seq<Item>, b: seq<Item>)
    requires [x] + a == [x] + b
    ensures a == b
  {
    assert a == ([x] + a)[1..] == ([x] + b)[1..] == b;
  }

  lemma AfterParts(items: seq<Item>, q: nat, n: nat, tail: seq<Item>)
    requires items != []
    requires var x := items[0]; tail == Net(x.acts, []) + (items[1..] + Appended(x.acts, q, n))
    ensures var x := items[0];
      After(items, q, n) == Dropped((if Failed(x) then x.hook else []) + tail, Kills(x))
  {
    hide Net, Appended, Dropped;
    var x := items[0];
    assert (if Failed(x) then x.hook else []) + tail == Inserted(x) + items[1..] + Appended(x.acts, q, n);
  }

  lemma DoActsShape(s: Sched, q: nat, acts: seq<Act>, done: nat)
    requires Shaped(s) && q < |s.lists| && done < |s.lists[q]|
    ensures var r := DoActs(s, q, acts, done);
      Shaped(r) && |r.lists| == |s.lists| && r.lists[q] != [] && r.lists[q][0] == s.lists[q][0] && r.trace == s.trace
    decreases |acts|
  {
    if acts == [] {
    } else if acts[0].Insert? {
      var at := if acts[0].at <= done then acts[0].at else done;
      FreshLength(acts[0].chain, s.lists[q][at].client);
      DoActsShape(InsertAt(s, q, at, acts[0].chain), q, acts[1..], done + |acts[0].chain|);
    } else {
      DoActsShape(AppendTo(s, Queue(acts[0].queue, |s.lists|), acts[0].chain), q, acts[1..], done);
    }
  }

  // A failed command: the hook behind it, then its group gone from everything behind it.
  lemma FailItems(s: Sched, q: nat, x: Item, tail: seq<Item>)
    requires Shaped(s) && q < |s.lists| && s.lists[q] != [] && Unfired(s.lists[q]) && Items(s.lists[q]) == [x] + tail
    requires s.lists[q][0].item == x
    ensures var s4 := if Failed(x) then InsertAt(s, q, 0, x.hook) else s;
      var s5 := if Failed(x) && x.group != 0 then RemoveGroup(s4, q, 1, x.group) else s4;
      && Shaped(s5) && |s5.lists| == |s.lists| && s5.lists[q] != [] && Unfired(s5.lists[q]) && s5.trace == s.trace
      && s5.lists[q][0] == s.lists[q][0]
      && Items(s5.lists[q]) == [x] + Dropped((if Failed(x) then x.hook else []) + tail, Kills(x))
  {
    hide Items, Unfired, RemoveGroup, Dropped, InsertAt;
    if Failed(x) {
      InsertItems(s, q, 0, x.hook);
      InsertHead(s, q, x.hook);
      assert ([x] + tail)[1..] == tail && ([x] + tail)[..1] == [x];
      var s4 := InsertAt(s, q, 0, x.hook);
      var more := x.hook + tail;
      assert Items(s4.lists[q]) == [x] + more;
      if x.group != 0 {
        RemoveGroupHead(s4, q, 1, x.group);
        RemoveGroupItems(s4, q, 1, x.group);
        ItemsSlices(s4.lists[q], 1);
        assert Items(s4.lists[q])[..1] == [x] && Items(s4.lists[q])[1..] == more;
      } else {
        DroppedNone(more);
      }
    } else {
      DroppedNone(tail);
      assert [] + tail == tail;
    }
  }
}
