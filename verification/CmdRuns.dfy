// Runs of the queues, stopping for items that wait.

module CmdRuns {
  import opened CmdQueue
  import opened CmdScheduler

  ghost predicate ListOk(list: seq<Entry>) {
    Unfired(list) && (list != [] && list[0].waiting ==> list[0].fired)
  }

  // What holds between firings: each client has exactly the references of the queued items that name it.
  ghost predicate Good(s: Sched) {
    && Shaped(s)
    && (forall q :: 0 <= q < |s.lists| ==> ListOk(s.lists[q]))
    && (forall c :: 0 < c < |s.lists| ==> Owed(s, c) == 0)
  }

  lemma RemoveHead(s: Sched, q: nat)
    requires Shaped(s) && q < |s.lists| && s.lists[q] != [] && Unfired(s.lists[q])
    ensures var r := RemoveAt(s, q, 0);
      && Shaped(r) && |r.lists| == |s.lists| && r.trace == s.trace && r.lists[q] == s.lists[q][1..]
      && ListOk(r.lists[q]) && Left(r.lists[q]) == Items(s.lists[q][1..])
      && (r.lists[q] != [] ==> !r.lists[q][0].fired)
  {
  }

  // cmdq_next
  function Next(s: Sched, q: nat): (r: Sched)
    requires Shaped(s) && q < |s.lists| && Unfired(s.lists[q])
    ensures Shaped(r) && |r.lists| == |s.lists|
    decreases Sizes(Left(s.lists[q])), if s.lists[q] != [] && s.lists[q][0].fired then 1 else 0
  {
    var list := s.lists[q];
    if list == [] || list[0].waiting then s
    else if list[0].fired then
      RemoveHead(s, q);
      Next(RemoveAt(s, q, 0), q)
    else
      FireItems(s, q);
      AfterSize(Items(list), q, |s.lists|);
      var s1 := Fire(s, q);
      RemoveHead(s1, q);
      if s1.lists[q][0].waiting then s1 else Next(RemoveAt(s1, q, 0), q)
  }

  // cmdq_continue on the head
  function Continue(s: Sched, q: nat): Sched
    requires q < |s.lists|
  {
    if s.lists[q] == [] then s else SetHead(s, q, s.lists[q][0].(waiting := false))
  }

  // r is s with other queues than q only appended to.
  ghost predicate OthersGrow(s: Sched, r: Sched, q: nat) {
    && |r.lists| == |s.lists| && |r.trace| == |s.trace| && |s.trace| == |s.lists|
    && (forall d :: 0 <= d < |s.lists| && d != q ==>
          && r.trace[d] == s.trace[d] && Left(s.lists[d]) <= Left(r.lists[d])
          && (s.lists[d] != [] ==> r.lists[d] != [] && r.lists[d][0] == s.lists[d][0])
          && ListOk(r.lists[d]))
  }

  lemma OthersGrowTwice(s: Sched, r: Sched, t: Sched, q: nat)
    requires OthersGrow(s, r, q) && OthersGrow(r, t, q)
    ensures OthersGrow(s, t, q)
  {
    hide Left, ListOk;
  }

  lemma ExtendedOk(list: seq<Entry>, r: seq<Entry>, chain: seq<Item>)
    requires Extended(list, r, chain) && ListOk(list)
    ensures ListOk(r)
  {
    hide Items, Unfired;
  }

  lemma ExtendedLeft(list: seq<Entry>, r: seq<Entry>, chain: seq<Item>)
    requires Extended(list, r, chain) && ListOk(list)
    ensures ListOk(r) && Left(r) == Left(list) + chain
  {
    hide Items, Unfired, ListOk;
    ExtendedOk(list, r, chain);
    if list == [] {
      assert Items([]) == [] by { ItemsNone(); }
      assert Left(r) == [] + chain;
    } else if list[0].fired {
      ItemsHead(list, 0);
      ItemsHead(r, 0);
      assert [list[0].item] + Items(list[1..]) + chain == [list[0].item] + (Items(list[1..]) + chain);
      Cancel(list[0].item, Items(r[1..]), Items(list[1..]) + chain);
    }
  }

  // Firing the head of a queue appends to another queue exactly what its item appends there.
  lemma FireArrives(s: Sched, q: nat, d: nat)
    requires Shaped(s) && q < |s.lists| && s.lists[q] != [] && d < |s.lists| && d != q && ListOk(s.lists[d])
    ensures var r, list := Fire(s, q), s.lists[d];
      && |r.lists| == |r.trace| == |s.lists| && r.trace[d] == s.trace[d] && ListOk(r.lists[d])
      && Left(r.lists[d]) == Left(list) + Appended(s.lists[q][0].item.acts, d, |s.lists|)
      && (list != [] ==> r.lists[d] != [] && r.lists[d][0] == list[0])
  {
    hide Left, Extended, Items, DoActs, RemoveGroup, Fresh;
    var head := s.lists[q][0];
    var x, n := head.item, |s.lists|;
    var lent := if x.command && head.client == 0 then Queue(x.found, n) else head.client;
    var s1 := SetHead(s.(trace := s.trace[q := s.trace[q] + [x.id]]), q, head.(client := lent));
    var s2 := DoActs(s1, q, x.acts, 0);
    DoActsShape(s1, q, x.acts, 0);
    var s3 := SetHead(s2, q, head);
    InsertHead(s3, q, x.hook);
    var s4 := if Failed(x) then InsertAt(s3, q, 0, x.hook) else s3;
    RemoveGroupHead(s4, q, 1, x.group);
    DoActsOthers(s1, q, x.acts, 0, d);
    assert Fire(s, q).lists[d] == s2.lists[d];
    ExtendedLeft(s.lists[d], s2.lists[d], Appended(x.acts, d, n));
    ExtendedHead(s.lists[d], s2.lists[d], Appended(x.acts, d, n));
  }

  lemma FireOthers(s: Sched, q: nat)
    requires Shaped(s) && q < |s.lists| && s.lists[q] != [] && forall d :: 0 <= d < |s.lists| ==> ListOk(s.lists[d])
    ensures OthersGrow(s, Fire(s, q), q)
  {
    hide Left, Fire, ListOk, Appended;
    var r := Fire(s, q);
    FireShape(s, q);
    forall d | 0 <= d < |s.lists| && d != q
      ensures r.trace[d] == s.trace[d] && Left(s.lists[d]) <= Left(r.lists[d]) && ListOk(r.lists[d])
        && (s.lists[d] != [] ==> r.lists[d] != [] && r.lists[d][0] == s.lists[d][0])
    {
      FireArrives(s, q, d);
    }
  }

  lemma FireShape(s: Sched, q: nat)
    requires Shaped(s) && q < |s.lists| && s.lists[q] != [] && ListOk(s.lists[q])
    ensures |Fire(s, q).lists| == |Fire(s, q).trace| == |s.lists|
  {
    hide Left;
    FireItems(s, q);
  }

  lemma ExtendedHead(list: seq<Entry>, r: seq<Entry>, chain: seq<Item>)
    requires Extended(list, r, chain)
    ensures list != [] ==> r != [] && r[0] == list[0]
  {
  }

  lemma RemoveHeadOthers(s: Sched, q: nat)
    requires Good(s) && q < |s.lists| && s.lists[q] != []
    ensures Good(RemoveAt(s, q, 0)) && OthersGrow(s, RemoveAt(s, q, 0), q)
  {
    hide Owed, Unfired;
    var r := RemoveAt(s, q, 0);
    RemoveHead(s, q);
    forall c | 0 < c < |s.lists|
      ensures Owed(r, c) == 0
    {
      RemoveOwed(s, q, 0, c);
    }
  }

  lemma FireGood(s: Sched, q: nat)
    requires Good(s) && q < |s.lists| && s.lists[q] != []
    ensures Good(Fire(s, q))
  {
    hide Owed, Unfired, Fire, Left;
    var r := Fire(s, q);
    FireItems(s, q);
    FireOthers(s, q);
    forall c | 0 < c < |s.lists|
      ensures Owed(r, c) == 0
    {
      FireOwed(s, q, c);
    }
  }

  // cmdq_next runs the queue in program order, up to an item that waits, and touches other queues only
  // to append to them.
  lemma {:induction false} NextKeeps(s: Sched, q: nat)
    requires Good(s) && q < |s.lists|
    ensures var r, n := Next(s, q), |s.lists|;
      && Good(r) && |r.lists| == n && OthersGrow(s, r, q)
      && (r.lists[q] == [] || r.lists[q][0].waiting)
      && r.trace[q] + Iter(Left(r.lists[q]), q, n) == s.trace[q] + Iter(Left(s.lists[q]), q, n)
    decreases Sizes(Left(s.lists[q])), if s.lists[q] != [] && s.lists[q][0].fired then 1 else 0
  {
    hide Owed, Unfired, Fire, OthersGrow, RemoveAt, Items, After;
    var list, n := s.lists[q], |s.lists|;
    assert ListOk(list);
    if list == [] || list[0].waiting {
      SameOthers(s, q);
    } else if list[0].fired {
      RemoveHead(s, q);
      RemoveHeadOthers(s, q);
      var t := RemoveAt(s, q, 0);
      NextKeeps(t, q);
      OthersGrowTwice(s, t, Next(t, q), q);
    } else {
      var items := Items(list);
      FireItems(s, q);
      FireGood(s, q);
      FireOthers(s, q);
      IterOnce(list, q, n);
      AfterSize(items, q, n);
      var s1 := Fire(s, q);
      assert s.trace[q] + ([list[0].item.id] + Iter(After(items, q, n), q, n))
             == s1.trace[q] + Iter(After(items, q, n), q, n);
      if !s1.lists[q][0].waiting {
        RemoveHead(s1, q);
        RemoveHeadOthers(s1, q);
        var t := RemoveAt(s1, q, 0);
        NextKeeps(t, q);
        OthersGrowTwice(s, s1, t, q);
        OthersGrowTwice(s, t, Next(t, q), q);
      }
    }
  }

  lemma IterOnce(list: seq<Entry>, q: nat, n: nat)
    requires list != []
    ensures var items := Items(list);
      items != [] && Iter(items, q, n) == [list[0].item.id] + Iter(After(items, q, n), q, n)
  {
    hide After;
  }

  lemma SameOthers(s: Sched, q: nat)
    requires Good(s)
    ensures OthersGrow(s, s, q)
  {
  }

  // ----- Runs -----

  // cmdq_next, cmdq_continue, cmdq_append from outside, and cmdq_insert_after an item that waits.
  datatype Event = Ran(q: nat) | Resumed(q: nat) | Added(q: nat, chain: seq<Item>) | AddedAfter(q: nat, chain: seq<Item>)

  function Step(s: Sched, x: Event): Sched
    requires Shaped(s) && x.q < |s.lists| && Unfired(s.lists[x.q])
  {
    match x
    case Ran(q) => Next(s, q)
    case Resumed(q) => Continue(s, q)
    case Added(q, chain) => AppendTo(s, q, chain)
    case AddedAfter(q, chain) => if s.lists[q] != [] && s.lists[q][0].fired then InsertAt(s, q, 0, chain) else s
  }

  lemma ContinueGood(s: Sched, q: nat)
    requires Good(s) && q < |s.lists|
    ensures Good(Continue(s, q)) && Left(Continue(s, q).lists[q]) == Left(s.lists[q])
  {
    hide Owed, Items;
    if s.lists[q] != [] {
      var x := s.lists[q][0].(waiting := false);
      assert ListOk(s.lists[q]);
      SetHeadItems(s.lists[q], x);
      forall c | 0 < c < |s.lists|
        ensures Owed(Continue(s, q), c) == 0
      {
        SetHeadOwed(s, q, x, c);
      }
    }
  }

  lemma AppendGood(s: Sched, q: nat, chain: seq<Item>)
    requires Good(s) && q < |s.lists|
    ensures var r := AppendTo(s, q, chain);
      Good(r) && r.trace == s.trace && Left(r.lists[q]) == Left(s.lists[q]) + chain
  {
    hide Owed, Items, Left, Unfired, Fresh;
    var r := AppendTo(s, q, chain);
    ExtendedOnce(s, q, chain);
    ExtendedLeft(s.lists[q], r.lists[q], chain);
    forall c | 0 < c < |s.lists|
      ensures Owed(r, c) == 0
    {
      AppendOwed(s, q, chain, c);
    }
  }

  lemma InsertGood(s: Sched, q: nat, chain: seq<Item>)
    requires Good(s) && q < |s.lists| && s.lists[q] != [] && s.lists[q][0].fired
    ensures var r := InsertAt(s, q, 0, chain);
      Good(r) && r.trace == s.trace && Left(r.lists[q]) == chain + Left(s.lists[q])
  {
    hide Owed, Items, Unfired;
    var r, list := InsertAt(s, q, 0, chain), s.lists[q];
    assert ListOk(list);
    InsertHead(s, q, chain);
    InsertItems(s, q, 0, chain);
    ItemsHead(list, 0);
    ItemsHead(r.lists[q], 0);
    assert Items(list)[..1] == [list[0].item] && Items(list)[1..] == Items(list[1..]);
    assert [list[0].item] + chain + Items(list[1..]) == [list[0].item] + (chain + Items(list[1..]));
    Cancel(list[0].item, Items(r.lists[q][1..]), chain + Items(list[1..]));
    forall c | 0 < c < |s.lists|
      ensures Owed(r, c) == 0
    {
      InsertOwed(s, q, 0, chain, c);
    }
  }

  lemma StepKeeps(s: Sched, x: Event)
    requires Good(s) && x.q < |s.lists|
    ensures Shaped(s) && ListOk(s.lists[x.q]) && Good(Step(s, x)) && |Step(s, x).lists| == |s.lists|
  {
    hide Owed, OthersGrow, Continue, AppendTo, InsertAt, Next, Left;
    assert ListOk(s.lists[x.q]);
    match x
    case Ran(q) => NextKeeps(s, q);
    case Resumed(q) =>
      ContinueGood(s, q);
      ContinueShape(s, q);
    case Added(q, chain) =>
      AppendGood(s, q, chain);
      AppendShape(s, q, chain);
    case AddedAfter(q, chain) =>
      if s.lists[q] != [] && s.lists[q][0].fired {
        InsertGood(s, q, chain);
        InsertHead(s, q, chain);
      }
  }

  lemma ContinueShape(s: Sched, q: nat)
    requires q < |s.lists|
    ensures |Continue(s, q).lists| == |s.lists|
  {
  }

  lemma AppendShape(s: Sched, q: nat, chain: seq<Item>)
    requires q < |s.lists|
    ensures |AppendTo(s, q, chain).lists| == |s.lists|
  {
  }

  ghost predicate Leads(s: Sched, events: seq<Event>, r: Sched)
    decreases events
  {
    if events == [] then r == s
    else Good(s) && events[0].q < |s.lists| && (StepKeeps(s, events[0]); Leads(Step(s, events[0]), events[1..], r))
  }

  // Any run keeps the references exact and everything behind the head of each queue unfired.
  lemma {:induction false} RunKeeps(s: Sched, events: seq<Event>, r: Sched)
    requires Good(s) && Leads(s, events, r)
    ensures Good(r) && |r.lists| == |s.lists|
    decreases events
  {
    hide Good, Step;
    if events != [] {
      StepKeeps(s, events[0]);
      RunKeeps(Step(s, events[0]), events[1..], r);
    }
  }

  // Nothing arrives on queue q but what it brings itself: every other event leaves what is left of it.
  ghost predicate Undisturbed(s: Sched, q: nat, events: seq<Event>)
    requires Good(s) && q < |s.lists|
    decreases events
  {
    events == [] || (
      events[0].q < |s.lists| && (
        StepKeeps(s, events[0]);
        var t := Step(s, events[0]);
        && (OfQueue(events[0], q) || Left(t.lists[q]) == Left(s.lists[q]))
        && Undisturbed(t, q, events[1..])))
  }

  // Running queue q, or letting it go on.
  predicate OfQueue(x: Event, q: nat) {
    x.q == q && (x.Ran? || x.Resumed?)
  }

  // What has fired from a queue and what its program order says is to come.
  function Plan(s: Sched, q: nat): seq<nat>
    requires q < |s.lists| && q < |s.trace|
  {
    s.trace[q] + Iter(Left(s.lists[q]), q, |s.lists|)
  }

  // The plan of a queue changes only by what arrives on it. Its own running keeps the plan; anything else
  // leaves what has fired and either puts a chain after a fired head or adds to the end of what is left.
  lemma StepPlan(s: Sched, x: Event, d: nat)
    requires Good(s) && x.q < |s.lists| && d < |s.lists|
    ensures Shaped(s) && Unfired(s.lists[x.q])
    ensures var r := Step(s, x);
      && Shaped(r) && |r.lists| == |s.lists|
      && (OfQueue(x, d) ==> Plan(r, d) == Plan(s, d))
      && (!OfQueue(x, d) ==> r.trace[d] == s.trace[d])
      && (!OfQueue(x, d) && !(x.AddedAfter? && x.q == d) ==> Left(s.lists[d]) <= Left(r.lists[d]))
      && (!OfQueue(x, d) && !x.Ran? && x.q != d ==> Left(r.lists[d]) == Left(s.lists[d]))
      && (x.Added? && x.q == d ==> Left(r.lists[d]) == Left(s.lists[d]) + x.chain)
      && (x.AddedAfter? && x.q == d ==>
            Left(r.lists[d]) == (if s.lists[d] != [] && s.lists[d][0].fired then x.chain else []) + Left(s.lists[d]))
  {
    hide Owed, Left, Next, Continue, AppendTo, InsertAt, Iter;
    assert ListOk(s.lists[x.q]);
    match x
    case Ran(q) => NextKeeps(s, q);
    case Resumed(q) =>
      ContinueGood(s, q);
      ContinueOthers(s, q);
    case Added(q, chain) =>
      AppendGood(s, q, chain);
      AppendOthers(s, q, chain);
    case AddedAfter(q, chain) =>
      if s.lists[q] != [] && s.lists[q][0].fired {
        InsertGood(s, q, chain);
        InsertOthers(s, q, chain);
      } else if q == d {
        assert [] + Left(s.lists[d]) == Left(s.lists[d]);
      }
  }

  lemma ContinueOthers(s: Sched, q: nat)
    requires q < |s.lists|
    ensures var r := Continue(s, q);
      |r.lists| == |s.lists| && r.trace == s.trace && forall d :: 0 <= d < |s.lists| && d != q ==> r.lists[d] == s.lists[d]
  {
  }

  lemma AppendOthers(s: Sched, q: nat, chain: seq<Item>)
    requires q < |s.lists|
    ensures var r := AppendTo(s, q, chain);
      |r.lists| == |s.lists| && forall d :: 0 <= d < |s.lists| && d != q ==> r.lists[d] == s.lists[d]
  {
  }

  lemma InsertOthers(s: Sched, q: nat, chain: seq<Item>)
    requires q < |s.lists| && s.lists[q] != []
    ensures var r := InsertAt(s, q, 0, chain);
      |r.lists| == |s.lists| && forall d :: 0 <= d < |s.lists| && d != q ==> r.lists[d] == s.lists[d]
  {
  }

  // However often a queue stops for an item that waits and goes on when it is continued, and whatever else
  // runs in between, what fires is always the start of the program order of what was on it, as long as
  // nothing is added to it from outside; when the queue empties it is all of it.
  lemma {:induction false} RunOrder(s: Sched, q: nat, events: seq<Event>, r: Sched)
    requires Good(s) && q < |s.lists| && Leads(s, events, r) && Undisturbed(s, q, events)
    ensures Good(r) && |r.lists| == |s.lists|
    ensures r.trace[q] + Iter(Left(r.lists[q]), q, |s.lists|) == s.trace[q] + Drain(Left(s.lists[q]), q, |s.lists|)
    ensures r.lists[q] == [] ==> r.trace[q] == s.trace[q] + Drain(Left(s.lists[q]), q, |s.lists|)
    decreases events
  {
    hide Good, Step, Left, Next, Continue, OthersGrow, Iter, Drain;
    var n := |s.lists|;
    RunKeeps(s, events, r);
    IterIsDrain(Left(s.lists[q]), q, n);
    if events != [] {
      StepKeeps(s, events[0]);
      var t := Step(s, events[0]);
      RunOrder(t, q, events[1..], r);
      IterIsDrain(Left(t.lists[q]), q, n);
      StepPlan(s, events[0], q);
    }
    GoodShaped(r);
    if r.lists[q] == [] {
      EmptyLeft(q, n);
      assert r.trace[q] + [] == r.trace[q];
    }
  }

  // ----- Program order whatever else happens -----

  // What is left of a queue is the tree a and then b, and p is fired or planned by then.
  ghost predicate Ahead(s: Sched, q: nat, a: seq<Item>, b: seq<Item>, p: seq<nat>)
    requires q < |s.lists| && q < |s.trace|
  {
    Left(s.lists[q]) == a + b && p <= s.trace[q] + Run(a, q, |s.lists|).trace
  }

  // Firing the first item of the tree.
  lemma FireTree(s: Sched, q: nat, a: seq<Item>, b: seq<Item>, p: seq<nat>) returns (a1: seq<Item>, b1: seq<Item>)
    requires Good(s) && q < |s.lists| && s.lists[q] != [] && !s.lists[q][0].fired && Ahead(s, q, a, b, p)
    ensures Shaped(Fire(s, q)) && q < |Fire(s, q).lists| && Ahead(Fire(s, q), q, a1, b1, p)
  {
    hide Owed, Fire, Inserted, Kills, Dropped, Appended, Run, Items;
    var items, n := Items(s.lists[q]), |s.lists|;
    assert ListOk(s.lists[q]);
    FireItems(s, q);
    HeadItem(s.lists[q]);
    var x := items[0];
    if a == [] {
      a1, b1 := [], After(items, q, n);
      assert a1 + b1 == b1 && a + b == b;
      RunNothing(q, n);
    } else {
      assert (a + b)[0] == a[0] && (a + b)[1..] == a[1..] + b;
      var app := Appended(x.acts, q, n);
      a1, b1 := Dropped(Inserted(x) + a[1..], Kills(x)), Dropped(b + app, Kills(x));
      assert Inserted(x) + (a[1..] + b) + app == (Inserted(x) + a[1..]) + (b + app);
      DroppedConcat(Inserted(x) + a[1..], b + app, Kills(x));
      RunFirst(a, q, n);
      assert s.trace[q] + ([x.id] + Run(a1, q, n).trace) == s.trace[q] + [x.id] + Run(a1, q, n).trace;
    }
  }

  lemma HeadItem(list: seq<Entry>)
    requires list != []
    ensures Items(list) != [] && Items(list)[0] == list[0].item
  {
  }

  // cmdq_next runs the tree before what is behind it.
  lemma {:induction false} NextTree(s: Sched, q: nat, a: seq<Item>, b: seq<Item>, p: seq<nat>)
    returns (a1: seq<Item>, b1: seq<Item>)
    requires Good(s) && q < |s.lists| && Ahead(s, q, a, b, p)
    ensures q < |Next(s, q).lists| && Shaped(Next(s, q)) && Ahead(Next(s, q), q, a1, b1, p)
    decreases Sizes(Left(s.lists[q])), if s.lists[q] != [] && s.lists[q][0].fired then 1 else 0
  {
    hide Owed, Unfired, Fire, OthersGrow, RemoveAt, Items, After, Run;
    var list := s.lists[q];
    assert ListOk(list);
    if list == [] || list[0].waiting {
      a1, b1 := a, b;
    } else if list[0].fired {
      RemoveHead(s, q);
      RemoveHeadOthers(s, q);
      a1, b1 := NextTree(RemoveAt(s, q, 0), q, a, b, p);
    } else {
      a1, b1 := FireTree(s, q, a, b, p);
      var s1 := Fire(s, q);
      FireItems(s, q);
      FireGood(s, q);
      HeadItem(list);
      AfterSize(Items(list), q, |s.lists|);
      if !s1.lists[q][0].waiting {
        RemoveHead(s1, q);
        RemoveHeadOthers(s1, q);
        a1, b1 := NextTree(RemoveAt(s1, q, 0), q, a1, b1, p);
      }
    }
  }

  lemma {:induction false} RunAhead(s: Sched, q: nat, events: seq<Event>, r: Sched, a: seq<Item>, b: seq<Item>, p: seq<nat>)
    returns (a1: seq<Item>, b1: seq<Item>)
    requires Good(s) && q < |s.lists| && q < |s.trace| && Leads(s, events, r) && Ahead(s, q, a, b, p)
    requires forall i :: 0 <= i < |events| && events[i].AddedAfter? ==> events[i].q != q
    ensures q < |r.lists| && q < |r.trace| && Ahead(r, q, a1, b1, p)
    decreases events
  {
    hide Good, Next, OthersGrow, Left, Run, Step;
    a1, b1 := a, b;
    if events != [] {
      var x := events[0];
      StepKeeps(s, x);
      StepPlan(s, x, q);
      var t := Step(s, x);
      if x.Ran? && x.q == q {
        a1, b1 := NextTree(s, q, a, b, p);
        StepRan(s, q);
      } else if x.Resumed? && x.q == q {
        StepResumed(s, q);
      } else {
        b1 := Left(t.lists[q])[|a|..];
        assert Left(t.lists[q]) == a + b1 by {
          assert Left(t.lists[q])[..|a + b|] == a + b;
        }
      }
      a1, b1 := RunAhead(t, q, events[1..], r, a1, b1, p);
    }
  }

  lemma StepRan(s: Sched, q: nat)
    requires Shaped(s) && q < |s.lists| && Unfired(s.lists[q])
    ensures Step(s, Ran(q)) == Next(s, q)
  {
  }

  lemma StepResumed(s: Sched, q: nat)
    requires Good(s) && q < |s.lists|
    ensures Shaped(s) && Unfired(s.lists[q])
    ensures var r := Step(s, Resumed(q));
      q < |r.lists| && q < |r.trace| && Left(r.lists[q]) == Left(s.lists[q]) && r.trace == s.trace && |r.lists| == |s.lists|
  {
    hide Owed, Left;
    assert ListOk(s.lists[q]);
    ContinueGood(s, q);
  }

  // Whatever is appended to a queue and whatever the other queues do, what is on it fires in the order of
  // its tree before anything that arrives later: what has fired is a start of that order or holds it
  // whole. Only putting a chain after the item at the head is excepted.
  lemma RunTree(s: Sched, q: nat, events: seq<Event>, r: Sched)
    requires Good(s) && q < |s.lists| && Leads(s, events, r)
    requires forall i :: 0 <= i < |events| && events[i].AddedAfter? ==> events[i].q != q
    ensures Shaped(s) && Shaped(r) && |r.lists| == |s.lists|
    ensures var tree := s.trace[q] + Run(Left(s.lists[q]), q, |s.lists|).trace;
      && (r.trace[q] <= tree || tree <= r.trace[q])
      && (r.lists[q] == [] ==> tree <= r.trace[q])
  {
    hide Good, Leads, Left, Run;
    var n := |s.lists|;
    RunKeeps(s, events, r);
    GoodShaped(s);
    GoodShaped(r);
    var a := Left(s.lists[q]);
    var p := s.trace[q] + Run(a, q, n).trace;
    assert a + [] == a;
    var a1, b1 := RunAhead(s, q, events, r, a, [], p);
    PrefixesMeet(r.trace[q], p, r.trace[q] + Run(a1, q, n).trace);
    if r.lists[q] == [] {
      EmptyLeft(q, n);
      assert a1 == [];
      RunNothing(q, n);
      assert r.trace[q] + [] == r.trace[q];
    }
  }

  lemma PrefixesMeet(a: seq<nat>, b: seq<nat>, c: seq<nat>)
    requires a <= c && b <= c
    ensures a <= b || b <= a
  {
    if |a| <= |b| {
      assert a == c[..|a|] == b[..|a|];
    } else {
      assert b == c[..|b|] == a[..|b|];
    }
  }

  // ----- Nothing fires twice -----

  // How often a name has fired from each queue or is left on it.
  function Present(s: Sched, id: nat): (r: seq<nat>)
    requires |s.trace| == |s.lists|
    ensures |r| == |s.lists|
    ensures forall d :: 0 <= d < |r| ==> r[d] == multiset(s.trace[d])[id] + Named(Left(s.lists[d]), id)
  {
    seq(|s.lists|, d requires 0 <= d < |s.lists| && |s.trace| == |s.lists| =>
      multiset(s.trace[d])[id] + Named(Left(s.lists[d]), id))
  }

  // How often a name is in the chains that events bring.
  function Brought(events: seq<Event>, id: nat): nat {
    if events == [] then 0
    else (if events[0].Added? || events[0].AddedAfter? then Named(events[0].chain, id) else 0) + Brought(events[1..], id)
  }

  lemma PresentSame(s: Sched, r: Sched, id: nat)
    requires |s.trace| == |s.lists| == |r.lists| && r.trace == s.trace
    requires forall d :: 0 <= d < |s.lists| ==> Left(r.lists[d]) == Left(s.lists[d])
    ensures Present(r, id) == Present(s, id)
  {
    hide Left;
  }

  lemma PresentMore(s: Sched, r: Sched, q: nat, more: nat, id: nat)
    requires |s.trace| == |s.lists| == |r.lists| && r.trace == s.trace && q < |s.lists|
    requires forall d :: 0 <= d < |s.lists| && d != q ==> r.lists[d] == s.lists[d]
    requires Named(Left(r.lists[q]), id) == Named(Left(s.lists[q]), id) + more
    ensures Sum(Present(r, id)) == Sum(Present(s, id)) + more
  {
    hide Left, Named, Sum;
    var u, v := Present(r, id), Present(s, id);
    assert u == v[q := u[q]];
    SumUpdate(v, q, u[q]);
  }

  lemma FireCount(s: Sched, q: nat, id: nat)
    requires Good(s) && q < |s.lists| && s.lists[q] != [] && !s.lists[q][0].fired
    ensures Shaped(s) && Shaped(Fire(s, q)) && Sum(Present(Fire(s, q), id)) <= Sum(Present(s, id))
  {
    hide Owed, Fire, Items, After, Named, Appended, Sum, Unfired;
    var n, items := |s.lists|, Items(s.lists[q]);
    var r, x := Fire(s, q), s.lists[q][0].item;
    assert ListOk(s.lists[q]);
    FireItems(s, q);
    HeadItem(s.lists[q]);
    var a := NamedAppended(x.acts, n, id);
    var u, v := Present(r, id), Present(s, id);
    FiredNamed(items, q, n, id);
    forall d | 0 <= d < n && d != q
      ensures u[d] == v[d] + a[d]
    {
      FireArrives(s, q, d);
      NamedConcat(Left(s.lists[d]), Appended(x.acts, d, n), id);
    }
    assert multiset(s.trace[q] + [x.id])[id] == multiset(s.trace[q])[id] + if x.id == id then 1 else 0;
    SumMoved(u, v, a, q);
  }

  lemma RemoveCount(s: Sched, q: nat, id: nat)
    requires Good(s) && q < |s.lists| && s.lists[q] != [] && s.lists[q][0].fired
    ensures Shaped(s) && Shaped(RemoveAt(s, q, 0)) && Present(RemoveAt(s, q, 0), id) == Present(s, id)
  {
    hide Owed, Unfired, Items;
    RemoveHead(s, q);
    PresentSame(s, RemoveAt(s, q, 0), id);
  }

  lemma {:induction false} NextCount(s: Sched, q: nat, id: nat)
    requires Good(s) && q < |s.lists|
    ensures Shaped(s) && Shaped(Next(s, q)) && Sum(Present(Next(s, q), id)) <= Sum(Present(s, id))
    decreases Sizes(Left(s.lists[q])), if s.lists[q] != [] && s.lists[q][0].fired then 1 else 0
  {
    hide Owed, Unfired, Fire, OthersGrow, RemoveAt, Items, After, Present, Sum;
    var list := s.lists[q];
    assert ListOk(list);
    if list == [] || list[0].waiting {
    } else if list[0].fired {
      RemoveHead(s, q);
      RemoveHeadOthers(s, q);
      RemoveCount(s, q, id);
      NextCount(RemoveAt(s, q, 0), q, id);
    } else {
      FireCount(s, q, id);
      var s1 := Fire(s, q);
      FireItems(s, q);
      FireGood(s, q);
      HeadItem(list);
      AfterSize(Items(list), q, |s.lists|);
      if !s1.lists[q][0].waiting {
        RemoveHead(s1, q);
        RemoveHeadOthers(s1, q);
        RemoveCount(s1, q, id);
        NextCount(RemoveAt(s1, q, 0), q, id);
      }
    }
  }

  lemma StepCount(s: Sched, x: Event, id: nat)
    requires Good(s) && x.q < |s.lists|
    ensures Shaped(s) && Unfired(s.lists[x.q]) && Shaped(Step(s, x))
    ensures Sum(Present(Step(s, x), id)) <= Sum(Present(s, id)) + Brought([x], id)
  {
    hide Owed, Left, Next, Continue, AppendTo, InsertAt, Present, Sum, Named;
    assert ListOk(s.lists[x.q]);
    StepKeeps(s, x);
    match x
    case Ran(q) => NextCount(s, q, id);
    case Resumed(q) =>
      ContinueGood(s, q);
      ContinueOthers(s, q);
      PresentSame(s, Continue(s, q), id);
    case Added(q, chain) =>
      AppendGood(s, q, chain);
      AppendOthers(s, q, chain);
      NamedConcat(Left(s.lists[q]), chain, id);
      PresentMore(s, AppendTo(s, q, chain), q, Named(chain, id), id);
    case AddedAfter(q, chain) =>
      if s.lists[q] != [] && s.lists[q][0].fired {
        InsertGood(s, q, chain);
        InsertOthers(s, q, chain);
        NamedConcat(chain, Left(s.lists[q]), id);
        PresentMore(s, InsertAt(s, q, 0, chain), q, Named(chain, id), id);
      }
  }

  // And nothing fires more often than it appears, over all queues together and over any run: an item that
  // waited does not fire again, and what one item appends to another queue fires there once.
  lemma {:induction false} RunOnce(s: Sched, events: seq<Event>, r: Sched, id: nat)
    requires Good(s) && Leads(s, events, r)
    ensures Shaped(s) && Shaped(r)
    ensures Sum(Present(r, id)) <= Sum(Present(s, id)) + Brought(events, id)
    ensures forall q :: 0 <= q < |r.trace| ==> multiset(r.trace[q])[id] <= Sum(Present(s, id)) + Brought(events, id)
    decreases events
  {
    hide Good, Step, Present, Sum, Named, Left;
    GoodShaped(s);
    RunKeeps(s, events, r);
    GoodShaped(r);
    if events != [] {
      StepKeeps(s, events[0]);
      StepCount(s, events[0], id);
      RunOnce(Step(s, events[0]), events[1..], r, id);
    }
    PresentFired(r, id);
  }

  lemma PresentFired(s: Sched, id: nat)
    requires |s.trace| == |s.lists|
    ensures forall q :: 0 <= q < |s.trace| ==> multiset(s.trace[q])[id] <= Sum(Present(s, id))
  {
    hide Left, Named;
    forall q | 0 <= q < |s.trace|
      ensures multiset(s.trace[q])[id] <= Sum(Present(s, id))
    {
      SumHolds(Present(s, id), q);
    }
  }

  lemma GoodShaped(s: Sched)
    requires Good(s)
    ensures Shaped(s)
  {
  }

  lemma EmptyLeft(q: nat, n: nat)
    ensures Left([]) == [] && Iter([], q, n) == []
  {
  }

  // Nothing on a queue fires while its head waits.
  lemma WaitingBlocks(s: Sched, q: nat)
    requires Good(s) && q < |s.lists| && s.lists[q] != [] && s.lists[q][0].waiting
    ensures Next(s, q) == s
    ensures Left(Next(Continue(s, q), q).lists[q]) != [] ==>
      Next(Continue(s, q), q).lists[q] != [] && Next(Continue(s, q), q).lists[q][0].waiting
  {
    hide Owed, OthersGrow, Left, Iter;
    ContinueGood(s, q);
    NextKeeps(Continue(s, q), q);
    EmptyLeft(q, |s.lists|);
  }
}
