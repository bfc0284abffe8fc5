// Queue items that insert, wait, fail and append.

module CmdQueue {
  // ----- Items -----

  datatype Ret = Normal | Error | Wait

  // A command or callback, with what it does when it fires: the chains it inserts after itself or after
  // one it has already inserted, the chains it appends to queues, what it returns and, for a command
  // that fails, the items of the command-error hook. found is the client a command without one is
  // given while it runs. Clients and queues are numbered from one; 0 is no client and the global queue.
  datatype Item = Item(id: nat, command: bool, group: nat, found: nat, acts: seq<Act>, ret: Ret, hook: seq<Item>)
  datatype Act = Insert(at: nat, chain: seq<Item>) | Append(queue: nat, chain: seq<Item>)

  function Size(x: Item): nat
    decreases x
  {
    1 + ActSizes(x.acts) + Sizes(x.hook)
  }

  function ActSizes(acts: seq<Act>): nat
    decreases acts
  {
    if acts == [] then 0 else Sizes(acts[0].chain) + ActSizes(acts[1..])
  }

  function Sizes(items: seq<Item>): nat
    decreases items
  {
    if items == [] then 0 else Size(items[0]) + Sizes(items[1..])
  }

  lemma {:induction false} SizesConcat(a: seq<Item>, b: seq<Item>)
    ensures Sizes(a + b) == Sizes(a) + Sizes(b)
    decreases |a|
  {
    if a == [] {
      assert a + b == b;
    } else {
      assert (a + b)[1..] == a[1..] + b;
      SizesConcat(a[1..], b);
    }
  }

  // ----- Program order -----

  function Insertion(inserted: seq<Item>, at: nat, chain: seq<Item>): seq<Item> {
    var i := if at <= |inserted| then at else |inserted|;
    inserted[..i] + chain + inserted[i..]
  }

  // What is after an item once it has made its insertions, ahead of what was there before.
  function Net(acts: seq<Act>, inserted: seq<Item>): seq<Item> {
    if acts == [] then inserted
    else if acts[0].Insert? then Net(acts[1..], Insertion(inserted, acts[0].at, acts[0].chain))
    else Net(acts[1..], inserted)
  }

  function Failed(x: Item): bool {
    x.command && x.ret == Error
  }

  function Inserted(x: Item): seq<Item> {
    (if Failed(x) then x.hook else []) + Net(x.acts, [])
  }

  // What an item appends to one queue of the n there are.
  function Appended(acts: seq<Act>, queue: nat, n: nat): seq<Item> {
    if acts == [] then []
    else (if acts[0].Append? && Queue(acts[0].queue, n) == queue then acts[0].chain else [])
         + Appended(acts[1..], queue, n)
  }

  function Queue(queue: nat, n: nat): nat {
    if queue < n then queue else 0
  }

  function Kills(x: Item): set<nat> {
    if Failed(x) && x.group != 0 then {x.group} else {}
  }

  function Dropped(items: seq<Item>, groups: set<nat>): seq<Item> {
    if items == [] then []
    else (if items[0].group in groups then [] else [items[0]]) + Dropped(items[1..], groups)
  }

  // Run an item, then its insertions, then the rest: what fires, the groups that fail and what is
  // appended to the queue it is on.
  datatype Outcome = Outcome(trace: seq<nat>, killed: set<nat>, appended: seq<Item>)

  function Run(items: seq<Item>, queue: nat, n: nat): Outcome
    decreases Sizes(items)
  {
    if items == [] then Outcome([], {}, [])
    else
      var x, k := items[0], Kills(items[0]);
      InsertedSize(x, queue, n, k);
      var r1 := Run(Dropped(Inserted(x), k), queue, n);
      DroppedSize(items[1..], k + r1.killed);
      var r2 := Run(Dropped(items[1..], k + r1.killed), queue, n);
      Outcome([x.id] + r1.trace + r2.trace, k + r1.killed + r2.killed,
              Dropped(Appended(x.acts, queue, n), k + r1.killed + r2.killed)
              + Dropped(r1.appended, r2.killed) + r2.appended)
  }

  // The queue as one list: fire the first, put what it inserts ahead of the rest.
  function Iter(items: seq<Item>, queue: nat, n: nat): seq<nat>
    decreases Sizes(items)
  {
    if items == [] then []
    else
      var x := items[0];
      AfterSize(items, queue, n);
      [x.id] + Iter(After(items, queue, n), queue, n)
  }

  // What is on the queue when the first item has gone.
  function After(items: seq<Item>, queue: nat, n: nat): seq<Item>
    requires items != []
  {
    Dropped(Inserted(items[0]) + items[1..] + Appended(items[0].acts, queue, n), Kills(items[0]))
  }

  lemma {:induction false} DroppedSize(items: seq<Item>, groups: set<nat>)
    ensures Sizes(Dropped(items, groups)) <= Sizes(items)
  {
    if items != [] {
      DroppedSize(items[1..], groups);
      SizesConcat(if items[0].group in groups then [] else [items[0]], Dropped(items[1..], groups));
    }
  }

  lemma {:induction false} ActsSize(acts: seq<Act>, inserted: seq<Item>, queue: nat, n: nat)
    ensures Sizes(Net(acts, inserted)) + Sizes(Appended(acts, queue, n)) <= Sizes(inserted) + ActSizes(acts)
    decreases acts
  {
    if acts != [] {
      var act, rest := acts[0], acts[1..];
      if act.Insert? {
        var more := Insertion(inserted, act.at, act.chain);
        var i := if act.at <= |inserted| then act.at else |inserted|;
        SizesConcat(inserted[..i] + act.chain, inserted[i..]);
        SizesConcat(inserted[..i], act.chain);
        SizesConcat(inserted[..i], inserted[i..]);
        assert inserted[..i] + inserted[i..] == inserted;
        ActsSize(rest, more, queue, n);
        assert Appended(acts, queue, n) == [] + Appended(rest, queue, n) == Appended(rest, queue, n);
      } else {
        ActsSize(rest, inserted, queue, n);
        SizesConcat(if Queue(act.queue, n) == queue then act.chain else [], Appended(rest, queue, n));
      }
    }
  }

  lemma InsertedSize(x: Item, queue: nat, n: nat, k: set<nat>)
    ensures Sizes(Inserted(x)) + Sizes(Appended(x.acts, queue, n)) < Size(x)
    ensures Sizes(Dropped(Inserted(x), k)) < Size(x)
  {
    ActsSize(x.acts, [], queue, n);
    SizesConcat(if Failed(x) then x.hook else [], Net(x.acts, []));
    DroppedSize(Inserted(x), k);
  }

  lemma AfterSize(items: seq<Item>, queue: nat, n: nat)
    requires items != []
    ensures Sizes(After(items, queue, n)) < Sizes(items)
  {
    var x := items[0];
    InsertedSize(x, queue, n, {});
    SizesConcat(Inserted(x) + items[1..], Appended(x.acts, queue, n));
    SizesConcat(Inserted(x), items[1..]);
    DroppedSize(Inserted(x) + items[1..] + Appended(x.acts, queue, n), Kills(x));
  }

  // ----- The list and the tree agree -----

  lemma {:induction false} DroppedConcat(a: seq<Item>, b: seq<Item>, groups: set<nat>)
    ensures Dropped(a + b, groups) == Dropped(a, groups) + Dropped(b, groups)
    decreases |a|
  {
    if a == [] {
      assert a + b == b;
    } else {
      assert (a + b)[1..] == a[1..] + b;
      DroppedConcat(a[1..], b, groups);
    }
  }

  lemma {:induction false} DroppedTwice(a: seq<Item>, groups: set<nat>, more: set<nat>)
    ensures Dropped(Dropped(a, groups), more) == Dropped(a, groups + more)
  {
    if a != [] {
      DroppedTwice(a[1..], groups, more);
      DroppedConcat(if a[0].group in groups then [] else [a[0]], Dropped(a[1..], groups), more);
    }
  }

  lemma {:induction false} DroppedNone(a: seq<Item>)
    ensures Dropped(a, {}) == a
  {
    if a != [] {
      DroppedNone(a[1..]);
    }
  }

  // What dropping leaves: exactly the items of other groups, in order.
  lemma {:induction false} DroppedMembers(a: seq<Item>, groups: set<nat>, x: Item)
    ensures multiset(Dropped(a, groups))[x] == if x.group in groups then 0 else multiset(a)[x]
  {
    if a != [] {
      DroppedMembers(a[1..], groups, x);
      assert a == [a[0]] + a[1..];
    }
  }

  lemma DropThree(a: seq<Item>, b: seq<Item>, c: seq<Item>, groups: set<nat>)
    ensures Dropped(a + b + c, groups) == Dropped(a, groups) + Dropped(b, groups) + Dropped(c, groups)
  {
    DroppedConcat(a + b, c, groups);
    DroppedConcat(a, b, groups);
  }

  // Firing one item after another off the list comes to the same as running each item with everything
  // it inserts before the next.
  lemma {:induction false} RunIter(items: seq<Item>, rest: seq<Item>, queue: nat, n: nat)
    ensures var r := Run(items, queue, n);
      Iter(items + rest, queue, n) == r.trace + Iter(Dropped(rest, r.killed) + r.appended, queue, n)
    decreases Sizes(items)
  {
    hide Dropped, Inserted, Kills;
    if items == [] {
      DroppedNone(rest);
      assert items + rest == rest == rest + [];
    } else {
      var x, xs, k := items[0], items[1..], Kills(items[0]);
      var ins, app := Dropped(Inserted(x), k), Appended(x.acts, queue, n);
      InsertedSize(x, queue, n, k);
      var r1 := Run(ins, queue, n);
      var later := Dropped(xs, k + r1.killed);
      DroppedSize(xs, k + r1.killed);
      var r2 := Run(later, queue, n);
      var tail := xs + rest;
      assert (items + rest)[1..] == tail && items + rest != [];
      assert After(items + rest, queue, n) == Dropped(Inserted(x) + tail + app, k);
      DropThree(Inserted(x), tail, app, k);
      var rest1 := Dropped(tail, k) + Dropped(app, k);
      assert ins + Dropped(tail, k) + Dropped(app, k) == ins + rest1;
      RunIter(ins, rest1, queue, n);
      RestOfRun(xs, rest, app, r1.appended, k, r1.killed);
      var rest2 := Dropped(rest, k + r1.killed) + Dropped(app, k + r1.killed) + r1.appended;
      RunIter(later, rest2, queue, n);
      DropThree(Dropped(rest, k + r1.killed), Dropped(app, k + r1.killed), r1.appended, r2.killed);
      DroppedTwice(rest, k + r1.killed, r2.killed);
      DroppedTwice(app, k + r1.killed, r2.killed);
      IterOut(x.id, r1.trace, r2.trace, Iter(items + rest, queue, n), Iter(ins + rest1, queue, n),
              Iter(later + rest2, queue, n), Iter(Dropped(rest2, r2.killed) + r2.appended, queue, n));
      var r := Run(items, queue, n);
      assert Dropped(rest2, r2.killed) + r2.appended == Dropped(rest, r.killed) + r.appended;
    }
  }

  lemma IterOut(id: nat, t1: seq<nat>, t2: seq<nat>, a: seq<nat>, b: seq<nat>, c: seq<nat>, d: seq<nat>)
    requires a == [id] + b && b == t1 + c && c == t2 + d
    ensures a == [id] + t1 + t2 + d
  {
  }

  // What the rest of the queue is after an item's insertions have run.
  lemma RestOfRun(xs: seq<Item>, rest: seq<Item>, app: seq<Item>, appended: seq<Item>, k: set<nat>, k1: set<nat>)
    ensures Dropped(Dropped(xs + rest, k) + Dropped(app, k), k1) + appended
      == Dropped(xs, k + k1) + (Dropped(rest, k + k1) + Dropped(app, k + k1) + appended)
  {
    hide Dropped;
    DroppedConcat(Dropped(xs + rest, k), Dropped(app, k), k1);
    DroppedTwice(xs + rest, k, k1);
    DroppedTwice(app, k, k1);
    DroppedConcat(xs, rest, k + k1);
  }

  lemma RunStep(items: seq<Item>, queue: nat, n: nat)
    requires items != []
    ensures var x, k := items[0], Kills(items[0]);
      var r1 := Run(Dropped(Inserted(x), k), queue, n);
      var r2 := Run(Dropped(items[1..], k + r1.killed), queue, n);
      && Run(items, queue, n).trace == [x.id] + r1.trace + r2.trace
      && Run(items, queue, n).killed == k + r1.killed + r2.killed
  {
  }

  // Running a then b is running a and then what is left of b.
  lemma {:induction false} RunConcat(a: seq<Item>, b: seq<Item>, queue: nat, n: nat)
    ensures var r1 := Run(a, queue, n);
      var r2 := Run(Dropped(b, r1.killed), queue, n);
      && Run(a + b, queue, n).trace == r1.trace + r2.trace
      && Run(a + b, queue, n).killed == r1.killed + r2.killed
    decreases Sizes(a)
  {
    hide Dropped, Inserted, Kills, Run, Sizes;
    if a == [] {
      DroppedNone(b);
      assert a + b == b;
      RunNothing(queue, n);
    } else {
      var x, xs, k := a[0], a[1..], Kills(a[0]);
      RunStep(a, queue, n);
      RunStep(a + b, queue, n);
      var groups := k + Run(Dropped(Inserted(x), k), queue, n).killed;
      DroppedSize(xs, groups);
      TailSize(a);
      assert (a + b)[0] == x && (a + b)[1..] == xs + b;
      DroppedConcat(xs, b, groups);
      RunConcat(Dropped(xs, groups), Dropped(b, groups), queue, n);
      DroppedTwice(b, groups, Run(Dropped(xs, groups), queue, n).killed);
    }
  }

  lemma RunNothing(queue: nat, n: nat)
    ensures Run([], queue, n) == Outcome([], {}, [])
  {
  }

  lemma TailSize(items: seq<Item>)
    requires items != []
    ensures Sizes(items[1..]) < Sizes(items)
  {
  }

  // The first item fires, and the tree goes on with what it inserts and the rest of its groups.
  lemma RunFirst(items: seq<Item>, queue: nat, n: nat)
    requires items != []
    ensures Run(items, queue, n).trace ==
      [items[0].id] + Run(Dropped(Inserted(items[0]) + items[1..], Kills(items[0])), queue, n).trace
  {
    hide Dropped, Inserted, Kills;
    var x, xs, k := items[0], items[1..], Kills(items[0]);
    InsertedSize(x, queue, n, k);
    var r := Run(Dropped(Inserted(x), k), queue, n);
    DroppedConcat(Inserted(x), xs, k);
    RunConcat(Dropped(Inserted(x), k), Dropped(xs, k), queue, n);
    DroppedTwice(xs, k, r.killed);
  }

  // The whole of a queue in program order: the tree, then what it appended, and so on.
  function Drain(items: seq<Item>, queue: nat, n: nat): seq<nat>
    decreases Sizes(items)
  {
    if items == [] then []
    else
      RunSize(items, queue, n);
      Run(items, queue, n).trace + Drain(Run(items, queue, n).appended, queue, n)
  }

  lemma {:induction false} RunSize(items: seq<Item>, queue: nat, n: nat)
    ensures Sizes(Run(items, queue, n).appended) <= Sizes(items)
    ensures items != [] ==> Sizes(Run(items, queue, n).appended) < Sizes(items)
    decreases Sizes(items)
  {
    hide Dropped, Kills;
    if items != [] {
      var x, k := items[0], Kills(items[0]);
      var app := Appended(x.acts, queue, n);
      InsertedSize(x, queue, n, k);
      var r1 := Run(Dropped(Inserted(x), k), queue, n);
      DroppedSize(Inserted(x), k);
      DroppedSize(items[1..], k + r1.killed);
      RunSize(Dropped(Inserted(x), k), queue, n);
      RunSize(Dropped(items[1..], k + r1.killed), queue, n);
      var r2 := Run(Dropped(items[1..], k + r1.killed), queue, n);
      DroppedSize(app, k + r1.killed + r2.killed);
      DroppedSize(r1.appended, r2.killed);
      SizesConcat(Dropped(app, k + r1.killed + r2.killed) + Dropped(r1.appended, r2.killed), r2.appended);
      SizesConcat(Dropped(app, k + r1.killed + r2.killed), Dropped(r1.appended, r2.killed));
    }
  }

  lemma {:induction false} IterIsDrain(items: seq<Item>, queue: nat, n: nat)
    ensures Iter(items, queue, n) == Drain(items, queue, n)
    decreases Sizes(items)
  {
    hide Run;
    if items != [] {
      var r := Run(items, queue, n);
      RunIter(items, [], queue, n);
      assert items + [] == items;
      DroppedNone([]);
      assert Dropped([], r.killed) + r.appended == r.appended;
      RunSize(items, queue, n);
      IterIsDrain(r.appended, queue, n);
    }
  }

  // ----- Nothing fires twice -----

  // How many items of a tree have a name.
  function Named(items: seq<Item>, id: nat): nat
    decreases items
  {
    if items == [] then 0 else NamedItem(items[0], id) + Named(items[1..], id)
  }

  function NamedItem(x: Item, id: nat): nat
    decreases x
  {
    (if x.id == id then 1 else 0) + NamedActs(x.acts, id) + Named(x.hook, id)
  }

  function NamedActs(acts: seq<Act>, id: nat): nat
    decreases acts
  {
    if acts == [] then 0 else Named(acts[0].chain, id) + NamedActs(acts[1..], id)
  }

  lemma {:induction false} NamedConcat(a: seq<Item>, b: seq<Item>, id: nat)
    ensures Named(a + b, id) == Named(a, id) + Named(b, id)
    decreases |a|
  {
    if a == [] {
      assert a + b == b;
    } else {
      assert (a + b)[1..] == a[1..] + b;
      NamedConcat(a[1..], b, id);
    }
  }

  lemma {:induction false} DroppedNamed(items: seq<Item>, groups: set<nat>, id: nat)
    ensures Named(Dropped(items, groups), id) <= Named(items, id)
  {
    if items != [] {
      DroppedNamed(items[1..], groups, id);
      NamedConcat(if items[0].group in groups then [] else [items[0]], Dropped(items[1..], groups), id);
    }
  }

  lemma {:induction false} ActsNamed(acts: seq<Act>, inserted: seq<Item>, queue: nat, n: nat, id: nat)
    ensures Named(Net(acts, inserted), id) + Named(Appended(acts, queue, n), id) <= Named(inserted, id) + NamedActs(acts, id)
    decreases acts
  {
    if acts != [] {
      var act, rest := acts[0], acts[1..];
      if act.Insert? {
        var i := if act.at <= |inserted| then act.at else |inserted|;
        NamedConcat(inserted[..i] + act.chain, inserted[i..], id);
        NamedConcat(inserted[..i], act.chain, id);
        NamedConcat(inserted[..i], inserted[i..], id);
        assert inserted[..i] + inserted[i..] == inserted;
        ActsNamed(rest, Insertion(inserted, act.at, act.chain), queue, n, id);
        assert Appended(acts, queue, n) == [] + Appended(rest, queue, n) == Appended(rest, queue, n);
      } else {
        ActsNamed(rest, inserted, queue, n, id);
        NamedConcat(if Queue(act.queue, n) == queue then act.chain else [], Appended(rest, queue, n), id);
      }
    }
  }

  lemma AfterNamed(items: seq<Item>, queue: nat, n: nat, id: nat)
    requires items != []
    ensures Named(After(items, queue, n), id) + (if items[0].id == id then 1 else 0) <= Named(items, id)
  {
    AfterCount(items, queue, n, id);
    ActsNamed(items[0].acts, [], queue, n, id);
  }

  lemma AfterCount(items: seq<Item>, queue: nat, n: nat, id: nat)
    requires items != []
    ensures var x := items[0];
      && Named(items, id) == NamedItem(x, id) + Named(items[1..], id)
      && Named(After(items, queue, n), id) <= (if Failed(x) then Named(x.hook, id) else 0) + Named(Net(x.acts, []), id)
           + Named(items[1..], id) + Named(Appended(x.acts, queue, n), id)
  {
    hide Dropped, Net, Kills, Appended;
    var x := items[0];
    var app := Appended(x.acts, queue, n);
    DroppedNamed(Inserted(x) + items[1..] + app, Kills(x), id);
    NamedConcat(Inserted(x) + items[1..], app, id);
    NamedConcat(Inserted(x), items[1..], id);
    NamedConcat(if Failed(x) then x.hook else [], Net(x.acts, []), id);
  }

  // ----- Counting over all queues -----

  function Sum(a: seq<nat>): nat {
    if a == [] then 0 else a[0] + Sum(a[1..])
  }

  lemma {:induction false} SumAtMost(u: seq<nat>, v: seq<nat>, a: seq<nat>)
    requires |u| == |v| == |a| && forall d :: 0 <= d < |u| ==> u[d] <= v[d] + a[d]
    ensures Sum(u) <= Sum(v) + Sum(a)
  {
    if u != [] {
      assert forall d :: 0 <= d < |u| - 1 ==> u[1..][d] == u[d + 1] && v[1..][d] == v[d + 1] && a[1..][d] == a[d + 1];
      SumAtMost(u[1..], v[1..], a[1..]);
    }
  }

  lemma {:induction false} SumUpdate(u: seq<nat>, q: nat, x: nat)
    requires q < |u|
    ensures Sum(u[q := x]) == Sum(u) - u[q] + x
    decreases |u|
  {
    if q == 0 {
      assert u[q := x][1..] == u[1..];
    } else {
      assert u[q := x][1..] == u[1..][q - 1 := x];
      SumUpdate(u[1..], q - 1, x);
    }
  }

  lemma {:induction false} SumHolds(a: seq<nat>, q: nat)
    requires q < |a|
    ensures a[q] <= Sum(a)
    decreases |a|
  {
    if q > 0 {
      SumHolds(a[1..], q - 1);
    }
  }

  // What one entry gives up is at least what the others gain.
  lemma SumMoved(u: seq<nat>, v: seq<nat>, a: seq<nat>, q: nat)
    requires q < |u| == |v| == |a|
    requires forall d :: 0 <= d < |u| && d != q ==> u[d] <= v[d] + a[d]
    requires u[q] + Sum(a) <= v[q] + a[q]
    ensures Sum(u) <= Sum(v)
  {
    hide Sum;
    var x: nat := u[q] + Sum(a);
    var w := u[q := x];
    SumUpdate(u, q, x);
    forall d | 0 <= d < |u|
      ensures w[d] <= v[d] + a[d]
    {
      if d != q {
        assert w[d] == u[d];
      }
    }
    SumAtMost(w, v, a);
  }

  // How often a name appears in what an item appends, queue by queue.
  function NamedAppended(acts: seq<Act>, n: nat, id: nat): (r: seq<nat>)
    ensures |r| == n
  {
    seq(n, d requires 0 <= d < n => Named(Appended(acts, d, n), id))
  }

  lemma {:induction false} SumNone(a: seq<nat>)
    requires forall d :: 0 <= d < |a| ==> a[d] == 0
    ensures Sum(a) == 0
  {
    if a != [] {
      SumNone(a[1..]);
    }
  }

  // Over all queues an item appends and inserts exactly what it holds.
  lemma {:induction false} ActsNamedAll(acts: seq<Act>, inserted: seq<Item>, n: nat, id: nat)
    requires n > 0
    ensures Named(Net(acts, inserted), id) + Sum(NamedAppended(acts, n, id)) == Named(inserted, id) + NamedActs(acts, id)
    decreases acts
  {
    hide Named, Insertion;
    if acts == [] {
      NamedNone(id);
      SumNone(NamedAppended(acts, n, id));
    } else {
      var act, rest := acts[0], acts[1..];
      if act.Insert? {
        InsertionNamed(inserted, act.at, act.chain, id);
        ActsNamedAll(rest, Insertion(inserted, act.at, act.chain), n, id);
        assert NamedAppended(acts, n, id) == NamedAppended(rest, n, id) by {
          forall d: nat | d < n
            ensures Appended(acts, d, n) == Appended(rest, d, n)
          {
            assert Appended(acts, d, n) == [] + Appended(rest, d, n);
          }
        }
      } else {
        var q, a := Queue(act.queue, n), NamedAppended(rest, n, id);
        ActsNamedAll(rest, inserted, n, id);
        forall d: nat | d < n
          ensures NamedAppended(acts, n, id)[d] == a[d] + if d == q then Named(act.chain, id) else 0
        {
          NamedNone(id);
          NamedConcat(if d == q then act.chain else [], Appended(rest, d, n), id);
        }
        assert NamedAppended(acts, n, id) == a[q := a[q] + Named(act.chain, id)];
        SumUpdate(a, q, a[q] + Named(act.chain, id));
      }
    }
  }

  lemma NamedNone(id: nat)
    ensures Named([], id) == 0
  {
  }

  lemma InsertionNamed(inserted: seq<Item>, at: nat, chain: seq<Item>, id: nat)
    ensures Named(Insertion(inserted, at, chain), id) == Named(inserted, id) + Named(chain, id)
  {
    var i := if at <= |inserted| then at else |inserted|;
    NamedConcat(inserted[..i] + chain, inserted[i..], id);
    NamedConcat(inserted[..i], chain, id);
    NamedConcat(inserted[..i], inserted[i..], id);
    assert inserted[..i] + inserted[i..] == inserted;
  }

  // Firing an item leaves, with all it appends to any queue, no more than was there.
  lemma FiredNamed(items: seq<Item>, queue: nat, n: nat, id: nat)
    requires items != [] && queue < n
    ensures var a := NamedAppended(items[0].acts, n, id);
      Named(After(items, queue, n), id) + (if items[0].id == id then 1 else 0) + Sum(a) <= Named(items, id) + a[queue]
  {
    hide Named, Net, Appended, After, Sum;
    AfterCount(items, queue, n, id);
    ActsNamedAll(items[0].acts, [], n, id);
    NamedNone(id);
  }

  // Each item fires at most as often as it appears: once, if every item is its own.
  lemma {:induction false} FiresOnce(items: seq<Item>, queue: nat, n: nat, id: nat)
    ensures multiset(Iter(items, queue, n))[id] <= Named(items, id)
    decreases Sizes(items)
  {
    hide After, Named;
    if items != [] {
      AfterSize(items, queue, n);
      FiresOnce(After(items, queue, n), queue, n, id);
      AfterNamed(items, queue, n, id);
      var rest := Iter(After(items, queue, n), queue, n);
      assert multiset([items[0].id] + rest) == multiset{items[0].id} + multiset(rest);
    }
  }
}
