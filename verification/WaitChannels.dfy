// The channels updated in place: a class whose methods do to the tree of channels and to the lists of each
// what the C code does, with its loops, each tied to the function of WaitFor that says what comes of it.

module WaitChannels {
  import opened Strings
  import opened WaitFor

  datatype Past = Past(continued: seq<Item>, accepted: seq<Item>, requests: map<string, seq<Item>>,
                       grants: map<string, seq<Item>>, releases: map<string, nat>)

  lemma {:induction false} PickPush(list: seq<Item>, x: Item, client: nat, picked: bool)
    ensures Pick(list + [x], client, picked) == Pick(list, client, picked) + if (x.client == client) == picked then [x] else []
    decreases |list|
  {
    if list != [] {
      assert (list + [x])[1..] == list[1..] + [x];
      PickPush(list[1..], x, client, picked);
    }
  }

  lemma {:induction false} LostPush(chans: seq<Channel>, c: Channel, client: nat)
    ensures var (rest, more), d := Lost(chans, client), LostChannel(c, client);
      Lost(chans + [c], client) == (rest + if Unused(d) then [] else [d],
                                    more + (Pick(c.waiters, client, true) + Pick(c.lockers, client, true)))
    decreases |chans|
  {
    hide Pick, Unused, LostChannel;
    var d := LostChannel(c, client);
    var last := if Unused(d) then [] else [d];
    if chans == [] {
      assert chans + [c] == [c] && [c][1..] == [];
      var gone := Pick(c.waiters, client, true) + Pick(c.lockers, client, true);
      assert last + [] == last == [] + last && gone + [] == gone == [] + gone;
      assert Lost([], client) == ([], []);
    } else {
      assert (chans + [c])[1..] == chans[1..] + [c];
      LostPush(chans[1..], c, client);
      var (rest, more) := Lost(chans[1..], client);
      var e := LostChannel(chans[0], client);
      var first := if Unused(e) then [] else [e];
      assert first + (rest + last) == first + rest + last;
      var gone := Pick(chans[0].waiters, client, true) + Pick(chans[0].lockers, client, true);
      var gone1 := Pick(c.waiters, client, true) + Pick(c.lockers, client, true);
      assert gone + (more + gone1) == gone + more + gone1;
    }
  }

  lemma {:induction false} FlushPush(chans: seq<Channel>, c: Channel)
    ensures FlushList(chans + [c]).1 == FlushList(chans).1 + (c.waiters + c.lockers) && FlushList(chans).0 == []
    decreases |chans|
  {
    if chans == [] {
      assert chans + [c] == [c] && [c][1..] == [];
      assert c.waiters + c.lockers + [] == c.waiters + c.lockers;
    } else {
      assert (chans + [c])[1..] == chans[1..] + [c];
      FlushPush(chans[1..], c);
      var more := FlushList(chans[1..]).1;
      assert chans[0].waiters + chans[0].lockers + (more + (c.waiters + c.lockers))
             == chans[0].waiters + chans[0].lockers + more + (c.waiters + c.lockers);
    }
  }

  class Channels {
    var chans: seq<Channel>
    ghost var past: Past

    ghost function St(): State
      reads this
    {
      State(chans, past.continued, past.accepted, past.requests, past.grants, past.releases)
    }

    constructor ()
      ensures St() == Start() && Valid(St()) && Fair(St())
    {
      chans, past := [], Past([], [], map[], map[], map[]);
      new;
      assert Balanced(Start());
      StartFair();
    }

    // Where a name is, or would be, in the tree.
    method Find(name: string) returns (p: nat, found: bool)
      ensures p == Position(chans, name) && (found <==> Has(chans, name))
    {
      p := 0;
      while p < |chans| && Strcmp(chans[p].name, name) < 0
        invariant p <= |chans| && Position(chans, name) == p + Position(chans[p..], name)
      {
        assert chans[p..][1..] == chans[p + 1..];
        p := p + 1;
      }
      found := p < |chans| && chans[p].name == name;
    }

    // cmd_wait_for_add: the channel of a name, made new if there is none.
    method FindOrAdd(name: string) returns (p: nat)
      modifies this`chans
      ensures p < |chans| && chans[p] == Lookup(old(chans), name) && p == Position(old(chans), name)
      ensures chans == Store(old(chans), Lookup(old(chans), name))
    {
      hide Strcmp, Position;
      var found;
      p, found := Find(name);
      if !found {
        chans := chans[..p] + [Channel(name, false, false, [], [])] + chans[p..];
      } else {
        assert chans[p := chans[p]] == chans;
      }
    }

    // The p-th channel put back changed, or freed.
    method Put(p: nat, c: Channel, gone: bool)
      requires p < |chans|
      modifies this`chans
      ensures chans == if gone then old(chans)[..p] + old(chans)[p + 1..] else old(chans)[p := c]
    {
      chans := if gone then chans[..p] + chans[p + 1..] else chans[p := c];
    }

    // cmd_wait_for_signal
    method DoSignal(name: string)
      requires Valid(St())
      modifies this
      ensures St() == Signal(old(St()), name) && Valid(St()) && (old(Fair(St())) ==> Fair(St()))
    {
      hide Strcmp, Lookup, Store, StoreUnless, Valid, Fair, Position;
      ghost var s := St();
      SignalKeeps(s, name);
      ValidOk(s);
      var p := FindOrAdd(name);
      var c := chans[p];
      LookupOk(s.chans, name);
      if c.waiters == [] && !c.woken {
        PutBack(s.chans, c.(woken := true), false);
        StoreAlways(s.chans, c.(woken := true));
        Put(p, c.(woken := true), false);
        return;
      }
      // continue each waiter in turn
      var waiters := c.waiters;
      ghost var done: seq<Item> := [];
      while waiters != []
        invariant done + waiters == c.waiters && past == old(past).(continued := old(past).continued + done)
        invariant chans == Store(s.chans, Lookup(s.chans, name))
        decreases |waiters|
      {
        done := done + [waiters[0]];
        past := past.(continued := past.continued + [waiters[0]]);
        waiters := waiters[1..];
      }
      assert done == c.waiters;
      var c1 := c.(waiters := []);
      PutBack(s.chans, c1, Spent(c1));
      Put(p, c1, Spent(c1));
    }

    // cmd_wait_for_wait
    method DoWait(name: string, item: Item) returns (ret: Ret)
      requires Valid(St())
      modifies this
      ensures (ret, St()) == WaitOn(old(St()), name, item) && Valid(St()) && (old(Fair(St())) ==> Fair(St()))
    {
      hide Strcmp, Lookup, Store, StoreUnless, Valid, Fair, Position;
      ghost var s := St();
      WaitKeeps(s, name, item);
      ValidOk(s);
      if item.client == 0 {
        return Error;
      }
      var p := FindOrAdd(name);
      var c := chans[p];
      LookupOk(s.chans, name);
      if c.woken {
        PutBack(s.chans, c, Spent(c));
        Put(p, c, Spent(c));
        return Normal;
      }
      var c1 := c.(waiters := c.waiters + [item]);
      PutBack(s.chans, c1, false);
      StoreAlways(s.chans, c1);
      Put(p, c1, false);
      past := past.(accepted := past.accepted + [item]);
      return Wait;
    }

    // cmd_wait_for_lock
    method DoLock(name: string, item: Item) returns (ret: Ret)
      requires Valid(St())
      modifies this
      ensures (ret, St()) == Lock(old(St()), name, item) && Valid(St()) && (old(Fair(St())) ==> Fair(St()))
    {
      hide Strcmp, Lookup, Store, StoreUnless, Valid, Fair, Position;
      ghost var s := St();
      LockKeeps(s, name, item);
      ValidOk(s);
      if item.client == 0 {
        return Error;
      }
      var p := FindOrAdd(name);
      var c := chans[p];
      LookupOk(s.chans, name);
      past := past.(requests := past.requests[name := Of(past.requests, name) + [item]]);
      var c1 := if c.locked then c.(lockers := c.lockers + [item]) else c.(locked := true);
      PutBack(s.chans, c1, false);
      StoreAlways(s.chans, c1);
      Put(p, c1, false);
      if c.locked {
        past := past.(accepted := past.accepted + [item]);
        return Wait;
      }
      past := past.(grants := past.grants[name := Of(past.grants, name) + [item]]);
      return Normal;
    }

    // cmd_wait_for_unlock: the first to have asked gets the lock, or it is let go.
    method DoUnlock(name: string) returns (ret: Ret)
      requires Valid(St())
      modifies this
      ensures (ret, St()) == Unlock(old(St()), name) && Valid(St()) && (old(Fair(St())) ==> Fair(St()))
    {
      hide Strcmp, Store, StoreUnless, Valid, Fair, Position;
      ghost var s := St();
      UnlockKeeps(s, name);
      ValidOk(s);
      var p, found := Find(name);
      if !found || !chans[p].locked {
        return Error;
      }
      var c := chans[p];
      past := past.(releases := past.releases[name := Times(past.releases, name) + 1]);
      PutFound(s.chans, name, c);
      if c.lockers != [] {
        var c1 := c.(lockers := c.lockers[1..]);
        PutBack(s.chans, c1, false);
        StoreAlways(s.chans, c1);
        Put(p, c1, false);
        past := past.(continued := past.continued + [c.lockers[0]],
                      grants := past.grants[name := Of(past.grants, name) + [c.lockers[0]]]);
      } else {
        var c1 := c.(locked := false);
        PutBack(s.chans, c1, Spent(c1));
        Put(p, c1, Spent(c1));
      }
      return Normal;
    }

    static method FirstOf(list: seq<Item>, client: nat) returns (i: nat)
      ensures i == First(list, client)
    {
      i := 0;
      while i < |list| && list[i].client != client
        invariant i <= |list| && First(list, client) == i + First(list[i..], client)
      {
        assert list[i..][1..] == list[i + 1..];
        i := i + 1;
      }
    }

    // cmd_wait_for_wake
    method DoWake(name: string, client: nat)
      requires Valid(St())
      modifies this
      ensures St() == Wake(old(St()), name, client) && Valid(St())
    {
      hide Strcmp, Store, StoreUnless, Valid, Position, First;
      ghost var s := St();
      WakeKeeps(s, name, client);
      ValidOk(s);
      var p, found := Find(name);
      if !found {
        return;
      }
      var c := chans[p];
      PutFound(s.chans, name, c);
      var i := FirstOf(c.waiters, client);
      if i < |c.waiters| {
        var c1 := c.(waiters := c.waiters[..i] + c.waiters[i + 1..]);
        PutBack(s.chans, c1, Unused(c1));
        Put(p, c1, Unused(c1));
        past := past.(continued := past.continued + [c.waiters[i]]);
        return;
      }
      var j := FirstOf(c.lockers, client);
      if j < |c.lockers| {
        var c1 := c.(lockers := c.lockers[..j] + c.lockers[j + 1..]);
        PutBack(s.chans, c1, Unused(c1));
        Put(p, c1, Unused(c1));
        past := past.(continued := past.continued + [c.lockers[j]]);
      }
    }

    // The inner loops of cmd_wait_for_client_lost: the items of a list that are the client's go on.
    method LetGo(list: seq<Item>, client: nat) returns (kept: seq<Item>)
      modifies this`past
      ensures kept == Pick(list, client, false)
      ensures past == old(past).(continued := old(past).continued + Pick(list, client, true))
    {
      hide Pick;
      kept := [];
      var i := 0;
      NonePicked(client);
      assert past.continued == past.continued + [];
      while i < |list|
        invariant i <= |list| && kept == Pick(list[..i], client, false)
        invariant past == old(past).(continued := old(past).continued + Pick(list[..i], client, true))
      {
        var wi := list[i];
        PickPush(list[..i], wi, client, true);
        PickPush(list[..i], wi, client, false);
        assert list[..i] + [wi] == list[..i + 1];
        if wi.client == client {
          past := past.(continued := past.continued + [wi]);
        } else {
          kept := kept + [wi];
        }
        i := i + 1;
      }
      assert list[..i] == list;
    }

    // cmd_wait_for_client_lost
    method DoLost(client: nat)
      requires Valid(St())
      modifies this
      ensures St() == ClientLost(old(St()), client) && Valid(St())
    {
      hide Lost, Valid, Pick, Unused;
      ghost var s := St();
      ClientLostKeeps(s, client);
      var left: seq<Channel> := [];
      var i := 0;
      NoneLost(client);
      assert s.chans[..0] == [] && past.continued == past.continued + [];
      while i < |chans|
        invariant i <= |chans| && chans == s.chans && left == Lost(chans[..i], client).0
        invariant past == old(past).(continued := old(past).continued + Lost(chans[..i], client).1)
      {
        var c := chans[i];
        LostPush(chans[..i], c, client);
        assert chans[..i] + [c] == chans[..i + 1];
        assert old(past).continued + Lost(chans[..i], client).1 + (Pick(c.waiters, client, true) + Pick(c.lockers, client, true))
               == old(past).continued + Lost(chans[..i + 1], client).1;
        LetGoBoth(past.continued, Pick(c.waiters, client, true), Pick(c.lockers, client, true));
        var waiters := LetGo(c.waiters, client);
        var lockers := LetGo(c.lockers, client);
        var d := c.(waiters := waiters, lockers := lockers);
        if !Unused(d) {
          left := left + [d];
        }
        i := i + 1;
      }
      assert chans[..i] == chans;
      chans := left;
    }

    // The inner loops of cmd_wait_for_flush: every item of a list goes on.
    method LetAllGo(list: seq<Item>)
      modifies this`past
      ensures past == old(past).(continued := old(past).continued + list)
    {
      var i := 0;
      assert past.continued == past.continued + list[..0];
      while i < |list|
        invariant i <= |list| && past == old(past).(continued := old(past).continued + list[..i])
      {
        assert old(past).continued + list[..i] + [list[i]] == old(past).continued + list[..i + 1];
        past := past.(continued := past.continued + [list[i]]);
        i := i + 1;
      }
      assert list[..i] == list;
    }

    // cmd_wait_for_flush
    method DoFlush()
      requires Valid(St())
      modifies this
      ensures St() == Flush(old(St())) && Valid(St()) && chans == []
    {
      hide FlushList, Valid;
      ghost var s := St();
      FlushKeeps(s);
      NoneFlushed();
      assert past.continued == past.continued + [];
      ghost var done: seq<Channel> := [];
      while chans != []
        invariant done + chans == s.chans
        invariant past == old(past).(continued := old(past).continued + FlushList(done).1)
        decreases |chans|
      {
        var c := chans[0];
        FlushPush(done, c);
        assert old(past).continued + FlushList(done).1 + (c.waiters + c.lockers)
               == old(past).continued + FlushList(done + [c]).1;
        LetGoBoth(past.continued, c.waiters, c.lockers);
        LetAllGo(c.waiters);
        LetAllGo(c.lockers);
        done := done + [c];
        assert Spent(FlushedChannel(c)); // so cmd_wait_for_remove always frees it
        chans := chans[1..];
      }
      assert done == s.chans;
      FlushPush(done, Channel("", false, false, [], []));
    }
  }

  lemma ValidOk(s: State)
    requires Valid(s)
    ensures ChannelsOk(s.chans)
  {
  }

  lemma NonePicked(client: nat)
    ensures Pick([], client, true) == Pick([], client, false) == []
  {
  }

  lemma LetGoBoth(a: seq<Item>, b: seq<Item>, c: seq<Item>)
    ensures a + b + c == a + (b + c)
  {
  }

  lemma NoneLost(client: nat)
    ensures Lost([], client) == ([], [])
  {
  }

  lemma NoneFlushed()
    ensures FlushList([]) == ([], [])
  {
  }

  lemma PutFound(chans: seq<Channel>, name: string, c: Channel)
    requires ChannelsOk(chans) && Has(chans, name) && c == chans[Position(chans, name)]
    ensures c.name == name && Store(chans, c) == chans && Lookup(chans, name) == c
  {
    hide Position;
    assert chans[Position(chans, name) := c] == chans;
  }

  // Finding or adding a channel and then changing it is storing it, or leaving it out.
  lemma PutBack(chans: seq<Channel>, c: Channel, gone: bool)
    requires ChannelsOk(chans)
    ensures var p, t := Position(chans, c.name), Store(chans, Lookup(chans, c.name));
      && p < |t|
      && (if gone then t[..p] + t[p + 1..] else t[p := c]) == StoreUnless(chans, c, gone)
  {
    hide Strcmp, Position;
    var p := Position(chans, c.name);
    var t := Store(chans, Lookup(chans, c.name));
    if Has(chans, c.name) {
      assert t == chans;
    } else {
      assert t[..p] == chans[..p] && t[p + 1..] == chans[p..];
      assert chans[..p] + chans[p..] == chans;
      assert t[p := c] == chans[..p] + [c] + chans[p..];
    }
  }
}
