// What each operation on a wait channel does.

module WaitEffects {
  import opened Subsequences
  import opened Strings
  import opened WaitFor

  // Of the channels only the one of c's name is different, and it is c.
  ghost predicate Becomes(was: seq<Channel>, now: seq<Channel>, c: Channel) {
    Sorted(now) && forall d :: d in now <==> d == c || (d in was && d.name != c.name)
  }

  // Only the one called name is different, and it is gone.
  ghost predicate Goes(was: seq<Channel>, now: seq<Channel>, name: string) {
    Sorted(now) && forall d :: d in now <==> d in was && d.name != name
  }

  lemma StoreBecomes(chans: seq<Channel>, c: Channel)
    requires ChannelsOk(chans) && ChannelOk(c)
    ensures Becomes(chans, Store(chans, c), c)
  {
    hide Store, Strcmp;
    StoreSame(chans, c);
    StoreSorted(chans, c);
    OneOfName(Store(chans, c), c);
  }

  lemma OneOfName(chans: seq<Channel>, c: Channel)
    requires Sorted(chans) && c in chans
    ensures forall d :: d in chans && d.name == c.name ==> d == c
  {
    LookupMember(chans, c.name);
  }

  lemma EraseGoes(chans: seq<Channel>, name: string)
    requires ChannelsOk(chans)
    ensures Goes(chans, Erase(chans, name), name)
  {
    hide Erase, Strcmp, ChannelOk;
    EraseSame(chans, name);
  }

  // A channel kept as c or freed.
  lemma KeptOrFreed(chans: seq<Channel>, c: Channel, gone: bool)
    requires ChannelsOk(chans) && ChannelOk(c)
    ensures gone ==> Goes(chans, StoreUnless(chans, c, gone), c.name)
    ensures !gone ==> Becomes(chans, StoreUnless(chans, c, gone), c)
  {
    hide Store, Erase, ChannelsOk, ChannelOk, Becomes, Goes;
    if gone {
      EraseGoes(chans, c.name);
    } else {
      StoreBecomes(chans, c);
    }
  }

  // A signal lets every waiter go on, in order, and leaves the channel not woken. With no one waiting it
  // wakes the channel, or takes a woken one away unless it is locked.
  lemma SignalEffect(s: State, name: string)
    requires Valid(s)
    ensures var c, r := Lookup(s.chans, name), Signal(s, name);
      && r == s.(chans := r.chans, continued := s.continued + c.waiters)
      && Lookup(r.chans, name).waiters == []
      && (c.waiters != [] ==> Becomes(s.chans, r.chans, Channel(name, c.locked, false, [], c.lockers)))
      && (c.waiters == [] && !c.woken ==> Becomes(s.chans, r.chans, Channel(name, c.locked, true, [], c.lockers)))
      && (c.woken && c.locked ==> Becomes(s.chans, r.chans, c))
      && (c.woken && !c.locked ==> Goes(s.chans, r.chans, name))
  {
    hide Lookup, Store, StoreUnless, ChannelsOk, Balanced, Becomes, Goes;
    var c := Lookup(s.chans, name);
    LookupOk(s.chans, name);
    assert s.continued + [] == s.continued;
    if c.waiters == [] && !c.woken {
      StoreBecomes(s.chans, c.(woken := true));
      ChangeOk(s.chans, c.(woken := true), false);
      StoreAlways(s.chans, c.(woken := true));
    } else {
      KeptOrFreed(s.chans, c.(waiters := []), Spent(c.(waiters := [])));
      ChangeOk(s.chans, c.(waiters := []), Spent(c.(waiters := [])));
    }
  }

  // A wait on a woken channel does not wait, and takes the channel away unless it is locked; any other
  // joins the end of the waiters. An item with no client cannot wait.
  lemma WaitEffect(s: State, name: string, item: Item)
    requires Valid(s)
    ensures var c, ret, r := Lookup(s.chans, name), WaitOn(s, name, item).0, WaitOn(s, name, item).1;
      && (item.client == 0 ==> ret == Error && r == s)
      && (item.client != 0 && c.woken ==> ret == Normal && r == s.(chans := r.chans))
      && (item.client != 0 && c.woken && c.locked ==> Becomes(s.chans, r.chans, c))
      && (item.client != 0 && c.woken && !c.locked ==> Goes(s.chans, r.chans, name))
      && (item.client != 0 && !c.woken ==>
            && ret == Wait && r == s.(chans := r.chans, accepted := s.accepted + [item])
            && Becomes(s.chans, r.chans, Channel(name, c.locked, false, c.waiters + [item], c.lockers)))
  {
    hide Lookup, Store, StoreUnless, ChannelsOk, Balanced, Becomes, Goes;
    var c := Lookup(s.chans, name);
    LookupOk(s.chans, name);
    if c.woken {
      KeptOrFreed(s.chans, c, Spent(c));
    } else {
      StoreBecomes(s.chans, c.(waiters := c.waiters + [item]));
    }
  }

  // A lock is taken if it is free; if not the item joins the end of the lockers.
  lemma LockEffect(s: State, name: string, item: Item)
    requires Valid(s)
    ensures var c, ret, r := Lookup(s.chans, name), Lock(s, name, item).0, Lock(s, name, item).1;
      && (item.client == 0 ==> ret == Error && r == s)
      && (item.client != 0 && c.locked ==>
            && ret == Wait && r.accepted == s.accepted + [item] && r.continued == s.continued
            && Becomes(s.chans, r.chans, Channel(name, true, c.woken, c.waiters, c.lockers + [item])))
      && (item.client != 0 && !c.locked ==>
            && ret == Normal && r.accepted == s.accepted && r.continued == s.continued
            && Becomes(s.chans, r.chans, Channel(name, true, c.woken, c.waiters, [])))
  {
    hide Lookup, Store, StoreUnless, ChannelsOk, Balanced, Becomes, Goes;
    var c := Lookup(s.chans, name);
    LookupOk(s.chans, name);
    if c.locked {
      StoreBecomes(s.chans, c.(lockers := c.lockers + [item]));
    } else {
      StoreBecomes(s.chans, c.(locked := true));
    }
  }

  // An unlock lets the first locker go on with the lock, or frees it; the channel then goes if it is
  // woken and, as it can have no waiters, nothing is left of it.
  lemma UnlockEffect(s: State, name: string)
    requires Valid(s)
    ensures var c, ret, r := Lookup(s.chans, name), Unlock(s, name).0, Unlock(s, name).1;
      && (!c.locked ==> ret == Error && r == s)
      && (c.locked ==> ret == Normal && r.accepted == s.accepted)
      && (c.locked && c.lockers != [] ==>
            && r.continued == s.continued + [c.lockers[0]]
            && Becomes(s.chans, r.chans, Channel(name, true, c.woken, c.waiters, c.lockers[1..])))
      && (c.locked && c.lockers == [] ==> r.continued == s.continued)
      && (c.locked && c.lockers == [] && !c.woken ==> Becomes(s.chans, r.chans, Channel(name, false, false, c.waiters, [])))
      && (c.locked && c.lockers == [] && c.woken ==> Goes(s.chans, r.chans, name))
  {
    hide Lookup, Store, StoreUnless, ChannelsOk, Balanced, Becomes, Goes;
    var c := Lookup(s.chans, name);
    LookupOk(s.chans, name);
    if c.locked && c.lockers != [] {
      StoreBecomes(s.chans, c.(lockers := c.lockers[1..]));
    } else if c.locked {
      KeptOrFreed(s.chans, c.(locked := false), Spent(c.(locked := false)));
    }
  }

  // The i-th item of a list is the first of its client.
  ghost predicate FirstOf(list: seq<Item>, client: nat, i: nat) {
    i < |list| && list[i].client == client && forall k :: 0 <= k < i ==> list[k].client != client
  }

  ghost predicate NoneOf(list: seq<Item>, client: nat) {
    forall k :: 0 <= k < |list| ==> list[k].client != client
  }

  // Waking lets the first waiter of the client go on, or its first locker if none waits, and frees a channel
  // with nothing left; for a client that neither waits nor locks there nothing happens.
  lemma WakeEffect(s: State, name: string, client: nat, i: nat)
    requires Valid(s)
    ensures var c, r := Lookup(s.chans, name), Wake(s, name, client);
      && (FirstOf(c.waiters, client, i) ==>
            var left := c.waiters[..i] + c.waiters[i + 1..];
            && r == s.(chans := r.chans, continued := s.continued + [c.waiters[i]])
            && (c.locked || left != [] ==> Becomes(s.chans, r.chans, Channel(name, c.locked, false, left, c.lockers)))
            && (!c.locked && left == [] ==> Goes(s.chans, r.chans, name)))
      && (NoneOf(c.waiters, client) && FirstOf(c.lockers, client, i) ==>
            && r == s.(chans := r.chans, continued := s.continued + [c.lockers[i]])
            && Becomes(s.chans, r.chans, Channel(name, true, c.woken, c.waiters, c.lockers[..i] + c.lockers[i + 1..])))
      && (NoneOf(c.waiters, client) && NoneOf(c.lockers, client) ==> r == s)
  {
    hide Store, StoreUnless, ChannelsOk, Balanced, Becomes, Goes, First, Position;
    var c := Lookup(s.chans, name);
    LookupOk(s.chans, name);
    FirstMember(c.waiters, client);
    FirstMember(c.lockers, client);
    if FirstOf(c.waiters, client, i) {
      assert First(c.waiters, client) == i;
      var c1 := c.(waiters := c.waiters[..i] + c.waiters[i + 1..]);
      KeptOrFreed(s.chans, c1, Unused(c1));
    } else if NoneOf(c.waiters, client) && FirstOf(c.lockers, client, i) {
      assert First(c.lockers, client) == i;
      var c1 := c.(lockers := c.lockers[..i] + c.lockers[i + 1..]);
      KeptOrFreed(s.chans, c1, Unused(c1));
    }
  }

  // ----- Lost clients and flushes -----

  // Everyone queued: channel by channel, waiters before lockers.
  function Everyone(chans: seq<Channel>): seq<Item> {
    if chans == [] then [] else chans[0].waiters + chans[0].lockers + Everyone(chans[1..])
  }

  // What a channel is without the items of a client.
  ghost predicate Rid(c: Channel, d: Channel, client: nat) {
    && d.name == c.name && d.locked == c.locked && d.woken == c.woken
    && Without(c.waiters, d.waiters, (x: Item) => x.client == client)
    && Without(c.lockers, d.lockers, (x: Item) => x.client == client)
  }

  lemma {:induction false} PickWithout(list: seq<Item>, client: nat)
    ensures Without(list, Pick(list, client, true), (x: Item) => x.client != client)
    ensures Without(list, Pick(list, client, false), (x: Item) => x.client == client)
  {
    hide Without;
    var others, own := (x: Item) => x.client != client, (x: Item) => x.client == client;
    if list == [] {
      WithoutNone(others);
      WithoutNone(own);
    } else {
      PickWithout(list[1..], client);
      WithoutCons(list[0], list[1..], Pick(list[1..], client, true), others);
      WithoutCons(list[0], list[1..], Pick(list[1..], client, false), own);
      assert [list[0]] + list[1..] == list;
    }
  }

  lemma {:induction false} LostPeople(chans: seq<Channel>, client: nat)
    ensures Without(Everyone(chans), Lost(chans, client).1, (x: Item) => x.client != client)
  {
    hide Without, Pick;
    var others := (x: Item) => x.client != client;
    if chans == [] {
      WithoutNone(others);
    } else {
      var w, l := chans[0].waiters, chans[0].lockers;
      PickWithout(w, client);
      PickWithout(l, client);
      LostPeople(chans[1..], client);
      WithoutConcat(w, l, Pick(w, client, true), Pick(l, client, true), others);
      WithoutConcat(w + l, Everyone(chans[1..]), Pick(w, client, true) + Pick(l, client, true), Lost(chans[1..], client).1, others);
    }
  }

  lemma {:induction false} LostChannels(chans: seq<Channel>, client: nat, c: Channel, d: Channel)
    requires c in chans && Rid(c, d, client)
    ensures d.locked || d.woken || d.waiters != [] || d.lockers != [] ==> d in Lost(chans, client).0
  {
    hide Without, Pick;
    if chans[0] == c {
      RidIsLost(c, d, client);
    } else {
      LostChannels(chans[1..], client, c, d);
    }
  }

  lemma RidIsLost(c: Channel, d: Channel, client: nat)
    requires Rid(c, d, client)
    ensures d == LostChannel(c, client)
  {
    hide Without, Pick;
    PickWithout(c.waiters, client);
    PickWithout(c.lockers, client);
    WithoutSame(c.waiters, d.waiters, Pick(c.waiters, client, false), (x: Item) => x.client == client);
    WithoutSame(c.lockers, d.lockers, Pick(c.lockers, client, false), (x: Item) => x.client == client);
  }

  lemma {:induction false} LostFrom(chans: seq<Channel>, client: nat, d: Channel) returns (c: Channel)
    requires d in Lost(chans, client).0
    ensures c in chans && Rid(c, d, client) && (d.locked || d.woken || d.waiters != [] || d.lockers != [])
  {
    hide Without, Pick;
    c := chans[0];
    if d == LostChannel(c, client) && !Unused(d) {
      PickWithout(c.waiters, client);
      PickWithout(c.lockers, client);
    } else {
      c := LostFrom(chans[1..], client, d);
    }
  }

  // A lost client's items go on, channel by channel, waiters before lockers. Each channel is left as it was
  // without them, and is freed exactly if it is then not locked, not woken and empty.
  lemma LostEffect(s: State, client: nat, d: Channel)
    requires Valid(s)
    ensures var r := ClientLost(s, client);
      && |r.continued| >= |s.continued|
      && r == s.(chans := r.chans, continued := s.continued + r.continued[|s.continued|..])
      && Without(Everyone(s.chans), r.continued[|s.continued|..], (x: Item) => x.client != client)
      && (d in r.chans <==> (exists c :: c in s.chans && Rid(c, d, client))
                            && (d.locked || d.woken || d.waiters != [] || d.lockers != []))
  {
    hide Lost, Without, Rid, Valid;
    var more := Lost(s.chans, client).1;
    LostPeople(s.chans, client);
    assert (s.continued + more)[|s.continued|..] == more;
    if d in Lost(s.chans, client).0 {
      var c := LostFrom(s.chans, client, d);
    }
    if c :| c in s.chans && Rid(c, d, client) {
      LostChannels(s.chans, client, c, d);
    }
  }

  lemma {:induction false} FlushEveryone(chans: seq<Channel>)
    ensures FlushList(chans).0 == [] && FlushList(chans).1 == Everyone(chans)
  {
    if chans != [] {
      FlushEveryone(chans[1..]);
      assert Spent(FlushedChannel(chans[0]));
    }
  }

  // A flush lets everyone go on in the same order and leaves no channel.
  lemma FlushEffect(s: State)
    ensures Flush(s) == s.(chans := [], continued := s.continued + Everyone(s.chans))
  {
    FlushEveryone(s.chans);
  }
}
