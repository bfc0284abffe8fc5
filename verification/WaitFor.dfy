// Wait channels: signal, wait, lock and unlock on named channels.

module WaitFor {
  import opened Strings

  // A queue item that asks to wait; client 0 is none.
  datatype Item = Item(id: nat, client: nat)

  // struct wait_channel
  datatype Channel = Channel(name: string, locked: bool, woken: bool, waiters: seq<Item>, lockers: seq<Item>)

  datatype Ret = Normal | Error | Wait

  // The tree of channels, in order of name. The rest is history: items continued and items made to wait,
  // in order; for each name, who asked for the lock and who was given it, and how often it was released.
  datatype State = State(chans: seq<Channel>, continued: seq<Item>, accepted: seq<Item>,
                         requests: map<string, seq<Item>>, grants: map<string, seq<Item>>, releases: map<string, nat>)

  // ----- The tree -----

  function Position(chans: seq<Channel>, name: string): (p: nat)
    ensures p <= |chans|
  {
    if chans == [] || Strcmp(chans[0].name, name) >= 0 then 0 else 1 + Position(chans[1..], name)
  }

  predicate Has(chans: seq<Channel>, name: string) {
    var p := Position(chans, name);
    p < |chans| && chans[p].name == name
  }

  // The channel of a name, made new if there is none.
  function Lookup(chans: seq<Channel>, name: string): Channel {
    if Has(chans, name) then chans[Position(chans, name)] else Channel(name, false, false, [], [])
  }

  function Store(chans: seq<Channel>, c: Channel): seq<Channel> {
    var p := Position(chans, c.name);
    if Has(chans, c.name) then chans[p := c] else chans[..p] + [c] + chans[p..]
  }

  function Erase(chans: seq<Channel>, name: string): seq<Channel> {
    var p := Position(chans, name);
    if Has(chans, name) then chans[..p] + chans[p + 1..] else chans
  }

  // When cmd_wait_for_remove and cmd_wait_for_remove_empty free a channel.
  predicate Spent(c: Channel) {
    !c.locked && c.waiters == [] && c.woken
  }

  predicate Unused(c: Channel) {
    !c.locked && !c.woken && c.waiters == [] && c.lockers == []
  }

  function StoreUnless(chans: seq<Channel>, c: Channel, gone: bool): seq<Channel> {
    if gone then Erase(chans, c.name) else Store(chans, c)
  }

  function Of(m: map<string, seq<Item>>, name: string): seq<Item> {
    if name in m then m[name] else []
  }

  function Times(m: map<string, nat>, name: string): nat {
    if name in m then m[name] else 0
  }

  // ----- Operations -----

  function Signal(s: State, name: string): State {
    var c := Lookup(s.chans, name);
    if c.waiters == [] && !c.woken then s.(chans := Store(s.chans, c.(woken := true)))
    else
      var c1 := c.(waiters := []);
      s.(chans := StoreUnless(s.chans, c1, Spent(c1)), continued := s.continued + c.waiters)
  }

  function WaitOn(s: State, name: string, item: Item): (Ret, State) {
    if item.client == 0 then (Error, s)
    else
      var c := Lookup(s.chans, name);
      if c.woken then (Normal, s.(chans := StoreUnless(s.chans, c, Spent(c))))
      else (Wait, s.(chans := Store(s.chans, c.(waiters := c.waiters + [item])), accepted := s.accepted + [item]))
  }

  function Lock(s: State, name: string, item: Item): (Ret, State) {
    if item.client == 0 then (Error, s)
    else
      var c := Lookup(s.chans, name);
      var s1 := s.(requests := s.requests[name := Of(s.requests, name) + [item]]);
      if c.locked then
        (Wait, s1.(chans := Store(s.chans, c.(lockers := c.lockers + [item])), accepted := s.accepted + [item]))
      else
        (Normal, s1.(chans := Store(s.chans, c.(locked := true)),
                     grants := s.grants[name := Of(s.grants, name) + [item]]))
  }

  function Unlock(s: State, name: string): (Ret, State) {
    var c := Lookup(s.chans, name);
    if !c.locked then (Error, s)
    else
      var s1 := s.(releases := s.releases[name := Times(s.releases, name) + 1]);
      if c.lockers != [] then
        (Normal, s1.(chans := Store(s.chans, c.(lockers := c.lockers[1..])),
                     continued := s.continued + [c.lockers[0]],
                     grants := s.grants[name := Of(s.grants, name) + [c.lockers[0]]]))
      else
        var c1 := c.(locked := false);
        (Normal, s1.(chans := StoreUnless(s.chans, c1, Spent(c1))))
  }

  // The first item of a client in a list, or the length of the list.
  function First(list: seq<Item>, client: nat): (i: nat)
    ensures i <= |list|
  {
    if list == [] || list[0].client == client then 0 else 1 + First(list[1..], client)
  }

  // wait-for -w: one item of a client goes on, without what it waits for.
  function Wake(s: State, name: string, client: nat): State {
    if !Has(s.chans, name) then s
    else
      var c := Lookup(s.chans, name);
      var i, j := First(c.waiters, client), First(c.lockers, client);
      if i < |c.waiters| then
        var c1 := c.(waiters := c.waiters[..i] + c.waiters[i + 1..]);
        s.(chans := StoreUnless(s.chans, c1, Unused(c1)), continued := s.continued + [c.waiters[i]])
      else if j < |c.lockers| then
        var c1 := c.(lockers := c.lockers[..j] + c.lockers[j + 1..]);
        s.(chans := StoreUnless(s.chans, c1, Unused(c1)), continued := s.continued + [c.lockers[j]])
      else s
  }

  function Pick(list: seq<Item>, client: nat, picked: bool): seq<Item> {
    if list == [] then []
    else (if (list[0].client == client) == picked then [list[0]] else []) + Pick(list[1..], client, picked)
  }

  // cmd_wait_for_client_lost: what is left of a channel, and who goes on.
  function LostChannel(c: Channel, client: nat): Channel {
    c.(waiters := Pick(c.waiters, client, false), lockers := Pick(c.lockers, client, false))
  }

  function Lost(chans: seq<Channel>, client: nat): (seq<Channel>, seq<Item>) {
    if chans == [] then ([], [])
    else
      var c := LostChannel(chans[0], client);
      var (rest, more) := Lost(chans[1..], client);
      ((if Unused(c) then [] else [c]) + rest,
       Pick(chans[0].waiters, client, true) + Pick(chans[0].lockers, client, true) + more)
  }

  function ClientLost(s: State, client: nat): State {
    var (chans, more) := Lost(s.chans, client);
    s.(chans := chans, continued := s.continued + more)
  }

  // cmd_wait_for_flush
  function FlushedChannel(c: Channel): Channel {
    c.(waiters := [], woken := true, lockers := [], locked := false)
  }

  function FlushList(chans: seq<Channel>): (seq<Channel>, seq<Item>) {
    if chans == [] then ([], [])
    else
      var c := FlushedChannel(chans[0]);
      var (rest, more) := FlushList(chans[1..]);
      ((if Spent(c) then [] else [c]) + rest, chans[0].waiters + chans[0].lockers + more)
  }

  function Flush(s: State): State {
    var (chans, more) := FlushList(s.chans);
    s.(chans := chans, continued := s.continued + more)
  }

  // ----- What always holds -----

  ghost predicate Sorted(chans: seq<Channel>) {
    forall i, j :: 0 <= i < j < |chans| ==> Strcmp(chans[i].name, chans[j].name) < 0
  }

  // A woken channel has no waiters; a channel with lockers queued is locked.
  ghost predicate ChannelOk(c: Channel) {
    (c.woken ==> c.waiters == []) && (c.lockers != [] ==> c.locked)
  }

  ghost predicate ChannelsOk(chans: seq<Channel>) {
    Sorted(chans) && forall i :: 0 <= i < |chans| ==> ChannelOk(chans[i])
  }

  function Occurs(list: seq<Item>, x: Item): nat {
    if list == [] then 0 else (if list[0] == x then 1 else 0) + Occurs(list[1..], x)
  }

  function Queued(c: Channel, x: Item): nat {
    Occurs(c.waiters, x) + Occurs(c.lockers, x)
  }

  // How many places an item has on the lists of the channels.
  function Blocked(chans: seq<Channel>, x: Item): nat {
    if chans == [] then 0
    else Queued(chans[0], x) + Blocked(chans[1..], x)
  }

  // Every item made to wait is on one list, or has left it and been continued then.
  ghost predicate Balanced(s: State) {
    forall x :: Blocked(s.chans, x) + Occurs(s.continued, x) == Occurs(s.accepted, x)
  }

  ghost predicate Valid(s: State) {
    ChannelsOk(s.chans) && Balanced(s)
  }

  // The lock of a channel goes to those who ask for it in the order they ask; it has been given once
  // more than released while it is held, and as often as released otherwise.
  ghost predicate Fair(s: State) {
    forall name: string ::
      var c := Lookup(s.chans, name);
      && Of(s.requests, name) == Of(s.grants, name) + c.lockers
      && |Of(s.grants, name)| == Times(s.releases, name) + if c.locked then 1 else 0
  }

  // ----- The tree keeps its order -----

  lemma {:induction false} PositionSplits(chans: seq<Channel>, name: string)
    requires Sorted(chans)
    ensures var p := Position(chans, name);
      && (forall i :: 0 <= i < p ==> Strcmp(chans[i].name, name) < 0)
      && (forall i :: p <= i < |chans| && chans[i].name != name ==> Strcmp(name, chans[i].name) < 0)
      && (forall i :: 0 <= i < |chans| && chans[i].name == name ==> i == p)
  {
    var p := Position(chans, name);
    if chans == [] {
    } else if Strcmp(chans[0].name, name) >= 0 {
      StrcmpSame(chans[0].name, name);
      forall i | 0 <= i < |chans|
        ensures chans[i].name != name ==> Strcmp(name, chans[i].name) < 0
        ensures chans[i].name == name ==> i == 0
      {
        StrcmpSame(chans[i].name, name);
        if i > 0 && Strcmp(name, chans[0].name) < 0 {
          StrcmpTransitive(name, chans[0].name, chans[i].name);
        }
      }
    } else {
      PositionSplits(chans[1..], name);
      StrcmpSame(chans[0].name, name);
      assert forall i :: 0 < i < |chans| ==> chans[i] == chans[1..][i - 1];
    }
  }

  lemma StoreSorted(chans: seq<Channel>, c: Channel)
    requires ChannelsOk(chans) && ChannelOk(c)
    ensures ChannelsOk(Store(chans, c))
  {
    hide Position, Strcmp, ChannelOk;
    PositionSplits(chans, c.name);
    forall i | 0 <= i < |chans|
      ensures chans[i].name == c.name || Strcmp(chans[i].name, c.name) < 0 || Strcmp(c.name, chans[i].name) < 0
    {
    }
  }

  // r is chans but for the channel called name.
  ghost predicate SameBut(chans: seq<Channel>, r: seq<Channel>, name: string) {
    && (forall i :: 0 <= i < |chans| && chans[i].name != name ==> chans[i] in r)
    && (forall i :: 0 <= i < |r| && r[i].name != name ==> r[i] in chans)
  }

  lemma SameLookup(chans: seq<Channel>, r: seq<Channel>, gone: string, name: string)
    requires Sorted(chans) && Sorted(r) && SameBut(chans, r, gone) && name != gone
    ensures Lookup(r, name) == Lookup(chans, name)
  {
    hide Lookup, Sorted;
    LookupMember(chans, name);
    LookupMember(r, name);
  }

  lemma StoreSame(chans: seq<Channel>, c: Channel)
    ensures SameBut(chans, Store(chans, c), c.name) && c in Store(chans, c)
  {
    hide Position;
    var r, p := Store(chans, c), Position(chans, c.name);
    assert r[p] == c;
    forall i | 0 <= i < |chans| && chans[i].name != c.name
      ensures chans[i] in r
    {
      assert chans[i] == if Has(chans, c.name) || i < p then r[i] else r[i + 1];
    }
  }

  lemma StoreOk(chans: seq<Channel>, c: Channel)
    requires ChannelsOk(chans) && ChannelOk(c)
    ensures ChannelsOk(Store(chans, c)) && Lookup(Store(chans, c), c.name) == c
    ensures forall name :: name != c.name ==> Lookup(Store(chans, c), name) == Lookup(chans, name)
  {
    hide Lookup, Store, ChannelOk, Sorted, SameBut;
    StoreSorted(chans, c);
    StoreSame(chans, c);
    LookupMember(Store(chans, c), c.name);
    forall name | name != c.name
      ensures Lookup(Store(chans, c), name) == Lookup(chans, name)
    {
      SameLookup(chans, Store(chans, c), c.name, name);
    }
  }

  // Looking up a name finds the channel of that name wherever it is.
  lemma LookupMember(chans: seq<Channel>, name: string)
    requires Sorted(chans)
    ensures forall c :: c in chans && c.name == name ==> Lookup(chans, name) == c && Has(chans, name)
    ensures (forall c :: c in chans ==> c.name != name) ==>
      Lookup(chans, name) == Channel(name, false, false, [], []) && !Has(chans, name)
  {
    hide Strcmp, Position;
    PositionSplits(chans, name);
  }

  lemma EraseSame(chans: seq<Channel>, gone: string)
    requires ChannelsOk(chans)
    ensures ChannelsOk(Erase(chans, gone)) && SameBut(chans, Erase(chans, gone), gone)
    ensures forall c :: c in Erase(chans, gone) ==> c.name != gone
  {
    hide Position, Strcmp, ChannelOk;
    PositionSplits(chans, gone);
    var r, p := Erase(chans, gone), Position(chans, gone);
    if Has(chans, gone) {
      assert forall i :: 0 <= i < |r| ==> r[i] == chans[if i < p then i else i + 1];
      forall i | 0 <= i < |chans| && chans[i].name != gone
        ensures chans[i] in r
      {
        assert chans[i] == if i < p then r[i] else r[i - 1];
      }
    }
  }

  lemma EraseOk(chans: seq<Channel>, gone: string)
    requires ChannelsOk(chans)
    ensures ChannelsOk(Erase(chans, gone)) && Lookup(Erase(chans, gone), gone) == Channel(gone, false, false, [], [])
    ensures forall name :: name != gone ==> Lookup(Erase(chans, gone), name) == Lookup(chans, name)
  {
    hide Lookup, Erase, ChannelOk, Sorted, SameBut;
    EraseSame(chans, gone);
    LookupMember(Erase(chans, gone), gone);
    forall name | name != gone
      ensures Lookup(Erase(chans, gone), name) == Lookup(chans, name)
    {
      SameLookup(chans, Erase(chans, gone), gone, name);
    }
  }

  // ----- No item is lost -----

  lemma {:induction false} OccursConcat(a: seq<Item>, b: seq<Item>, x: Item)
    ensures Occurs(a + b, x) == Occurs(a, x) + Occurs(b, x)
    decreases |a|
  {
    if a == [] {
      assert a + b == b;
    } else {
      assert (a + b)[1..] == a[1..] + b;
      OccursConcat(a[1..], b, x);
    }
  }

  lemma {:induction false} BlockedConcat(a: seq<Channel>, b: seq<Channel>, x: Item)
    ensures Blocked(a + b, x) == Blocked(a, x) + Blocked(b, x)
    decreases |a|
  {
    if a == [] {
      assert a + b == b;
    } else {
      assert (a + b)[1..] == a[1..] + b;
      BlockedConcat(a[1..], b, x);
    }
  }

  lemma BlockedAround(a: seq<Channel>, c: Channel, b: seq<Channel>, x: Item)
    ensures Blocked(a + [c] + b, x) == Blocked(a, x) + Queued(c, x) + Blocked(b, x)
  {
    hide Queued;
    BlockedConcat(a + [c], b, x);
    BlockedConcat(a, [c], x);
  }

  lemma StoreBlocked(chans: seq<Channel>, c: Channel, x: Item)
    ensures Blocked(Store(chans, c), x) == Blocked(chans, x) - Queued(Lookup(chans, c.name), x) + Queued(c, x)
  {
    hide Blocked, Position;
    var p := Position(chans, c.name);
    BlockedAround(chans[..p], c, chans[p..], x);
    BlockedConcat(chans[..p], chans[p..], x);
    assert chans == chans[..p] + chans[p..];
    if Has(chans, c.name) {
      BlockedAround(chans[..p], c, chans[p + 1..], x);
      BlockedAround(chans[..p], chans[p], chans[p + 1..], x);
      assert chans == chans[..p] + [chans[p]] + chans[p + 1..];
      assert chans[p := c] == chans[..p] + [c] + chans[p + 1..];
    }
  }

  lemma EraseBlocked(chans: seq<Channel>, name: string, x: Item)
    ensures Blocked(Erase(chans, name), x) == Blocked(chans, x) - Queued(Lookup(chans, name), x)
  {
    hide Blocked, Position;
    var p := Position(chans, name);
    if Has(chans, name) {
      BlockedConcat(chans[..p], chans[p + 1..], x);
      BlockedAround(chans[..p], chans[p], chans[p + 1..], x);
      assert chans == chans[..p] + [chans[p]] + chans[p + 1..];
    }
  }

  // A channel changed, or freed with nothing on its lists.
  lemma ChangeOk(chans: seq<Channel>, c: Channel, gone: bool)
    requires ChannelsOk(chans) && ChannelOk(c) && (gone ==> c.waiters == [] && c.lockers == [])
    ensures var r := StoreUnless(chans, c, gone);
      && ChannelsOk(r)
      && (forall x :: Blocked(r, x) == Blocked(chans, x) - Queued(Lookup(chans, c.name), x) + Queued(c, x))
      && Lookup(r, c.name) == (if gone then Channel(c.name, false, false, [], []) else c)
      && (forall name :: name != c.name ==> Lookup(r, name) == Lookup(chans, name))
  {
    hide Lookup, Store, Erase, ChannelsOk, Blocked;
    if gone {
      EraseOk(chans, c.name);
    } else {
      StoreOk(chans, c);
    }
    forall x
      ensures Blocked(StoreUnless(chans, c, gone), x) == Blocked(chans, x) - Queued(Lookup(chans, c.name), x) + Queued(c, x)
    {
      StoreBlocked(chans, c, x);
      EraseBlocked(chans, c.name, x);
    }
  }

  lemma LookupOk(chans: seq<Channel>, name: string)
    requires ChannelsOk(chans)
    ensures ChannelOk(Lookup(chans, name)) && Lookup(chans, name).name == name
  {
    hide Position;
  }

  // ----- Each operation -----

  lemma SignalKeeps(s: State, name: string)
    requires Valid(s)
    ensures Valid(Signal(s, name)) && (Fair(s) ==> Fair(Signal(s, name)))
  {
    hide Lookup, Store, StoreUnless, ChannelsOk, Blocked;
    var c, r := Lookup(s.chans, name), Signal(s, name);
    LookupOk(s.chans, name);
    if c.waiters == [] && !c.woken {
      ChangeOk(s.chans, c.(woken := true), false);
      StoreAlways(s.chans, c.(woken := true));
    } else {
      ChangeOk(s.chans, c.(waiters := []), Spent(c.(waiters := [])));
    }
    forall x
      ensures Blocked(r.chans, x) + Occurs(r.continued, x) == Occurs(r.accepted, x)
    {
      OccursConcat(s.continued, c.waiters, x);
    }
  }

  lemma StoreAlways(chans: seq<Channel>, c: Channel)
    ensures StoreUnless(chans, c, false) == Store(chans, c)
  {
  }

  lemma WaitKeeps(s: State, name: string, item: Item)
    requires Valid(s)
    ensures var (ret, r) := WaitOn(s, name, item);
      && Valid(r) && (Fair(s) ==> Fair(r))
      && r.continued == s.continued && r.accepted == (if ret == Wait then s.accepted + [item] else s.accepted)
      && (ret == Normal <==> item.client != 0 && Lookup(s.chans, name).woken)
  {
    hide Lookup, Store, StoreUnless, ChannelsOk, Blocked;
    var c, r := Lookup(s.chans, name), WaitOn(s, name, item).1;
    LookupOk(s.chans, name);
    ChangeOk(s.chans, c, Spent(c));
    if !c.woken {
      ChangeOk(s.chans, c.(waiters := c.waiters + [item]), false);
      StoreAlways(s.chans, c.(waiters := c.waiters + [item]));
    }
    forall x
      ensures Blocked(r.chans, x) + Occurs(r.continued, x) == Occurs(r.accepted, x)
    {
      OccursConcat(c.waiters, [item], x);
      OccursConcat(s.accepted, [item], x);
    }
  }

  lemma LockKeeps(s: State, name: string, item: Item)
    requires Valid(s)
    ensures var (ret, r) := Lock(s, name, item);
      && Valid(r) && (Fair(s) ==> Fair(r))
      && r.continued == s.continued && r.accepted == (if ret == Wait then s.accepted + [item] else s.accepted)
      && (ret == Normal <==> item.client != 0 && !Lookup(s.chans, name).locked)
  {
    hide Lookup, Store, StoreUnless, ChannelsOk, Blocked;
    if item.client != 0 {
      var c, r := Lookup(s.chans, name), Lock(s, name, item).1;
      LookupOk(s.chans, name);
      var c1 := if c.locked then c.(lockers := c.lockers + [item]) else c.(locked := true);
      ChangeOk(s.chans, c1, false);
      StoreAlways(s.chans, c1);
      forall x
        ensures Blocked(r.chans, x) + Occurs(r.continued, x) == Occurs(r.accepted, x)
      {
        OccursConcat(c.lockers, [item], x);
        OccursConcat(s.accepted, [item], x);
      }
      if Fair(s) {
        LockFair(s, name, item, c, r);
      }
    }
  }

  lemma LockFair(s: State, name: string, item: Item, c: Channel, r: State)
    requires Fair(s) && item.client != 0 && c == Lookup(s.chans, name) && (c.lockers != [] ==> c.locked)
    requires r == Lock(s, name, item).1
    requires Lookup(r.chans, name) == if c.locked then c.(lockers := c.lockers + [item]) else c.(locked := true)
    requires forall other :: other != name ==> Lookup(r.chans, other) == Lookup(s.chans, other)
    ensures Fair(r)
  {
    hide Lookup, Store;
    assert Of(s.grants, name) + c.lockers + [item] == Of(s.grants, name) + (c.lockers + [item]);
    assert Of(s.grants, name) + [] == Of(s.grants, name);
    assert Of(s.grants, name) + [item] + [] == Of(s.grants, name) + [item];
  }

  lemma UnlockKeeps(s: State, name: string)
    requires Valid(s)
    ensures var (ret, r) := Unlock(s, name);
      && Valid(r) && (Fair(s) ==> Fair(r)) && r.accepted == s.accepted
      && (ret == Normal <==> Lookup(s.chans, name).locked)
      && r.continued == s.continued + (if Lookup(s.chans, name).lockers != [] then [Lookup(s.chans, name).lockers[0]] else [])
  {
    hide Lookup, Store, StoreUnless, ChannelsOk, Blocked;
    var c, r := Lookup(s.chans, name), Unlock(s, name).1;
    LookupOk(s.chans, name);
    assert s.continued + [] == s.continued;
    if c.locked {
      var c1 := if c.lockers != [] then c.(lockers := c.lockers[1..]) else c.(locked := false);
      ChangeOk(s.chans, c1, c.lockers == [] && Spent(c1));
      StoreAlways(s.chans, c1);
      forall x
        ensures Blocked(r.chans, x) + Occurs(r.continued, x) == Occurs(r.accepted, x)
      {
        if c.lockers != [] {
          OccursConcat(s.continued, [c.lockers[0]], x);
          assert c.lockers == [c.lockers[0]] + c.lockers[1..];
        }
      }
      if Fair(s) {
        UnlockFair(s, name, c, c1, r);
      }
    }
  }

  lemma UnlockFair(s: State, name: string, c: Channel, c1: Channel, r: State)
    requires Fair(s) && c == Lookup(s.chans, name) && c.locked && r == Unlock(s, name).1
    requires c1 == if c.lockers != [] then c.(lockers := c.lockers[1..]) else c.(locked := false)
    requires Lookup(r.chans, name).lockers == c1.lockers && Lookup(r.chans, name).locked == c1.locked
    requires forall other :: other != name ==> Lookup(r.chans, other) == Lookup(s.chans, other)
    ensures Fair(r)
  {
    hide Lookup, Store, StoreUnless;
    if c.lockers != [] {
      assert Of(s.grants, name) + c.lockers == Of(s.grants, name) + [c.lockers[0]] + c.lockers[1..];
    }
  }

  lemma {:induction false} FirstMember(list: seq<Item>, client: nat)
    ensures var i := First(list, client);
      && (i < |list| ==> list[i].client == client)
      && (forall k :: 0 <= k < i ==> list[k].client != client)
  {
    if list != [] && list[0].client != client {
      FirstMember(list[1..], client);
    }
  }

  lemma OccursWithout(list: seq<Item>, i: nat, x: Item)
    requires i < |list|
    ensures Occurs(list, x) == Occurs(list[..i] + list[i + 1..], x) + Occurs([list[i]], x)
  {
    hide Occurs;
    assert list == list[..i] + [list[i]] + list[i + 1..];
    OccursConcat(list[..i] + [list[i]], list[i + 1..], x);
    OccursConcat(list[..i], [list[i]], x);
    OccursConcat(list[..i], list[i + 1..], x);
  }

  // Waking keeps every item accounted for: one goes on, the first the client has.
  lemma WakeKeeps(s: State, name: string, client: nat)
    requires Valid(s)
    ensures Valid(Wake(s, name, client)) && Wake(s, name, client).accepted == s.accepted
  {
    hide Lookup, Store, StoreUnless, ChannelsOk, Blocked, Has, First, Occurs;
    if Has(s.chans, name) {
      var c, r := Lookup(s.chans, name), Wake(s, name, client);
      LookupOk(s.chans, name);
      var i, j := First(c.waiters, client), First(c.lockers, client);
      if i < |c.waiters| {
        var c1 := c.(waiters := c.waiters[..i] + c.waiters[i + 1..]);
        ChangeOk(s.chans, c1, Unused(c1));
        forall x
          ensures Blocked(r.chans, x) + Occurs(r.continued, x) == Occurs(r.accepted, x)
        {
          OccursWithout(c.waiters, i, x);
          OccursConcat(s.continued, [c.waiters[i]], x);
        }
      } else if j < |c.lockers| {
        var c1 := c.(lockers := c.lockers[..j] + c.lockers[j + 1..]);
        ChangeOk(s.chans, c1, Unused(c1));
        forall x
          ensures Blocked(r.chans, x) + Occurs(r.continued, x) == Occurs(r.accepted, x)
        {
          OccursWithout(c.lockers, j, x);
          OccursConcat(s.continued, [c.lockers[j]], x);
        }
      }
    }
  }

  lemma {:induction false} PickOccurs(list: seq<Item>, client: nat, x: Item)
    ensures Occurs(Pick(list, client, true), x) == if x.client == client then Occurs(list, x) else 0
    ensures Occurs(Pick(list, client, false), x) == if x.client == client then 0 else Occurs(list, x)
  {
    if list != [] {
      PickOccurs(list[1..], client, x);
      OccursConcat(if list[0].client == client then [list[0]] else [], Pick(list[1..], client, true), x);
      OccursConcat(if list[0].client != client then [list[0]] else [], Pick(list[1..], client, false), x);
    }
  }

  lemma {:induction false} LostOccurs(chans: seq<Channel>, client: nat, x: Item)
    ensures var (rest, more) := Lost(chans, client);
      && Occurs(more, x) == (if x.client == client then Blocked(chans, x) else 0)
      && Blocked(rest, x) == (if x.client == client then 0 else Blocked(chans, x))
  {
    hide Occurs, Pick;
    if chans == [] {
      NoOccurs(x);
    } else {
      var c, d := chans[0], LostChannel(chans[0], client);
      var (rest, more) := Lost(chans[1..], client);
      LostOccurs(chans[1..], client, x);
      PickOccurs(c.waiters, client, x);
      PickOccurs(c.lockers, client, x);
      OccursConcat(Pick(c.waiters, client, true) + Pick(c.lockers, client, true), more, x);
      OccursConcat(Pick(c.waiters, client, true), Pick(c.lockers, client, true), x);
      BlockedConcat(if Unused(d) then [] else [d], rest, x);
      NoOccurs(x);
    }
  }

  lemma NoOccurs(x: Item)
    ensures Occurs([], x) == 0
  {
  }

  ghost predicate Above(name: string, chans: seq<Channel>) {
    forall c :: c in chans ==> Strcmp(name, c.name) < 0
  }

  lemma {:induction false} LostAbove(chans: seq<Channel>, client: nat, name: string)
    requires Above(name, chans)
    ensures Above(name, Lost(chans, client).0)
  {
    hide Pick, Unused;
    if chans != [] {
      assert Above(name, chans[1..]);
      LostAbove(chans[1..], client, name);
      assert chans[0] in chans;
    }
  }

  lemma {:induction false} LostOk(chans: seq<Channel>, client: nat)
    requires ChannelsOk(chans)
    ensures ChannelsOk(Lost(chans, client).0)
  {
    hide Strcmp, Unused, Pick;
    if chans != [] {
      var c := LostChannel(chans[0], client);
      PickNone(chans[0].waiters, client);
      PickNone(chans[0].lockers, client);
      assert ChannelOk(chans[0]);
      assert ChannelsOk(chans[1..]) by {
        assert forall i :: 0 <= i < |chans[1..]| ==> chans[1..][i] == chans[i + 1];
      }
      LostOk(chans[1..], client);
      assert Above(c.name, chans[1..]) by {
        assert forall i :: 0 <= i < |chans[1..]| ==> chans[1..][i] == chans[i + 1];
      }
      LostAbove(chans[1..], client, c.name);
      PrependOk(c, Lost(chans[1..], client).0);
    }
  }

  lemma PrependOk(c: Channel, rest: seq<Channel>)
    requires ChannelOk(c) && ChannelsOk(rest) && Above(c.name, rest)
    ensures ChannelsOk([c] + rest) && ChannelsOk([] + rest)
  {
    hide Strcmp, ChannelOk;
    assert [] + rest == rest;
  }

  lemma PickNone(list: seq<Item>, client: nat)
    ensures list == [] ==> Pick(list, client, false) == []
    ensures Pick(list, client, false) != [] ==> list != []
  {
  }

  // Losing a client continues exactly the items of its that are blocked, and frees only empty channels.
  lemma ClientLostKeeps(s: State, client: nat)
    requires Valid(s)
    ensures var r := ClientLost(s, client);
      && Valid(r) && r.accepted == s.accepted
      && (forall x :: Blocked(r.chans, x) == if x.client == client then 0 else Blocked(s.chans, x))
  {
    hide Lost, ChannelsOk, Blocked, Occurs;
    var r := ClientLost(s, client);
    LostOk(s.chans, client);
    forall x
      ensures Blocked(r.chans, x) == if x.client == client then 0 else Blocked(s.chans, x)
      ensures Blocked(r.chans, x) + Occurs(r.continued, x) == Occurs(r.accepted, x)
    {
      LostOccurs(s.chans, client, x);
      OccursConcat(s.continued, Lost(s.chans, client).1, x);
    }
  }

  lemma {:induction false} FlushListAll(chans: seq<Channel>, x: Item)
    ensures FlushList(chans).0 == [] && Occurs(FlushList(chans).1, x) == Blocked(chans, x)
  {
    hide Occurs;
    if chans == [] {
      NoOccurs(x);
    } else {
      FlushListAll(chans[1..], x);
      OccursConcat(chans[0].waiters + chans[0].lockers, FlushList(chans[1..]).1, x);
      OccursConcat(chans[0].waiters, chans[0].lockers, x);
    }
  }

  // After a flush there is no channel and every item ever made to wait has been continued.
  lemma FlushKeeps(s: State)
    requires Valid(s)
    ensures var r := Flush(s);
      && Valid(r) && r.chans == [] && r.accepted == s.accepted
      && (forall x :: Occurs(r.continued, x) == Occurs(r.accepted, x))
  {
    hide FlushList, Blocked, Occurs;
    var r := Flush(s);
    FlushListAll(s.chans, Item(0, 0));
    forall x
      ensures Blocked(r.chans, x) == 0 && Occurs(r.continued, x) == Occurs(r.accepted, x)
    {
      FlushListAll(s.chans, x);
      OccursConcat(s.continued, FlushList(s.chans).1, x);
      NoneBlocked(x);
    }
  }

  lemma NoneBlocked(x: Item)
    ensures Blocked([], x) == 0
  {
  }

  // ----- Runs -----

  datatype Op =
    | Signalled(name: string) | Waited(name: string, item: Item) | Locked(name: string, item: Item)
    | Unlocked(name: string) | Woke(name: string, client: nat) | Gone(client: nat) | Flushed

  function Step(s: State, op: Op): State {
    match op
    case Signalled(name) => Signal(s, name)
    case Waited(name, item) => WaitOn(s, name, item).1
    case Locked(name, item) => Lock(s, name, item).1
    case Unlocked(name) => Unlock(s, name).1
    case Woke(name, client) => Wake(s, name, client)
    case Gone(client) => ClientLost(s, client)
    case Flushed => Flush(s)
  }

  function Final(s: State, ops: seq<Op>): State
    decreases ops
  {
    if ops == [] then s else Final(Step(s, ops[0]), ops[1..])
  }

  function Start(): State {
    State([], [], [], map[], map[], map[])
  }

  ghost predicate Granting(op: Op) {
    !op.Woke? && !op.Gone? && !op.Flushed?
  }

  lemma StepKeeps(s: State, op: Op)
    requires Valid(s)
    ensures Valid(Step(s, op)) && (Fair(s) && Granting(op) ==> Fair(Step(s, op)))
  {
    hide Valid, Fair, Signal, WaitOn, Lock, Unlock, Wake, ClientLost, Flush;
    match op
    case Signalled(name) => SignalKeeps(s, name);
    case Waited(name, item) => WaitKeeps(s, name, item);
    case Locked(name, item) => LockKeeps(s, name, item);
    case Unlocked(name) => UnlockKeeps(s, name);
    case Woke(name, client) => WakeKeeps(s, name, client);
    case Gone(client) => ClientLostKeeps(s, client);
    case Flushed => FlushKeeps(s);
  }

  lemma {:induction false} FinalKeeps(s: State, ops: seq<Op>)
    requires Valid(s)
    ensures Valid(Final(s, ops))
    ensures Fair(s) && (forall i :: 0 <= i < |ops| ==> Granting(ops[i])) ==> Fair(Final(s, ops))
    decreases ops
  {
    hide Valid, Fair, Step, Granting;
    if ops != [] {
      StepKeeps(s, ops[0]);
      FinalKeeps(Step(s, ops[0]), ops[1..]);
      assert forall i :: 0 <= i < |ops[1..]| ==> ops[1..][i] == ops[i + 1];
    }
  }

  // In every run: woken channels have no waiters, channels with lockers are locked, and an item made to
  // wait is on one list until it leaves it and is continued. While nothing wakes lockers without giving
  // them the lock, each lock goes round in the order it was asked for and is held by one at a time.
  lemma RunResults(ops: seq<Op>)
    ensures var s := Final(Start(), ops);
      && Valid(s)
      && ((forall i :: 0 <= i < |ops| ==> Granting(ops[i])) ==>
            forall name ::
              && Of(s.grants, name) <= Of(s.requests, name)
              && 0 <= |Of(s.grants, name)| - Times(s.releases, name) <= 1
              && Of(s.requests, name) == Of(s.grants, name) + Lookup(s.chans, name).lockers)
  {
    hide Final, Granting, Lookup;
    assert Balanced(Start());
    StartFair();
    FinalKeeps(Start(), ops);
  }

  lemma StartFair()
    ensures Fair(Start())
  {
  }

  // ----- Signals -----

  // A signal with no one waiting is kept for the next to wait, who does not wait; the channel is then
  // gone again, unless it is locked.
  lemma SignalThenWait(s: State, name: string, item: Item)
    requires Valid(s) && item.client != 0
    requires var c := Lookup(s.chans, name); c.waiters == [] && !c.woken
    ensures var (ret, r) := WaitOn(Signal(s, name), name, item);
      && ret == Normal && r.accepted == s.accepted
      && (Lookup(s.chans, name).locked ==> Lookup(r.chans, name) == Lookup(s.chans, name).(woken := true))
      && (!Lookup(s.chans, name).locked ==> !Has(r.chans, name))
  {
    hide Lookup, Store, StoreUnless, ChannelsOk, Blocked, Has;
    var c := Lookup(s.chans, name);
    LookupOk(s.chans, name);
    var c1 := c.(woken := true);
    ChangeOk(s.chans, c1, false);
    StoreAlways(s.chans, c1);
    SignalKeeps(s, name);
    var t := Signal(s, name);
    assert Lookup(t.chans, name) == c1;
    ChangeOk(t.chans, c1, Spent(c1));
    if !c.locked {
      ErasedGone(t.chans, name);
      ErasedUnless(t.chans, c1);
    }
  }

  lemma ErasedGone(chans: seq<Channel>, name: string)
    requires ChannelsOk(chans)
    ensures !Has(Erase(chans, name), name)
  {
    hide Erase, Lookup, Has, ChannelOk, Sorted;
    EraseSame(chans, name);
    LookupMember(Erase(chans, name), name);
  }

  lemma ErasedUnless(chans: seq<Channel>, c: Channel)
    ensures StoreUnless(chans, c, true) == Erase(chans, c.name)
  {
  }

  // Signals are not counted: a second one with no one waiting takes the first back, unless the channel is
  // locked, and the next to wait blocks.
  lemma SignalTwice(s: State, name: string, item: Item)
    requires Valid(s) && item.client != 0
    requires var c := Lookup(s.chans, name); c.waiters == [] && !c.woken
    ensures WaitOn(Signal(Signal(s, name), name), name, item).0 == (if Lookup(s.chans, name).locked then Normal else Wait)
  {
    hide Lookup, Store, StoreUnless, ChannelsOk, Blocked, Has;
    var c := Lookup(s.chans, name);
    LookupOk(s.chans, name);
    var c1 := c.(woken := true);
    ChangeOk(s.chans, c1, false);
    StoreAlways(s.chans, c1);
    SignalKeeps(s, name);
    var t := Signal(s, name);
    assert Lookup(t.chans, name) == c1;
    assert c1.(waiters := []) == c1;
    ChangeOk(t.chans, c1, Spent(c1));
  }
}
