// Event sinks, and dispatch that callbacks may change.

module Events {
  // struct events_sink; its generation names it.
  datatype Sink = Sink(generation: nat, name: string, dead: bool)

  // What a callback does. A fire comes with what each callback it calls will do, in turn; callbacks past
  // the end of that do nothing.
  datatype Action = Add(name: string) | Remove(generation: nat) | Fire(name: string, scripts: seq<Script>)
  datatype Script = Script(actions: seq<Action>)

  // Each fire has a number.
  datatype Logged = Called(fire: nat, generation: nat) | Removed(generation: nat)

  // The last two are history: how many fires there have been and what was called and removed.
  datatype State = State(sinks: seq<Sink>, dispatching: nat, generation: nat, fires: nat, log: seq<Logged>)

  // ----- Operations -----

  function AddSink(s: State, name: string): State {
    s.(generation := s.generation + 1, sinks := s.sinks + [Sink(s.generation + 1, name, false)])
  }

  function Find(sinks: seq<Sink>, generation: nat): (i: nat)
    ensures i <= |sinks| && (i < |sinks| ==> sinks[i].generation == generation)
    ensures forall k :: 0 <= k < i ==> sinks[k].generation != generation
  {
    if sinks == [] || sinks[0].generation == generation then 0
    else
      var i := 1 + Find(sinks[1..], generation);
      assert forall k :: 0 < k < i ==> sinks[k] == sinks[1..][k - 1];
      i
  }

  function RemoveSink(s: State, generation: nat): State {
    var i := Find(s.sinks, generation);
    if i == |s.sinks| || s.sinks[i].dead then s
    else
      s.(sinks := if s.dispatching != 0 then s.sinks[i := s.sinks[i].(dead := true)] else s.sinks[..i] + s.sinks[i + 1..],
         log := s.log + [Removed(generation)])
  }

  function Alive(sinks: seq<Sink>): seq<Sink> {
    if sinks == [] then [] else Alive(sinks[..|sinks| - 1]) + if sinks[|sinks| - 1].dead then [] else [sinks[|sinks| - 1]]
  }

  function Do(s: State, script: seq<Action>): State
    decreases script, 2, 0
  {
    if script == [] then s
    else
      var s1 := match script[0]
        case Add(name) => AddSink(s, name)
        case Remove(generation) => RemoveSink(s, generation)
        case Fire(name, scripts) => FireAll(s, name, scripts).0;
      Do(s1, script[1..])
  }

  // events_fire, and what it called
  function FireAll(s: State, name: string, scripts: seq<Script>): (State, seq<nat>)
    decreases scripts, 1, 0
  {
    var s1 := s.(dispatching := s.dispatching + 1, fires := s.fires + 1);
    var (s2, calls) := Dispatch(s1, name, s.generation, s1.fires, 0, scripts);
    var s3 := s2.(dispatching := if s2.dispatching > 0 then s2.dispatching - 1 else 0);
    (if s3.dispatching == 0 then s3.(sinks := Alive(s3.sinks)) else s3, calls)
  }

  predicate Due(x: Sink, name: string, generation: nat) {
    !x.dead && x.generation <= generation && x.name == name
  }

  // The loop of events_fire from the i-th sink on.
  function Dispatch(s: State, name: string, generation: nat, fire: nat, i: nat, scripts: seq<Script>): (State, seq<nat>)
    decreases scripts, 0, |s.sinks| - i
  {
    if i >= |s.sinks| then (s, [])
    else if !Due(s.sinks[i], name, generation) then Dispatch(s, name, generation, fire, i + 1, scripts)
    else
      var s1 := s.(log := s.log + [Called(fire, s.sinks[i].generation)]);
      if scripts == [] then
        var (r, calls) := Dispatch(s1, name, generation, fire, i + 1, scripts);
        (r, [s.sinks[i].generation] + calls)
      else
        var (r, calls) := Dispatch(Do(s1, scripts[0].actions), name, generation, fire, i + 1, scripts[1..]);
        (r, [s.sinks[i].generation] + calls)
  }

  // ----- What always holds -----

  // Sinks are in the order they were added; none is dead unless something is being dispatched.
  ghost predicate Ok(s: State) {
    && (forall i, j :: 0 <= i < j < |s.sinks| ==> s.sinks[i].generation < s.sinks[j].generation)
    && (forall i :: 0 <= i < |s.sinks| ==> s.sinks[i].generation <= s.generation)
    && (s.dispatching == 0 ==> forall i :: 0 <= i < |s.sinks| ==> !s.sinks[i].dead)
  }

  // What happens while something is being dispatched: sinks are only added or marked dead, and a sink is
  // dead just when it was or has been removed; calls are for fires since, or for the fire own.
  ghost predicate Grows(s: State, r: State, own: nat) {
    && r.dispatching == s.dispatching && s.generation <= r.generation && s.fires <= r.fires && s.log <= r.log
    && |s.sinks| <= |r.sinks|
    && (forall k :: 0 <= k < |s.sinks| ==>
          && r.sinks[k] == s.sinks[k].(dead := r.sinks[k].dead)
          && (r.sinks[k].dead <==> s.sinks[k].dead || Removed(s.sinks[k].generation) in r.log[|s.log|..]))
    && (forall k :: |s.sinks| <= k < |r.sinks| ==> r.sinks[k].generation > s.generation)
    && (forall p :: |s.log| <= p < |r.log| && r.log[p].Called? ==> r.log[p].fire == own || r.log[p].fire > s.fires)
  }

  lemma GrowsNot(s: State, own: nat)
    ensures Grows(s, s, own)
  {
  }

  lemma GrowsTwice(s: State, r: State, t: State, own: nat)
    requires Grows(s, r, own) && Grows(r, t, own)
    ensures Grows(s, t, own)
  {
    assert t.log[|s.log|..] == r.log[|s.log|..] + t.log[|r.log|..];
    forall p | |s.log| <= p < |t.log| && t.log[p].Called?
      ensures t.log[p].fire == own || t.log[p].fire > s.fires
    {
      if p < |r.log| {
        assert t.log[p] == r.log[p];
      }
    }
  }

  lemma AddGrows(s: State, name: string, own: nat)
    requires Ok(s)
    ensures Ok(AddSink(s, name)) && (s.dispatching > 0 ==> Grows(s, AddSink(s, name), own))
  {
  }

  lemma RemoveOk(s: State, generation: nat)
    requires Ok(s)
    ensures Ok(RemoveSink(s, generation)) && RemoveSink(s, generation).dispatching == s.dispatching
  {
    var r, i := RemoveSink(s, generation), Find(s.sinks, generation);
    if r != s && s.dispatching == 0 {
      assert forall k :: 0 <= k < |r.sinks| ==> r.sinks[k] == s.sinks[if k < i then k else k + 1];
    }
  }

  lemma RemoveGrows(s: State, generation: nat, own: nat)
    requires Ok(s)
    ensures Ok(RemoveSink(s, generation)) && (s.dispatching > 0 ==> Grows(s, RemoveSink(s, generation), own))
    ensures RemoveSink(s, generation).dispatching == s.dispatching
  {
    hide Ok;
    var r, i := RemoveSink(s, generation), Find(s.sinks, generation);
    RemoveOk(s, generation);
    Generations(s);
    if s.dispatching > 0 {
      if r == s {
        GrowsNot(s, own);
      } else {
        assert r.log[|s.log|..] == [Removed(generation)];
      }
    }
  }

  lemma Generations(s: State)
    requires Ok(s)
    ensures forall i, j :: 0 <= i < j < |s.sinks| ==> s.sinks[i].generation < s.sinks[j].generation
  {
  }

  lemma CallGrows(s: State, fire: nat, generation: nat)
    requires Ok(s)
    ensures Ok(s.(log := s.log + [Called(fire, generation)])) && Grows(s, s.(log := s.log + [Called(fire, generation)]), fire)
  {
    assert (s.log + [Called(fire, generation)])[|s.log|..] == [Called(fire, generation)];
  }

  lemma {:induction false} DoGrows(s: State, script: seq<Action>, own: nat)
    requires Ok(s)
    ensures var r := Do(s, script);
      Ok(r) && r.dispatching == s.dispatching && (s.dispatching > 0 ==> Grows(s, r, own))
    decreases script, 2, 0
  {
    hide Ok, Grows, AddSink, RemoveSink, FireAll;
    if script == [] {
      GrowsNot(s, own);
    } else {
      var s1 := match script[0]
        case Add(name) => AddSink(s, name)
        case Remove(generation) => RemoveSink(s, generation)
        case Fire(name, scripts) => FireAll(s, name, scripts).0;
      match script[0] {
        case Add(name) =>
          AddGrows(s, name, own);
          AddDispatching(s, name);
        case Remove(generation) => RemoveGrows(s, generation, own);
        case Fire(name, scripts) => FireGrows(s, name, scripts, own);
      }
      DoGrows(s1, script[1..], own);
      if s.dispatching > 0 {
        GrowsTwice(s, s1, Do(s1, script[1..]), own);
      }
    }
  }

  lemma AddDispatching(s: State, name: string)
    ensures AddSink(s, name).dispatching == s.dispatching
  {
  }

  lemma {:induction false} FireGrows(s: State, name: string, scripts: seq<Script>, own: nat)
    requires Ok(s)
    ensures var r := FireAll(s, name, scripts).0;
      Ok(r) && r.dispatching == s.dispatching && (s.dispatching > 0 ==> Grows(s, r, own))
    decreases scripts, 1, 0
  {
    hide Dispatch, Alive;
    var s1 := s.(dispatching := s.dispatching + 1, fires := s.fires + 1);
    DispatchGrows(s1, name, s.generation, s1.fires, 0, scripts);
    var s2 := Dispatch(s1, name, s.generation, s1.fires, 0, scripts).0;
    AliveOrdered(s2.sinks);
  }

  lemma {:induction false} DispatchGrows(s: State, name: string, generation: nat, fire: nat, i: nat, scripts: seq<Script>)
    requires Ok(s) && s.dispatching > 0
    ensures var r := Dispatch(s, name, generation, fire, i, scripts).0;
      Ok(r) && Grows(s, r, fire)
    decreases scripts, 0, |s.sinks| - i
  {
    hide Ok, Grows, Do, Due;
    if i >= |s.sinks| {
      GrowsNot(s, fire);
    } else if !Due(s.sinks[i], name, generation) {
      DispatchGrows(s, name, generation, fire, i + 1, scripts);
    } else {
      var s1 := s.(log := s.log + [Called(fire, s.sinks[i].generation)]);
      CallGrows(s, fire, s.sinks[i].generation);
      if scripts == [] {
        DispatchGrows(s1, name, generation, fire, i + 1, scripts);
        GrowsTwice(s, s1, Dispatch(s1, name, generation, fire, i + 1, scripts).0, fire);
      } else {
        var s2 := Do(s1, scripts[0].actions);
        DoGrows(s1, scripts[0].actions, fire);
        DispatchGrows(s2, name, generation, fire, i + 1, scripts[1..]);
        GrowsTwice(s1, s2, Dispatch(s2, name, generation, fire, i + 1, scripts[1..]).0, fire);
        GrowsTwice(s, s1, Dispatch(s2, name, generation, fire, i + 1, scripts[1..]).0, fire);
      }
    }
  }

  lemma {:induction false} AliveOrdered(sinks: seq<Sink>)
    requires forall i, j :: 0 <= i < j < |sinks| ==> sinks[i].generation < sinks[j].generation
    ensures var r := Alive(sinks);
      && (forall i, j :: 0 <= i < j < |r| ==> r[i].generation < r[j].generation)
      && (forall x :: x in r <==> x in sinks && !x.dead)
      && (forall i :: 0 <= i < |r| ==> r[i] in sinks && !r[i].dead)
  {
    if sinks != [] {
      var init, last := sinks[..|sinks| - 1], sinks[|sinks| - 1];
      assert sinks == init + [last];
      AliveOrdered(init);
      var r := Alive(init);
      forall i | 0 <= i < |r|
        ensures r[i].generation < last.generation
      {
        assert r[i] in init;
      }
    }
  }

  // ----- Who is called -----

  // What one fire called, of everything logged.
  function OwnCalls(log: seq<Logged>, fire: nat): seq<nat> {
    if log == [] then []
    else
      var x := log[|log| - 1];
      OwnCalls(log[..|log| - 1], fire) + if x.Called? && x.fire == fire then [x.generation] else []
  }

  lemma {:induction false} OwnCallsConcat(a: seq<Logged>, b: seq<Logged>, fire: nat)
    ensures OwnCalls(a + b, fire) == OwnCalls(a, fire) + OwnCalls(b, fire)
    decreases |b|
  {
    if b == [] {
      assert a + b == a;
    } else {
      var init := b[..|b| - 1];
      assert (a + b)[..|a + b| - 1] == a + init;
      OwnCallsConcat(a, init, fire);
    }
  }

  lemma {:induction false} NoOwnCalls(log: seq<Logged>, fire: nat)
    requires forall p :: 0 <= p < |log| && log[p].Called? ==> log[p].fire != fire
    ensures OwnCalls(log, fire) == []
  {
    if log != [] {
      NoOwnCalls(log[..|log| - 1], fire);
    }
  }

  // The sink is called before anything removes it.
  ghost predicate Reached(log: seq<Logged>, fire: nat, generation: nat) {
    exists p :: 0 <= p < |log| && log[p] == Called(fire, generation) && Removed(generation) !in log[..p]
  }

  ghost predicate DueFrom(s: State, i: nat, name: string, generation: nat, g: nat) {
    exists k :: i <= k < |s.sinks| && s.sinks[k].generation == g && Due(s.sinks[k], name, generation)
  }

  ghost predicate Increasing(q: seq<nat>) {
    forall i, j :: 0 <= i < j < |q| ==> q[i] < q[j]
  }

  // The sink is removed before its turn: before any sink added after it is called.
  ghost predicate Missed(log: seq<Logged>, fire: nat, generation: nat) {
    exists p :: 0 <= p < |log| && log[p] == Removed(generation) && CalledBelow(log[..p], fire, generation)
  }

  ghost predicate CalledBelow(log: seq<Logged>, fire: nat, generation: nat) {
    forall q :: 0 <= q < |log| && log[q].Called? && log[q].fire == fire ==> log[q].generation < generation
  }

  // The calls of a dispatch are exactly the sinks due that are not removed before their turn.
  ghost predicate CallsDue(s: State, i: nat, name: string, generation: nat, fire: nat, log: seq<Logged>, calls: seq<nat>) {
    && OwnCalls(log, fire) == calls && Increasing(calls)
    && (forall g :: g in calls ==> DueFrom(s, i, name, generation, g))
    && (forall k :: i <= k < |s.sinks| && Due(s.sinks[k], name, generation) ==>
          if s.sinks[k].generation in calls then Reached(log, fire, s.sinks[k].generation)
          else Missed(log, fire, s.sinks[k].generation))
  }

  // How far a callback has moved things on, between one sink and the next.
  lemma CallThenRest(s: State, s2: State, i: nat, name: string, generation: nat, fire: nat, w1: seq<Logged>, w2: seq<Logged>, calls: seq<nat>)
    requires Ok(s) && Ok(s2) && i < |s.sinks| && Due(s.sinks[i], name, generation) && generation <= s.generation
    requires fire <= s.fires
    requires var s1 := s.(log := s.log + [Called(fire, s.sinks[i].generation)]);
      Grows(s1, s2, s.fires + 1) && w1 == s2.log[|s1.log|..]
    requires CallsDue(s2, i + 1, name, generation, fire, w2, calls)
    ensures CallsDue(s, i, name, generation, fire, [Called(fire, s.sinks[i].generation)] + w1 + w2, [s.sinks[i].generation] + calls)
  {
    hide OwnCalls, Reached, Missed, Due;
    var g0 := s.sinks[i].generation;
    var s1 := s.(log := s.log + [Called(fire, g0)]);
    var log := [Called(fire, g0)] + w1 + w2;
    forall p | 0 <= p < |w1| && w1[p].Called?
      ensures w1[p].fire != fire
    {
      assert w1[p] == s2.log[|s1.log| + p];
    }
    OwnCallsMore(g0, w1, w2, fire);
    forall g | g in calls
      ensures DueFrom(s, i, name, generation, g) && g > g0
    {
      StillDue(s, s1, s2, i, name, generation, g, s.fires + 1);
    }
    forall k | i <= k < |s.sinks| && Due(s.sinks[k], name, generation)
      ensures if s.sinks[k].generation in [g0] + calls then Reached(log, fire, s.sinks[k].generation)
              else Missed(log, fire, s.sinks[k].generation)
    {
      if k == i {
        ReachedNow(w1, w2, fire, g0);
      } else {
        LaterSink(s, s1, s2, k, name, generation, fire, w1, w2, calls, i);
      }
    }
    assert forall n :: 0 <= n < |calls| ==> calls[n] in calls;
    assert Increasing([g0] + calls);
  }

  lemma OwnCallsMore(g0: nat, w1: seq<Logged>, w2: seq<Logged>, fire: nat)
    requires forall p :: 0 <= p < |w1| && w1[p].Called? ==> w1[p].fire != fire
    ensures OwnCalls([Called(fire, g0)] + w1 + w2, fire) == [g0] + OwnCalls(w2, fire)
  {
    OwnCallsConcat([Called(fire, g0)] + w1, w2, fire);
    OwnCallsConcat([Called(fire, g0)], w1, fire);
    NoOwnCalls(w1, fire);
    assert [Called(fire, g0)][..0] == [];
    assert OwnCalls([Called(fire, g0)], fire) == [g0];
    assert [g0] + [] == [g0];
  }

  lemma StillDue(s: State, s1: State, s2: State, i: nat, name: string, generation: nat, g: nat, own: nat)
    requires Ok(s) && Ok(s2) && i < |s.sinks| && generation <= s.generation && s1 == s.(log := s1.log)
    requires Grows(s1, s2, own) && DueFrom(s2, i + 1, name, generation, g)
    ensures DueFrom(s, i, name, generation, g) && g > s.sinks[i].generation
  {
    var k :| i + 1 <= k < |s2.sinks| && s2.sinks[k].generation == g && Due(s2.sinks[k], name, generation);
    assert k < |s.sinks|;
    assert s2.sinks[k] == s1.sinks[k].(dead := s2.sinks[k].dead);
    assert Due(s.sinks[k], name, generation);
  }

  lemma ReachedNow(w1: seq<Logged>, w2: seq<Logged>, fire: nat, g: nat)
    ensures Reached([Called(fire, g)] + w1 + w2, fire, g)
  {
    var log := [Called(fire, g)] + w1 + w2;
    assert log[0] == Called(fire, g) && log[..0] == [];
  }

  lemma LaterSink(s: State, s1: State, s2: State, k: nat, name: string, generation: nat, fire: nat,
                  w1: seq<Logged>, w2: seq<Logged>, calls: seq<nat>, i: nat)
    requires Ok(s) && Ok(s2) && i < k < |s.sinks| && Due(s.sinks[k], name, generation)
    requires s1 == s.(log := s1.log) && Grows(s1, s2, s.fires + 1) && w1 == s2.log[|s1.log|..]
    requires CallsDue(s2, i + 1, name, generation, fire, w2, calls)
    requires forall p :: 0 <= p < |w1| && w1[p].Called? ==> w1[p].fire != fire
    ensures var g, g0 := s.sinks[k].generation, s.sinks[i].generation;
      var log := [Called(fire, g0)] + w1 + w2;
      g != g0 && if g in calls then Reached(log, fire, g) else Missed(log, fire, g)
  {
    hide OwnCalls, Reached, Missed;
    var g, g0 := s.sinks[k].generation, s.sinks[i].generation;
    assert s2.sinks[k] == s1.sinks[k].(dead := s2.sinks[k].dead);
    if Removed(g) in w1 {
      NotCalledAgain(s2, i + 1, name, generation, k, fire, w2, calls);
      MissedNow(w1, w2, fire, g0, g);
    } else if g in calls {
      LaterReached(w1, w2, fire, g0, g);
    } else {
      LaterMissed(w1, w2, fire, g0, g);
    }
  }

  lemma MissedNow(w1: seq<Logged>, w2: seq<Logged>, fire: nat, g0: nat, g: nat)
    requires Removed(g) in w1 && g0 < g && forall p :: 0 <= p < |w1| && w1[p].Called? ==> w1[p].fire != fire
    ensures Missed([Called(fire, g0)] + w1 + w2, fire, g)
  {
    var log := [Called(fire, g0)] + w1 + w2;
    var p :| 0 <= p < |w1| && w1[p] == Removed(g);
    var at := p + 1;
    assert log[at] == Removed(g) && log[..at] == [Called(fire, g0)] + w1[..p];
  }

  lemma LaterMissed(w1: seq<Logged>, w2: seq<Logged>, fire: nat, g0: nat, g: nat)
    requires Missed(w2, fire, g) && g0 < g && forall p :: 0 <= p < |w1| && w1[p].Called? ==> w1[p].fire != fire
    ensures Missed([Called(fire, g0)] + w1 + w2, fire, g)
  {
    var log := [Called(fire, g0)] + w1 + w2;
    var p :| 0 <= p < |w2| && w2[p] == Removed(g) && CalledBelow(w2[..p], fire, g);
    var at := p + 1 + |w1|;
    assert log[at] == Removed(g) && log[..at] == [Called(fire, g0)] + w1 + w2[..p];
  }

  lemma OnlyOne(s: State, i: nat, name: string, generation: nat, k: nat)
    requires Ok(s) && k < |s.sinks| && DueFrom(s, i, name, generation, s.sinks[k].generation)
    ensures !s.sinks[k].dead
  {
    var j :| i <= j < |s.sinks| && s.sinks[j].generation == s.sinks[k].generation && Due(s.sinks[j], name, generation);
    assert j == k;
  }

  lemma NotCalledAgain(s: State, i: nat, name: string, generation: nat, k: nat, fire: nat, log: seq<Logged>, calls: seq<nat>)
    requires Ok(s) && k < |s.sinks| && s.sinks[k].dead && CallsDue(s, i, name, generation, fire, log, calls)
    ensures s.sinks[k].generation !in calls
  {
    hide OwnCalls, Reached, Missed, DueFrom;
    if s.sinks[k].generation in calls {
      OnlyOne(s, i, name, generation, k);
    }
  }

  lemma LaterReached(w1: seq<Logged>, w2: seq<Logged>, fire: nat, g0: nat, g: nat)
    requires Reached(w2, fire, g) && Removed(g) !in w1
    ensures Reached([Called(fire, g0)] + w1 + w2, fire, g)
  {
    var log := [Called(fire, g0)] + w1 + w2;
    var p :| 0 <= p < |w2| && w2[p] == Called(fire, g) && Removed(g) !in w2[..p];
    var at := p + 1 + |w1|;
    assert log[at] == Called(fire, g);
    assert log[..at] == [Called(fire, g0)] + w1 + w2[..p];
  }

  lemma {:induction false} DispatchCalls(s: State, name: string, generation: nat, fire: nat, i: nat, scripts: seq<Script>)
    requires Ok(s) && s.dispatching > 0 && fire <= s.fires && generation <= s.generation
    ensures var (r, calls) := Dispatch(s, name, generation, fire, i, scripts);
      s.log <= r.log && CallsDue(s, i, name, generation, fire, r.log[|s.log|..], calls)
    decreases scripts, 0, |s.sinks| - i
  {
    hide Ok, Grows, Do, Due, CallsDue;
    if i >= |s.sinks| {
      NothingDue(s, i, name, generation, fire);
    } else if !Due(s.sinks[i], name, generation) {
      DispatchCalls(s, name, generation, fire, i + 1, scripts);
      var (r, calls) := Dispatch(s, name, generation, fire, i + 1, scripts);
      NotDue(s, i, name, generation, fire, r.log[|s.log|..], calls);
    } else {
      var g0 := s.sinks[i].generation;
      var s1 := s.(log := s.log + [Called(fire, g0)]);
      CallGrows(s, fire, g0);
      var script := if scripts == [] then [] else scripts[0].actions;
      var rest := if scripts == [] then [] else scripts[1..];
      var s2 := Do(s1, script);
      DoNothing(s1);
      DoGrows(s1, script, s.fires + 1);
      GrowsParts(s1, s2, s.fires + 1);
      if scripts == [] {
        DispatchCalls(s1, name, generation, fire, i + 1, scripts);
      } else {
        DispatchCalls(s2, name, generation, fire, i + 1, scripts[1..]);
      }
      var (r, calls) := Dispatch(s2, name, generation, fire, i + 1, rest);
      var w1, w2 := s2.log[|s1.log|..], r.log[|s2.log|..];
      CallThenRest(s, s2, i, name, generation, fire, w1, w2, calls);
      assert r.log[|s.log|..] == [Called(fire, g0)] + w1 + w2;
    }
  }

  lemma DoNothing(s: State)
    ensures Do(s, []) == s
  {
  }

  lemma GrowsParts(s: State, r: State, own: nat)
    requires Grows(s, r, own)
    ensures r.dispatching == s.dispatching && s.generation <= r.generation && s.fires <= r.fires && s.log <= r.log
    ensures |s.sinks| <= |r.sinks|
  {
  }

  lemma NothingDue(s: State, i: nat, name: string, generation: nat, fire: nat)
    requires i >= |s.sinks|
    ensures CallsDue(s, i, name, generation, fire, s.log[|s.log|..], [])
  {
    assert s.log[|s.log|..] == [];
  }

  lemma NotDue(s: State, i: nat, name: string, generation: nat, fire: nat, log: seq<Logged>, calls: seq<nat>)
    requires i < |s.sinks| && !Due(s.sinks[i], name, generation) && CallsDue(s, i + 1, name, generation, fire, log, calls)
    ensures CallsDue(s, i, name, generation, fire, log, calls)
  {
    hide OwnCalls, Reached, Missed, Due;
    forall g | g in calls
      ensures DueFrom(s, i, name, generation, g)
    {
      var k :| i + 1 <= k < |s.sinks| && s.sinks[k].generation == g && Due(s.sinks[k], name, generation);
    }
  }

  // An event calls, in the order they were added and once each, exactly the sinks of its name there when
  // it was fired that nothing removed before their turn, whatever its callbacks add, remove and fire: one
  // that is called has not been removed by then, and one that is not was removed before any later sink of
  // the event was called. No sink goes while anything is being dispatched, and none is dead when nothing is.
  lemma FireCalls(s: State, name: string, scripts: seq<Script>)
    requires Ok(s)
    ensures var (r, calls) := FireAll(s, name, scripts);
      && s.log <= r.log && var log := r.log[|s.log|..];
      && OwnCalls(log, s.fires + 1) == calls && Increasing(calls)
      && (forall g :: g in calls ==> DueFrom(s, 0, name, s.generation, g))
      && (forall k :: 0 <= k < |s.sinks| && s.sinks[k].name == name && !s.sinks[k].dead ==>
            && (s.sinks[k].generation in calls <==> !Missed(log, s.fires + 1, s.sinks[k].generation))
            && (s.sinks[k].generation in calls ==> Reached(log, s.fires + 1, s.sinks[k].generation)))
      && Ok(r)
      && (s.dispatching > 0 ==>
            && |s.sinks| <= |r.sinks|
            && forall k :: 0 <= k < |s.sinks| ==> r.sinks[k].generation == s.sinks[k].generation)
  {
    hide Dispatch, OwnCalls, Reached, Missed, Alive, Increasing;
    var s1 := s.(dispatching := s.dispatching + 1, fires := s.fires + 1);
    assert Ok(s1);
    DispatchCalls(s1, name, s.generation, s1.fires, 0, scripts);
    FireGrows(s, name, scripts, s.fires + 1);
    var (r, calls) := FireAll(s, name, scripts);
    forall g | g in calls
      ensures DueFrom(s, 0, name, s.generation, g)
    {
      var k :| 0 <= k < |s1.sinks| && s1.sinks[k].generation == g && Due(s1.sinks[k], name, s.generation);
    }
    forall k | 0 <= k < |s.sinks| && s.sinks[k].name == name && !s.sinks[k].dead
      ensures Due(s1.sinks[k], name, s.generation)
      ensures s.sinks[k].generation in calls ==> !Missed(r.log[|s.log|..], s.fires + 1, s.sinks[k].generation)
    {
      if s.sinks[k].generation in calls {
        ReachedNotMissed(r.log[|s.log|..], s.fires + 1, s.sinks[k].generation);
      }
    }
  }

  lemma ReachedNotMissed(log: seq<Logged>, fire: nat, g: nat)
    requires Reached(log, fire, g)
    ensures !Missed(log, fire, g)
  {
    var p :| 0 <= p < |log| && log[p] == Called(fire, g) && Removed(g) !in log[..p];
    forall q | 0 <= q < p
      ensures log[q] != Removed(g)
    {
      assert log[q] in log[..p];
    }
    forall q | p < q < |log|
      ensures !CalledBelow(log[..q], fire, g)
    {
      assert log[..q][p] == Called(fire, g);
    }
  }

  // ----- Sinks added and removed -----

  // A sink added has a number of its own, comes last, and is called by every later event of its name that
  // does not remove it first, and by no other; the sinks there stay as they were.
  lemma AddThenFire(s: State, name: string, event: string, scripts: seq<Script>)
    requires Ok(s)
    ensures var r := AddSink(s, name);
      && Ok(r) && |r.sinks| == |s.sinks| + 1 && r.sinks[..|s.sinks|] == s.sinks
      && r.dispatching == s.dispatching && r.log == s.log && r.fires == s.fires
      && var x := r.sinks[|s.sinks|];
      && x.name == name && !x.dead && (forall k :: 0 <= k < |s.sinks| ==> s.sinks[k].generation < x.generation)
      && var (t, calls) := FireAll(r, event, scripts);
      && r.log <= t.log
      && (event == name ==> (x.generation in calls <==> !Missed(t.log[|r.log|..], r.fires + 1, x.generation)))
      && (event != name ==> x.generation !in calls)
  {
    hide FireAll, Missed, Reached, OwnCalls;
    var r := AddSink(s, name);
    AddGrows(s, name, 0);
    FireCalls(r, event, scripts);
    if event != name && (s.generation + 1) in FireAll(r, event, scripts).1 {
      OnlyDue(r, |s.sinks|, event);
      assert false;
    }
  }

  lemma OnlyDue(s: State, k: nat, name: string)
    requires Ok(s) && k < |s.sinks| && DueFrom(s, 0, name, s.generation, s.sinks[k].generation)
    ensures s.sinks[k].name == name && !s.sinks[k].dead
  {
    var j :| 0 <= j < |s.sinks| && s.sinks[j].generation == s.sinks[k].generation && Due(s.sinks[j], name, s.generation);
    assert j == k;
  }

  // A sink removed is called by no later event. It goes at once if nothing is being dispatched and is only
  // marked dead if anything is; either way the others stay as they were and in order. Removing one that is
  // not there or is dead already does nothing.
  lemma RemoveThenFire(s: State, g: nat, event: string, scripts: seq<Script>, k: nat)
    requires Ok(s) && k < |s.sinks| && s.sinks[k].generation == g
    ensures var r := RemoveSink(s, g);
      && Ok(r) && g !in FireAll(r, event, scripts).1
      && r.dispatching == s.dispatching && r.generation == s.generation && r.fires == s.fires
      && (s.sinks[k].dead ==> r == s)
      && (!s.sinks[k].dead && s.dispatching > 0 ==> r.sinks == s.sinks[k := Sink(g, s.sinks[k].name, true)])
      && (!s.sinks[k].dead && s.dispatching == 0 ==> r.sinks == s.sinks[..k] + s.sinks[k + 1..])
  {
    hide FireAll, Missed, Reached, OwnCalls, DueFrom;
    var r := RemoveSink(s, g);
    assert Find(s.sinks, g) == k;
    RemoveOk(s, g);
    FireCalls(r, event, scripts);
    if g in FireAll(r, event, scripts).1 {
      RemovedNotDue(s, k, event);
    }
  }

  lemma RemovedNotDue(s: State, k: nat, name: string)
    requires Ok(s) && k < |s.sinks|
    ensures !DueFrom(RemoveSink(s, s.sinks[k].generation), 0, name, s.generation, s.sinks[k].generation)
  {
    var g := s.sinks[k].generation;
    var r := RemoveSink(s, g);
    assert Find(s.sinks, g) == k;
    forall j | 0 <= j < |r.sinks|
      ensures r.sinks[j].generation != g || r.sinks[j].dead
    {
      if !s.sinks[k].dead && s.dispatching == 0 {
        var from := if j < k then j else j + 1;
        assert r.sinks[j] == s.sinks[from] && from != k;
      }
    }
  }

  lemma RemoveAbsent(s: State, g: nat)
    requires forall k :: 0 <= k < |s.sinks| ==> s.sinks[k].generation != g
    ensures RemoveSink(s, g) == s
  {
  }

  // ----- What callbacks do -----

  // The actions of a callback are done one after another.
  lemma {:induction false} DoInOrder(s: State, a: seq<Action>, b: seq<Action>)
    ensures Do(s, a + b) == Do(Do(s, a), b)
    decreases |a|
  {
    hide AddSink, RemoveSink, FireAll;
    if a == [] {
      assert a + b == b;
    } else {
      assert (a + b)[0] == a[0] && (a + b)[1..] == a[1..] + b;
      var s1 := match a[0]
        case Add(name) => AddSink(s, name)
        case Remove(generation) => RemoveSink(s, generation)
        case Fire(name, scripts) => FireAll(s, name, scripts).0;
      DoInOrder(s1, a[1..], b);
    }
  }

  lemma DoOne(s: State, name: string, g: nat, scripts: seq<Script>)
    ensures Do(s, [Add(name)]) == AddSink(s, name)
    ensures Do(s, [Remove(g)]) == RemoveSink(s, g)
    ensures Do(s, [Fire(name, scripts)]) == FireAll(s, name, scripts).0
  {
    hide AddSink, RemoveSink, FireAll;
    assert [Add(name)][1..] == [] && [Remove(g)][1..] == [] && [Fire(name, scripts)][1..] == [];
  }

  lemma {:induction false} NoneDue(s: State, name: string, generation: nat, fire: nat, i: nat, scripts: seq<Script>)
    requires forall k :: i <= k < |s.sinks| ==> !Due(s.sinks[k], name, generation)
    ensures Dispatch(s, name, generation, fire, i, scripts) == (s, [])
    decreases |s.sinks| - i
  {
    hide Due, Do;
    if i < |s.sinks| {
      NoneDue(s, name, generation, fire, i + 1, scripts);
    }
  }

  lemma {:induction false} FirstDue(s: State, name: string, generation: nat, fire: nat, i: nat, k: nat, scripts: seq<Script>)
    requires i <= k < |s.sinks| && forall j :: i <= j < k ==> !Due(s.sinks[j], name, generation)
    ensures Dispatch(s, name, generation, fire, i, scripts) == Dispatch(s, name, generation, fire, k, scripts)
    decreases k - i
  {
    hide Due, Do;
    if i < k {
      FirstDue(s, name, generation, fire, i + 1, k, scripts);
    }
  }

  // An event with one sink does what that sink's callback does, once, and nothing else; what the callback
  // adds is not called. Then the dead go, unless something else is being dispatched.
  lemma FireOne(s: State, name: string, script: Script, k: nat)
    requires Ok(s) && k < |s.sinks| && s.sinks[k].name == name && !s.sinks[k].dead
    requires forall j :: 0 <= j < |s.sinks| && j != k ==> s.sinks[j].name != name || s.sinks[j].dead
    ensures var called := s.(dispatching := s.dispatching + 1, fires := s.fires + 1,
                             log := s.log + [Called(s.fires + 1, s.sinks[k].generation)]);
      var t, (r, calls) := Do(called, script.actions), FireAll(s, name, [script]);
      && calls == [s.sinks[k].generation] && r.log == t.log && r.generation == t.generation && r.fires == t.fires
      && r.dispatching == s.dispatching
      && (s.dispatching > 0 ==> r.sinks == t.sinks)
      && (s.dispatching == 0 ==>
            && (forall x :: x in r.sinks <==> x in t.sinks && !x.dead)
            && (forall i, j :: 0 <= i < j < |r.sinks| ==> r.sinks[i].generation < r.sinks[j].generation))
  {
    hide Do, Alive, Due, Dispatch, Grows;
    var fire := s.fires + 1;
    var s1 := s.(dispatching := s.dispatching + 1, fires := fire);
    DueParts(s, name);
    FirstDue(s1, name, s.generation, fire, 0, k, [script]);
    var called := s1.(log := s.log + [Called(fire, s.sinks[k].generation)]);
    var t := Do(called, script.actions);
    assert Ok(called);
    DoGrows(called, script.actions, fire);
    AddedNotDue(s, t, called, name, k);
    NoneDue(t, name, s.generation, fire, k + 1, []);
    OneCall(s1, name, s.generation, fire, k, script);
    AliveOrdered(t.sinks);
  }

  lemma OneCall(s: State, name: string, generation: nat, fire: nat, k: nat, script: Script)
    requires k < |s.sinks| && Due(s.sinks[k], name, generation)
    requires var t := Do(s.(log := s.log + [Called(fire, s.sinks[k].generation)]), script.actions);
      Dispatch(t, name, generation, fire, k + 1, []) == (t, [])
    ensures var t := Do(s.(log := s.log + [Called(fire, s.sinks[k].generation)]), script.actions);
      Dispatch(s, name, generation, fire, k, [script]) == (t, [s.sinks[k].generation])
  {
    hide Do, Due;
    assert [script][1..] == [];
    assert [s.sinks[k].generation] + [] == [s.sinks[k].generation];
  }

  lemma DueParts(s: State, name: string)
    requires Ok(s)
    ensures forall j :: 0 <= j < |s.sinks| ==> (Due(s.sinks[j], name, s.generation) <==> s.sinks[j].name == name && !s.sinks[j].dead)
  {
  }

  lemma AddedNotDue(s: State, t: State, called: State, name: string, k: nat)
    requires Ok(s) && called.sinks == s.sinks && called.generation == s.generation && Grows(called, t, s.fires + 1)
    requires forall j :: 0 <= j < |s.sinks| && j != k ==> s.sinks[j].name != name || s.sinks[j].dead
    ensures forall j :: k < j < |t.sinks| ==> !Due(t.sinks[j], name, s.generation)
  {
    forall j | k < j < |t.sinks|
      ensures !Due(t.sinks[j], name, s.generation)
    {
      if j < |s.sinks| {
        assert t.sinks[j] == s.sinks[j].(dead := t.sinks[j].dead);
      }
    }
  }

  // ----- In place -----

  class Sinks {
    var sinks: seq<Sink>
    var dispatching: nat
    var generation: nat
    ghost var fires: nat
    ghost var log: seq<Logged>

    ghost function St(): State
      reads this
    {
      State(sinks, dispatching, generation, fires, log)
    }

    constructor ()
      ensures Ok(St()) && sinks == []
    {
      sinks, dispatching, generation, fires, log := [], 0, 0, 0, [];
    }

    // events_add_sink
    method Register(name: string)
      modifies this
      ensures St() == AddSink(old(St()), name)
    {
      generation := generation + 1;
      sinks := sinks + [Sink(generation, name, false)];
    }

    // events_remove_sink
    method Unregister(g: nat)
      modifies this
      ensures St() == RemoveSink(old(St()), g)
    {
      var i := 0;
      assert sinks[0..] == sinks;
      while i < |sinks| && sinks[i].generation != g
        invariant i <= |sinks| && Find(sinks, g) == i + Find(sinks[i..], g)
      {
        assert sinks[i..][1..] == sinks[i + 1..];
        i := i + 1;
      }
      if i < |sinks| && !sinks[i].dead {
        sinks := if dispatching != 0 then sinks[i := sinks[i].(dead := true)] else sinks[..i] + sinks[i + 1..];
        log := log + [Removed(g)];
      }
    }

    // events_free_dead
    method FreeDead()
      modifies this
      ensures St() == old(St()).(sinks := Alive(old(sinks)))
    {
      var left, i := [], 0;
      while i < |sinks|
        invariant 0 <= i <= |sinks| && left == Alive(sinks[..i]) && St() == old(St())
      {
        assert sinks[..i + 1][..i] == sinks[..i];
        if !sinks[i].dead {
          left := left + [sinks[i]];
        }
        i := i + 1;
      }
      assert sinks[..i] == sinks;
      sinks := left;
    }

    // A callback.
    method Run(script: seq<Action>)
      modifies this
      ensures St() == Do(old(St()), script)
      decreases script, 2, 0
    {
      hide AddSink, RemoveSink, FireAll;
      if script == [] {
        return;
      }
      match script[0] {
        case Add(name) => Register(name);
        case Remove(g) => Unregister(g);
        case Fire(name, scripts) => ghost var calls := FireEvent(name, scripts);
      }
      Run(script[1..]);
    }

    // events_fire
    method FireEvent(name: string, scripts: seq<Script>) returns (ghost calls: seq<nat>)
      modifies this
      ensures (St(), calls) == FireAll(old(St()), name, scripts)
      decreases scripts, 1, 0
    {
      hide Dispatch, Alive;
      fires := fires + 1;
      dispatching := dispatching + 1;
      calls := Loop(name, generation, fires, 0, scripts);
      dispatching := if dispatching > 0 then dispatching - 1 else 0;
      if dispatching == 0 {
        FreeDead();
      }
    }

    // The loop, a sink at a time; sinks added meanwhile are passed over.
    method Loop(name: string, g: nat, ghost fire: nat, i: nat, scripts: seq<Script>) returns (ghost calls: seq<nat>)
      modifies this
      ensures (St(), calls) == Dispatch(old(St()), name, g, fire, i, scripts)
      decreases scripts, 0, |sinks| - i
    {
      hide Do;
      if i >= |sinks| {
        return [];
      }
      if sinks[i].dead || sinks[i].generation > g || sinks[i].name != name {
        calls := Loop(name, g, fire, i + 1, scripts);
        return;
      }
      ghost var called := sinks[i].generation;
      log := log + [Called(fire, called)];
      if scripts == [] {
        calls := Loop(name, g, fire, i + 1, scripts);
      } else {
        Run(scripts[0].actions);
        calls := Loop(name, g, fire, i + 1, scripts[1..]);
      }
      calls := [called] + calls;
    }
  }
}
