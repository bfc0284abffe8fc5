// Hyperlink sets, sharing one list from which the oldest goes.

module Hyperlinks {
  import opened Strings

  const MAX_HYPERLINKS := 5000
  const MAX_HYPERLINK_URI := 1024

  // struct hyperlinks_uri; external is the number in the external ID.
  datatype Entry = Entry(owner: nat, inner: nat, id: string, uri: string, external: nat)

  // struct hyperlinks, with its trees in order
  datatype Links = Links(nextInner: nat, byInner: seq<Entry>, byUri: seq<Entry>, references: nat)

  datatype State = State(sets: map<nat, Links>, list: seq<Entry>, count: int, nextExternal: nat)

  // ----- The comparators -----

  datatype Tree = ByInner | ByUri

  function NumberCmp(a: nat, b: nat): int {
    if a < b then -1 else if a > b then 1 else 0
  }

  function Cmp(t: Tree, left: Entry, right: Entry): int {
    if t == ByInner then NumberCmp(left.inner, right.inner)
    else if left.id == "" || right.id == "" then
      if left.id != "" then -1
      else if right.id != "" then 1
      else NumberCmp(left.inner, right.inner)
    else
      var r := Strcmp(left.id, right.id);
      if r != 0 then r else Strcmp(left.uri, right.uri)
  }

  // What a tree takes to be the same entry.
  predicate SameKey(t: Tree, a: Entry, b: Entry) {
    if t == ByInner || (a.id == "" && b.id == "") then a.inner == b.inner else a.id == b.id && a.uri == b.uri
  }

  // Both comparators are total orders of their keys.
  lemma CmpTotal(t: Tree, a: Entry, b: Entry)
    ensures Cmp(t, a, b) == -Cmp(t, b, a)
    ensures Cmp(t, a, b) == 0 <==> SameKey(t, a, b)
  {
    StrcmpSame(a.id, b.id);
    StrcmpSame(a.uri, b.uri);
  }

  lemma CmpTransitive(t: Tree, a: Entry, b: Entry, c: Entry)
    requires Cmp(t, a, b) < 0 && Cmp(t, b, c) < 0
    ensures Cmp(t, a, c) < 0
  {
    StrcmpSame(a.id, b.id);
    StrcmpSame(b.id, c.id);
    if Strcmp(a.id, b.id) < 0 && Strcmp(b.id, c.id) < 0 {
      StrcmpTransitive(a.id, b.id, c.id);
    }
    if Strcmp(a.uri, b.uri) < 0 && Strcmp(b.uri, c.uri) < 0 {
      StrcmpTransitive(a.uri, b.uri, c.uri);
    }
  }

  // Named links come before anonymous ones, and looking one up needs no inner number.
  lemma NamedFirst(a: Entry, b: Entry, inner: nat)
    requires a.id != ""
    ensures b.id == "" ==> Cmp(ByUri, a, b) < 0
    ensures Cmp(ByUri, a.(inner := inner), b) == Cmp(ByUri, a, b)
  {
  }

  // ----- Trees -----

  ghost predicate Sorted(t: Tree, q: seq<Entry>) {
    forall i, j :: 0 <= i < j < |q| ==> Cmp(t, q[i], q[j]) < 0
  }

  function Position(t: Tree, q: seq<Entry>, x: Entry): (p: nat)
    ensures p <= |q|
    ensures forall i :: 0 <= i < p ==> Cmp(t, q[i], x) < 0
    ensures p < |q| ==> Cmp(t, q[p], x) >= 0
  {
    if q == [] || Cmp(t, q[0], x) >= 0 then 0
    else
      var p := 1 + Position(t, q[1..], x);
      assert forall i :: 0 < i < p ==> q[i] == q[1..][i - 1];
      p
  }

  datatype Option = None | Some(entry: Entry)

  function Find(t: Tree, q: seq<Entry>, x: Entry): Option {
    var p := Position(t, q, x);
    if p < |q| && Cmp(t, q[p], x) == 0 then Some(q[p]) else None
  }

  function InsertIn(t: Tree, q: seq<Entry>, x: Entry): seq<Entry> {
    var p := Position(t, q, x);
    q[..p] + [x] + q[p..]
  }

  function Without(q: seq<Entry>, x: Entry): seq<Entry> {
    if q == [] then [] else (if q[0] == x then [] else [q[0]]) + Without(q[1..], x)
  }

  lemma FindFinds(t: Tree, q: seq<Entry>, x: Entry)
    requires Sorted(t, q)
    ensures forall y :: y in q && SameKey(t, y, x) ==> Find(t, q, x) == Some(y)
    ensures Find(t, q, x).Some? ==> Find(t, q, x).entry in q && SameKey(t, Find(t, q, x).entry, x)
  {
    hide Cmp, SameKey;
    var p := Position(t, q, x);
    if p < |q| {
      CmpTotal(t, q[p], x);
    }
    forall i | 0 <= i < |q| && SameKey(t, q[i], x)
      ensures i == p
    {
      CmpTotal(t, q[i], x);
      if i > p {
        CmpTotal(t, q[p], x);
        CmpTotal(t, q[p], q[i]);
        CmpTotal(t, x, q[p]);
        AfterBigger(t, q[p], x, q[i]);
      }
    }
  }

  lemma AfterBigger(t: Tree, a: Entry, x: Entry, b: Entry)
    requires Cmp(t, a, x) >= 0 && Cmp(t, a, b) < 0
    ensures Cmp(t, x, b) < 0
  {
    CmpTotal(t, a, x);
    if Cmp(t, x, a) < 0 {
      CmpTransitive(t, x, a, b);
    } else {
      SameOrder(t, a, x, b);
    }
  }

  lemma SameOrder(t: Tree, a: Entry, x: Entry, b: Entry)
    requires Cmp(t, a, x) == 0
    ensures Cmp(t, x, b) == Cmp(t, a, b)
  {
    CmpTotal(t, a, x);
  }

  lemma InsertSorted(t: Tree, q: seq<Entry>, x: Entry)
    requires Sorted(t, q) && forall y :: y in q ==> !SameKey(t, y, x)
    ensures Sorted(t, InsertIn(t, q, x))
    ensures forall y :: y in InsertIn(t, q, x) <==> y in q || y == x
  {
    hide Cmp, SameKey;
    var p, r := Position(t, q, x), InsertIn(t, q, x);
    forall i | p <= i < |q|
      ensures Cmp(t, x, q[i]) < 0
    {
      CmpTotal(t, q[p], x);
      CmpTotal(t, x, q[p]);
      if i > p {
        AfterBigger(t, q[p], x, q[i]);
      } else {
        assert q[p] in q;
      }
    }
    InsertMembers(q, p, x);
  }

  lemma InsertMembers(q: seq<Entry>, p: nat, x: Entry)
    requires p <= |q|
    ensures forall y :: y in q[..p] + [x] + q[p..] <==> y in q || y == x
  {
    assert q == q[..p] + q[p..];
  }

  lemma {:induction false} WithoutSorted(t: Tree, q: seq<Entry>, x: Entry)
    requires Sorted(t, q)
    ensures Sorted(t, Without(q, x)) && forall y :: y in Without(q, x) <==> y in q && y != x
  {
    hide Cmp;
    if q != [] {
      assert Sorted(t, q[1..]);
      WithoutSorted(t, q[1..], x);
      var rest := Without(q[1..], x);
      forall i | 0 <= i < |rest|
        ensures Cmp(t, q[0], rest[i]) < 0
      {
        assert rest[i] in q[1..];
      }
      assert q == [q[0]] + q[1..];
    }
  }

  // ----- Operations -----

  // hyperlinks_remove
  function Remove(s: State, x: Entry): State
    requires x.owner in s.sets
  {
    var hl := s.sets[x.owner];
    State(s.sets[x.owner := hl.(byInner := Without(hl.byInner, x), byUri := Without(hl.byUri, x))],
          Without(s.list, x), s.count - 1, s.nextExternal)
  }

  // A new entry in its set's trees and at the end of the list.
  function Added(s: State, x: Entry): State
    requires x.owner in s.sets
  {
    var hl := s.sets[x.owner];
    State(s.sets[x.owner := hl.(nextInner := hl.nextInner + 1, byInner := InsertIn(ByInner, hl.byInner, x),
                                byUri := InsertIn(ByUri, hl.byUri, x))],
          s.list + [x], s.count + 1, s.nextExternal + 1)
  }

  function NewEntry(s: State, h: nat, uri: string, id: string): Entry
    requires h in s.sets
  {
    Entry(h, s.sets[h].nextInner, id, uri, s.nextExternal)
  }

  // hyperlinks_put, with the URI and ID already made printable; no ID is an empty one.
  function Put(s: State, h: nat, uri: string, id: string): (nat, State)
    requires h in s.sets
  {
    if |uri| > MAX_HYPERLINK_URI then (0, s)
    else
      var x := NewEntry(s, h, uri, id);
      var found := if id != "" then Find(ByUri, s.sets[h].byUri, x) else None;
      if found.Some? then (found.entry.inner, s)
      else
        var s1 := Added(s, x);
        (x.inner, if s1.count == MAX_HYPERLINKS && s1.list[0].owner in s1.sets then Remove(s1, s1.list[0]) else s1)
  }

  // hyperlinks_get
  function Get(s: State, h: nat, inner: nat): Option
    requires h in s.sets
  {
    Find(ByInner, s.sets[h].byInner, Entry(h, inner, "", "", 0))
  }

  // hyperlinks_reset, removing what is left of a list of entries in turn
  function RemoveAll(s: State, xs: seq<Entry>): State
    decreases xs
  {
    if xs == [] then s
    else if xs[0].owner in s.sets then RemoveAll(Remove(s, xs[0]), xs[1..])
    else RemoveAll(s, xs[1..])
  }

  function Reset(s: State, h: nat): State
    requires h in s.sets
  {
    RemoveAll(s, s.sets[h].byInner)
  }

  // hyperlinks_free
  function Free(s: State, h: nat): State
    requires h in s.sets && s.sets[h].references > 0
  {
    if s.sets[h].references > 1 then s.(sets := s.sets[h := s.sets[h].(references := s.sets[h].references - 1)])
    else
      var s1 := Reset(s, h);
      s1.(sets := s1.sets - {h})
  }

  // ----- What always holds -----

  ghost predicate SetOk(hl: Links, list: seq<Entry>, h: nat) {
    && hl.nextInner >= 1 && hl.references >= 1
    && Sorted(ByInner, hl.byInner) && Sorted(ByUri, hl.byUri)
    && (forall x :: x in hl.byInner <==> x in list && x.owner == h)
    && (forall x :: x in hl.byUri <==> x in list && x.owner == h)
    && (forall x :: x in hl.byInner ==> 1 <= x.inner < hl.nextInner)
  }

  // The list is in the order the links were made.
  ghost predicate Oldest(list: seq<Entry>, next: nat) {
    && (forall i, j :: 0 <= i < j < |list| ==> list[i].external < list[j].external)
    && (forall i :: 0 <= i < |list| ==> list[i].external < next)
  }

  // Each set's trees hold exactly its entries of the list; there are never too many.
  ghost predicate Valid(s: State) {
    && s.count == |s.list| && s.count < MAX_HYPERLINKS && Oldest(s.list, s.nextExternal)
    && (forall x :: x in s.list ==> x.owner in s.sets)
    && (forall h :: h in s.sets ==> SetOk(s.sets[h], s.list, h))
  }

  // As Valid, for the moment there is one too many.
  ghost predicate Full(s: State) {
    && s.count == |s.list| && s.count <= MAX_HYPERLINKS && Oldest(s.list, s.nextExternal)
    && (forall x :: x in s.list ==> x.owner in s.sets)
    && (forall h :: h in s.sets ==> SetOk(s.sets[h], s.list, h))
  }

  lemma {:induction false} WithoutList(list: seq<Entry>, x: Entry, next: nat)
    requires Oldest(list, next) && x in list
    ensures Oldest(Without(list, x), next) && |Without(list, x)| == |list| - 1
    ensures forall y :: y in Without(list, x) <==> y in list && y != x
    ensures list[0] == x ==> Without(list, x) == list[1..]
    decreases |list|
  {
    var rest := list[1..];
    assert list == [list[0]] + rest;
    if list[0] == x {
      WithoutAbsent(rest, x);
    } else {
      WithoutList(rest, x, next);
      var r := Without(rest, x);
      forall i | 0 <= i < |r|
        ensures list[0].external < r[i].external
      {
        assert r[i] in rest;
      }
    }
  }

  lemma {:induction false} WithoutAbsent(list: seq<Entry>, x: Entry)
    requires forall i :: 0 <= i < |list| ==> list[i] != x
    ensures Without(list, x) == list
  {
    if list != [] {
      WithoutAbsent(list[1..], x);
    }
  }

  lemma RemoveKeeps(s: State, x: Entry)
    requires Full(s) && x in s.list
    ensures x.owner in s.sets && Valid(Remove(s, x))
    ensures Remove(s, x).sets.Keys == s.sets.Keys && Remove(s, x).nextExternal == s.nextExternal
    ensures s.list[0] == x ==> Remove(s, x).list == s.list[1..]
    ensures forall y :: y in Remove(s, x).list <==> y in s.list && y != x
  {
    hide Cmp, Oldest, Sorted, Without;
    var r := Remove(s, x);
    WithoutList(s.list, x, s.nextExternal);
    forall h | h in r.sets
      ensures SetOk(r.sets[h], r.list, h)
    {
      assert SetOk(s.sets[h], s.list, h);
      WithoutSorted(ByInner, s.sets[h].byInner, x);
      WithoutSorted(ByUri, s.sets[h].byUri, x);
    }
  }

  lemma AddedKeeps(s: State, h: nat, uri: string, id: string)
    requires Valid(s) && h in s.sets
    requires id != "" ==> Find(ByUri, s.sets[h].byUri, NewEntry(s, h, uri, id)).None?
    ensures Full(Added(s, NewEntry(s, h, uri, id)))
  {
    hide Cmp, Sorted, Position, InsertIn;
    var x := NewEntry(s, h, uri, id);
    var r, hl := Added(s, x), s.sets[h];
    assert SetOk(hl, s.list, h);
    FindFinds(ByUri, hl.byUri, x);
    forall y | y in hl.byUri
      ensures !SameKey(ByUri, y, x) && !SameKey(ByInner, y, x)
    {
      assert y in hl.byInner;
    }
    InsertSorted(ByInner, hl.byInner, x);
    InsertSorted(ByUri, hl.byUri, x);
    forall g | g in r.sets
      ensures SetOk(r.sets[g], r.list, g)
    {
      assert SetOk(s.sets[g], s.list, g);
    }
  }

  // ----- The operations keep it -----

  // What is new goes on the end of the list, and when that makes one too many, the oldest of all goes:
  // never the new one.
  lemma PutKeeps(s: State, h: nat, uri: string, id: string)
    requires Valid(s) && h in s.sets
    ensures var (inner, r) := Put(s, h, uri, id);
      && Valid(r) && r.sets.Keys == s.sets.Keys
      && (inner == 0 <==> |uri| > 1024) && (inner == 0 ==> r == s)
      && (r == s || (
           && inner == s.sets[h].nextInner
           && r.list == (if |s.list| + 1 == 5000 then s.list[1..] else s.list) + [NewEntry(s, h, uri, id)]))
  {
    hide Cmp, Oldest, Find, Added, Remove, SetOk;
    if |uri| <= MAX_HYPERLINK_URI {
      var x := NewEntry(s, h, uri, id);
      PutFound(s, h, x);
      if id == "" || Find(ByUri, s.sets[h].byUri, x).None? {
        AddedKeeps(s, h, uri, id);
        AddedList(s, x);
        var s1 := Added(s, x);
        if s1.count == MAX_HYPERLINKS {
          RemoveKeeps(s1, s1.list[0]);
          assert s1.list[1..] == s.list[1..] + [x];
        }
      }
    }
  }

  lemma AddedList(s: State, x: Entry)
    requires x.owner in s.sets
    ensures Added(s, x).list == s.list + [x] && Added(s, x).count == s.count + 1 && Added(s, x).sets.Keys == s.sets.Keys
  {
  }

  lemma PutFound(s: State, h: nat, x: Entry)
    requires Valid(s) && h in s.sets
    ensures s.sets[h].nextInner >= 1
    ensures Find(ByUri, s.sets[h].byUri, x).Some? ==> Find(ByUri, s.sets[h].byUri, x).entry.inner >= 1
  {
    hide Cmp, Sorted, Position;
    assert SetOk(s.sets[h], s.list, h);
    FindFinds(ByUri, s.sets[h].byUri, x);
  }

  // The entry of an inner number is the one in the list.
  lemma GetIsListed(s: State, h: nat, inner: nat)
    requires Valid(s) && h in s.sets
    ensures forall x :: x in s.list && x.owner == h && x.inner == inner ==> Get(s, h, inner) == Some(x)
    ensures Get(s, h, inner).Some? ==>
      var x := Get(s, h, inner).entry; x in s.list && x.owner == h && x.inner == inner
  {
    hide Cmp, Sorted, Position, Find;
    assert SetOk(s.sets[h], s.list, h);
    FindFinds(ByInner, s.sets[h].byInner, Entry(h, inner, "", "", 0));
  }

  // A link that has been put can be got.
  lemma GetAfterPut(s: State, h: nat, uri: string, id: string)
    requires Valid(s) && h in s.sets && |uri| <= MAX_HYPERLINK_URI
    ensures var (inner, r) := Put(s, h, uri, id);
      h in r.sets && Get(r, h, inner).Some? && Get(r, h, inner).entry.uri == uri && Get(r, h, inner).entry.id == id
  {
    hide Cmp, Sorted, Position, Find, Added, Remove, Oldest, Get;
    var (inner, r) := Put(s, h, uri, id);
    var x := NewEntry(s, h, uri, id);
    PutKeeps(s, h, uri, id);
    GetIsListed(r, h, inner);
    assert SetOk(s.sets[h], s.list, h);
    FindFinds(ByUri, s.sets[h].byUri, x);
    if r != s {
      assert r.list[|r.list| - 1] == x;
    } else {
      PutSame(s, h, uri, id);
    }
  }

  lemma PutNew(s: State, h: nat, uri: string, id: string)
    requires Valid(s) && h in s.sets && |uri| <= MAX_HYPERLINK_URI
    requires id != "" ==> Find(ByUri, s.sets[h].byUri, NewEntry(s, h, uri, id)).None?
    ensures Put(s, h, uri, id).1.nextExternal == s.nextExternal + 1
  {
    hide Cmp, Find, Remove, Oldest, SetOk;
    AddedKeeps(s, h, uri, id);
    var s1 := Added(s, NewEntry(s, h, uri, id));
    if s1.count == MAX_HYPERLINKS {
      RemoveKeeps(s1, s1.list[0]);
    }
  }

  lemma PutSame(s: State, h: nat, uri: string, id: string)
    requires Valid(s) && h in s.sets && |uri| <= MAX_HYPERLINK_URI && Put(s, h, uri, id).1 == s
    ensures id != "" && Find(ByUri, s.sets[h].byUri, NewEntry(s, h, uri, id)).Some?
    ensures Put(s, h, uri, id).0 == Find(ByUri, s.sets[h].byUri, NewEntry(s, h, uri, id)).entry.inner
  {
    hide Cmp, Find, Remove, Oldest, SetOk, Added;
    if id == "" || Find(ByUri, s.sets[h].byUri, NewEntry(s, h, uri, id)).None? {
      PutNew(s, h, uri, id);
    }
  }

  // A link with an ID has one inner number while it lives: putting it again changes nothing.
  lemma PutAgain(s: State, h: nat, uri: string, id: string)
    requires Valid(s) && h in s.sets && id != "" && |uri| <= MAX_HYPERLINK_URI
    ensures var (inner, r) := Put(s, h, uri, id);
      h in r.sets && Put(r, h, uri, id) == (inner, r)
  {
    hide Cmp, Sorted, Position, Find, Added, Remove, Oldest;
    var (inner, r) := Put(s, h, uri, id);
    PutKeeps(s, h, uri, id);
    assert SetOk(r.sets[h], r.list, h);
    if r != s {
      var x := NewEntry(s, h, uri, id);
      assert r.list[|r.list| - 1] == x;
      FindFinds(ByUri, r.sets[h].byUri, NewEntry(r, h, uri, id));
      assert x in r.sets[h].byUri;
    }
  }

  // A link without an ID is always a new one, whatever its URI.
  lemma AnonymousNew(s: State, h: nat, uri: string)
    requires Valid(s) && h in s.sets && |uri| <= MAX_HYPERLINK_URI
    ensures var (inner, r) := Put(s, h, uri, "");
      r != s && Get(s, h, inner).None?
  {
    hide Cmp, Sorted, Position, Find, Added, Remove, Oldest;
    var (inner, r) := Put(s, h, uri, "");
    PutKeeps(s, h, uri, "");
    if r == s {
      PutSame(s, h, uri, "");
    }
    GetIsListed(s, h, inner);
    assert SetOk(s.sets[h], s.list, h);
  }

  // ----- Reset and free -----

  // Two entries of a set are one if a tree thinks so.
  lemma {:induction false} RemoveAllKeeps(s: State, xs: seq<Entry>, h: nat)
    requires Valid(s) && h in s.sets && Sorted(ByInner, xs)
    requires forall x :: x in xs ==> x in s.list && x.owner == h
    ensures var r := RemoveAll(s, xs);
      && Valid(r) && r.sets.Keys == s.sets.Keys
      && (forall y :: y in r.list <==> y in s.list && y !in xs)
      && r.sets[h].references == s.sets[h].references
    decreases xs
  {
    hide Cmp, SetOk, Oldest, Remove;
    if xs != [] {
      var x, rest := xs[0], xs[1..];
      assert x in xs && xs == [x] + rest;
      RemoveKeeps(s, x);
      RemoveReferences(s, x);
      var t := Remove(s, x);
      forall y | y in rest
        ensures y in t.list && y.owner == h
      {
        assert y in xs;
        CmpTotal(ByInner, x, x);
      }
      RemoveAllKeeps(t, rest, h);
    }
  }

  lemma RemoveReferences(s: State, x: Entry)
    requires x.owner in s.sets
    ensures Remove(s, x).sets[x.owner].references == s.sets[x.owner].references
    ensures Remove(s, x).sets.Keys == s.sets.Keys
  {
  }

  // Resetting a set takes its links, and only its, out of everything.
  lemma ResetKeeps(s: State, h: nat)
    requires Valid(s) && h in s.sets
    ensures var r := Reset(s, h);
      && Valid(r) && r.sets.Keys == s.sets.Keys && r.sets[h].references == s.sets[h].references
      && (forall y :: y in r.list <==> y in s.list && y.owner != h)
      && r.sets[h].byInner == [] && r.sets[h].byUri == []
  {
    hide Cmp, Sorted, Oldest, RemoveAll;
    assert SetOk(s.sets[h], s.list, h);
    RemoveAllKeeps(s, s.sets[h].byInner, h);
    var r := Reset(s, h);
    assert SetOk(r.sets[h], r.list, h);
    if r.sets[h].byInner != [] {
      SomeMember(r.sets[h].byInner);
    }
    if r.sets[h].byUri != [] {
      SomeMember(r.sets[h].byUri);
    }
  }

  lemma SomeMember(q: seq<Entry>)
    requires q != []
    ensures exists x :: x in q
  {
    assert q[0] in q;
  }

  lemma FreeKeeps(s: State, h: nat)
    requires Valid(s) && h in s.sets
    ensures s.sets[h].references > 0 && Valid(Free(s, h))
    ensures s.sets[h].references == 1 ==>
      h !in Free(s, h).sets && forall y :: y in Free(s, h).list <==> y in s.list && y.owner != h
  {
    hide Cmp, Sorted, Oldest, Reset;
    assert SetOk(s.sets[h], s.list, h);
    var r := Free(s, h);
    if s.sets[h].references == 1 {
      ResetKeeps(s, h);
      var t := Reset(s, h);
      forall g | g in r.sets
        ensures SetOk(r.sets[g], r.list, g)
      {
        assert SetOk(t.sets[g], t.list, g);
      }
    } else {
      forall g | g in r.sets
        ensures SetOk(r.sets[g], r.list, g)
      {
        assert SetOk(s.sets[g], s.list, g);
      }
    }
  }

  // What an operation leaves of each set but for its links.
  ghost predicate SameSets(s: State, r: State) {
    && r.sets.Keys == s.sets.Keys
    && forall g :: g in s.sets ==> r.sets[g].references == s.sets[g].references && r.sets[g].nextInner == s.sets[g].nextInner
  }

  lemma RemoveSame(s: State, x: Entry)
    requires x.owner in s.sets
    ensures SameSets(s, Remove(s, x)) && Remove(s, x).nextExternal == s.nextExternal
  {
  }

  lemma {:induction false} RemoveAllSame(s: State, xs: seq<Entry>)
    ensures SameSets(s, RemoveAll(s, xs)) && RemoveAll(s, xs).nextExternal == s.nextExternal
    decreases xs
  {
    hide Remove;
    if xs != [] && xs[0].owner in s.sets {
      RemoveSame(s, xs[0]);
      RemoveAllSame(Remove(s, xs[0]), xs[1..]);
    } else if xs != [] {
      RemoveAllSame(s, xs[1..]);
    }
  }

  // A new link takes the next inner number of its set and the next external one of all; numbers are not
  // used again, even once a set has been reset.
  lemma NumbersMoveOn(s: State, h: nat, uri: string, id: string)
    requires Valid(s) && h in s.sets
    ensures SameSets(s, Reset(s, h)) && Reset(s, h).nextExternal == s.nextExternal
    ensures var r, hl := Put(s, h, uri, id).1, s.sets[h];
      r == s || (
        && r.sets.Keys == s.sets.Keys && r.nextExternal == s.nextExternal + 1
        && r.sets[h].nextInner == hl.nextInner + 1 && r.sets[h].references == hl.references
        && forall g :: g in s.sets && g != h ==>
             r.sets[g].references == s.sets[g].references && r.sets[g].nextInner == s.sets[g].nextInner)
  {
    hide Cmp, Find, Remove, RemoveAll, InsertIn;
    RemoveAllSame(s, s.sets[h].byInner);
    var s1 := Added(s, NewEntry(s, h, uri, id));
    if s1.list[0].owner in s1.sets {
      RemoveSame(s1, s1.list[0]);
    }
  }

  // Releasing a set n times.
  function Freed(s: State, h: nat, n: nat): State {
    if n == 0 then s
    else
      var t := Freed(s, h, n - 1);
      if h in t.sets && t.sets[h].references > 0 then Free(t, h) else t
  }

  // A set lasts until it has been released as often as it has references, and is till then as it was; then
  // it goes with its links, and no other set or link does.
  lemma {:induction false} FreedLast(s: State, h: nat, n: nat)
    requires Valid(s) && h in s.sets && n <= s.sets[h].references
    ensures var r := Freed(s, h, n);
      && Valid(r)
      && (n < s.sets[h].references ==> (
           && r == s.(sets := r.sets) && h in r.sets
           && r.sets == s.sets[h := s.sets[h].(references := r.sets[h].references)]
           && r.sets[h].references == s.sets[h].references - n))
      && (n == s.sets[h].references ==> (
           && r.sets.Keys == s.sets.Keys - {h}
           && forall y :: y in r.list <==> y in s.list && y.owner != h))
    decreases n
  {
    hide Cmp, Sorted, Oldest, Reset, SetOk, Free;
    if n == 0 {
      FreeKeeps(s, h);
      assert s.sets[h := s.sets[h].(references := s.sets[h].references)] == s.sets;
    } else {
      FreedLast(s, h, n - 1);
      var t := Freed(s, h, n - 1);
      FreeKeeps(t, h);
      FreeParts(t, h);
      ResetKeeps(t, h);
    }
  }

  lemma FreeParts(s: State, h: nat)
    requires h in s.sets && s.sets[h].references > 0
    ensures s.sets[h].references > 1 ==>
      Free(s, h) == s.(sets := s.sets[h := s.sets[h].(references := s.sets[h].references - 1)])
    ensures s.sets[h].references == 1 ==> Free(s, h).sets.Keys == Reset(s, h).sets.Keys - {h}
  {
    hide Reset;
  }

  // ----- Runs -----

  datatype Op = PutLink(h: nat, uri: string, id: string) | ResetSet(h: nat) | FreeSet(h: nat) | CopySet(h: nat) | NewSet

  // hyperlinks_init gives a set a name no other has had.
  function Step(s: State, op: Op, name: nat): State {
    match op
    case PutLink(h, uri, id) => if h in s.sets then Put(s, h, uri, id).1 else s
    case ResetSet(h) => if h in s.sets then Reset(s, h) else s
    case FreeSet(h) => if h in s.sets && s.sets[h].references > 0 then Free(s, h) else s
    case CopySet(h) =>
      if h in s.sets then s.(sets := s.sets[h := s.sets[h].(references := s.sets[h].references + 1)]) else s
    case NewSet => if name in s.sets then s else s.(sets := s.sets[name := Links(1, [], [], 1)])
  }

  lemma StepKeeps(s: State, op: Op, name: nat)
    requires Valid(s)
    ensures Valid(Step(s, op, name))
  {
    hide Cmp, Oldest, Put, Reset, Free;
    match op
    case PutLink(h, uri, id) =>
      if h in s.sets {
        PutKeeps(s, h, uri, id);
      }
    case ResetSet(h) =>
      if h in s.sets {
        ResetKeeps(s, h);
      }
    case FreeSet(h) =>
      if h in s.sets {
        FreeKeeps(s, h);
      }
    case CopySet(h) => CopyKeeps(s, h);
    case NewSet => NewKeeps(s, name);
  }

  lemma CopyKeeps(s: State, h: nat)
    requires Valid(s)
    ensures h in s.sets ==> Valid(s.(sets := s.sets[h := s.sets[h].(references := s.sets[h].references + 1)]))
  {
    hide Cmp, Sorted, Oldest;
    if h in s.sets {
      var r := s.(sets := s.sets[h := s.sets[h].(references := s.sets[h].references + 1)]);
      forall g | g in r.sets
        ensures SetOk(r.sets[g], r.list, g)
      {
        assert SetOk(s.sets[g], s.list, g);
      }
    }
  }

  lemma NewKeeps(s: State, name: nat)
    requires Valid(s)
    ensures name !in s.sets ==> Valid(s.(sets := s.sets[name := Links(1, [], [], 1)]))
  {
    hide Cmp, Oldest;
  }

  function Final(s: State, ops: seq<(Op, nat)>): State
    decreases ops
  {
    if ops == [] then s else Final(Step(s, ops[0].0, ops[0].1), ops[1..])
  }

  lemma {:induction false} FinalKeeps(s: State, ops: seq<(Op, nat)>)
    requires Valid(s)
    ensures Valid(Final(s, ops))
    decreases ops
  {
    hide Valid, Step;
    if ops != [] {
      StepKeeps(s, ops[0].0, ops[0].1);
      FinalKeeps(Step(s, ops[0].0, ops[0].1), ops[1..]);
    }
  }

  // After any run, over any number of sets: there are fewer than the limit, a set's entry for an inner
  // number is its one entry of the list with it, and no two entries of a set have the same ID and URI.
  lemma RunResults(ops: seq<(Op, nat)>)
    ensures var s := Final(State(map[], [], 0, 1), ops);
      && Valid(s) && |s.list| < 5000
      && (forall x, y :: x in s.list && y in s.list && x.owner == y.owner && x.id == y.id != "" && x.uri == y.uri ==> x == y)
  {
    hide Final, Cmp, Oldest;
    StartValid();
    FinalKeeps(State(map[], [], 0, 1), ops);
    var s := Final(State(map[], [], 0, 1), ops);
    forall x, y | x in s.list && y in s.list && x.owner == y.owner && x.id == y.id != "" && x.uri == y.uri
      ensures x == y
    {
      OneEach(s, x, y);
    }
  }

  lemma StartValid()
    ensures Valid(State(map[], [], 0, 1))
  {
  }

  lemma OneEach(s: State, x: Entry, y: Entry)
    requires Valid(s) && x in s.list && y in s.list && x.owner == y.owner && x.id == y.id != "" && x.uri == y.uri
    ensures x == y
  {
    hide Cmp, Oldest, Sorted, Find;
    var hl := s.sets[x.owner];
    assert SetOk(hl, s.list, x.owner);
    FindFinds(ByUri, hl.byUri, x);
    assert SameKey(ByUri, y, x);
  }

  // ----- In place -----

  class Table {
    var sets: map<nat, Links>
    var list: seq<Entry>
    var count: int
    var nextExternal: nat

    ghost function St(): State
      reads this
    {
      State(sets, list, count, nextExternal)
    }

    constructor ()
      ensures Valid(St()) && sets == map[]
    {
      sets, list, count, nextExternal := map[], [], 0, 1;
      new;
      StartValid();
    }

    // RB_FIND
    static method Lookup(t: Tree, q: seq<Entry>, x: Entry) returns (r: Option)
      ensures r == Find(t, q, x)
    {
      hide Cmp;
      var p := 0;
      assert q[0..] == q;
      while p < |q| && Cmp(t, q[p], x) < 0
        invariant p <= |q| && Position(t, q, x) == p + Position(t, q[p..], x)
      {
        assert q[p..][1..] == q[p + 1..];
        p := p + 1;
      }
      if p < |q| && Cmp(t, q[p], x) == 0 {
        return Some(q[p]);
      }
      return None;
    }

    method RemoveLink(x: Entry)
      requires x.owner in sets
      modifies this
      ensures St() == Remove(old(St()), x)
    {
      list := Without(list, x);
      count := count - 1;
      var hl := sets[x.owner];
      sets := sets[x.owner := hl.(byInner := Without(hl.byInner, x), byUri := Without(hl.byUri, x))];
    }

    method AddLink(x: Entry)
      requires x.owner in sets
      modifies this
      ensures St() == Added(old(St()), x)
    {
      var hl := sets[x.owner];
      sets := sets[x.owner := hl.(nextInner := hl.nextInner + 1, byInner := InsertIn(ByInner, hl.byInner, x),
                                  byUri := InsertIn(ByUri, hl.byUri, x))];
      list, count, nextExternal := list + [x], count + 1, nextExternal + 1;
    }

    // hyperlinks_put
    method PutUri(h: nat, uri: string, id: string) returns (inner: nat)
      requires Valid(St()) && h in sets
      modifies this
      ensures Valid(St()) && (inner, St()) == Put(old(St()), h, uri, id)
    {
      hide Cmp, Find, Added, Remove, SetOk, Oldest;
      ghost var s := St();
      PutKeeps(s, h, uri, id);
      if |uri| > MAX_HYPERLINK_URI {
        return 0;
      }
      var x := Entry(h, sets[h].nextInner, id, uri, nextExternal);
      if id != "" {
        var found := Lookup(ByUri, sets[h].byUri, x);
        if found.Some? {
          return found.entry.inner;
        }
      }
      AddedKeeps(s, h, uri, id);
      AddedList(s, x);
      AddLink(x);
      if count == MAX_HYPERLINKS {
        assert list[0] in list;
        RemoveLink(list[0]);
      }
      return x.inner;
    }

    // hyperlinks_get
    method GetUri(h: nat, inner: nat) returns (r: Option)
      requires h in sets
      ensures r == Get(St(), h, inner)
    {
      r := Lookup(ByInner, sets[h].byInner, Entry(h, inner, "", "", 0));
    }

    // hyperlinks_reset
    method ResetLinks(h: nat)
      requires Valid(St()) && h in sets
      modifies this
      ensures Valid(St()) && St() == Reset(old(St()), h)
    {
      hide Cmp, Remove, SetOk, Oldest;
      ghost var s := St();
      ResetKeeps(s, h);
      var xs := sets[h].byInner;
      while xs != []
        invariant RemoveAll(St(), xs) == RemoveAll(s, s.sets[h].byInner)
        decreases |xs|
      {
        if xs[0].owner in sets {
          RemoveLink(xs[0]);
        }
        xs := xs[1..];
      }
    }

    // hyperlinks_free
    method FreeLinks(h: nat)
      requires Valid(St()) && h in sets
      modifies this
      ensures old(sets)[h].references > 0 && Valid(St()) && St() == Free(old(St()), h)
    {
      hide Cmp, Reset, SetOk, Oldest;
      ghost var s := St();
      FreeKeeps(s, h);
      if sets[h].references > 1 {
        sets := sets[h := sets[h].(references := sets[h].references - 1)];
      } else {
        ResetLinks(h);
        sets := sets - {h};
      }
    }
  }
}
