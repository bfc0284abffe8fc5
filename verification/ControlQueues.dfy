// Facts about queues of block names: what taking one off or adding one does to the pane queues, the sizes,
// the reply bytes and the lines of the client queue.

module ControlQueues {
  import opened Control

  ghost predicate Sorted(q: seq<nat>) {
    forall i, j :: 0 <= i < j < |q| ==> q[i] < q[j]
  }

  lemma SortedInit(q: seq<nat>)
    requires Sorted(q) && q != []
    ensures Sorted(q[..|q| - 1]) && q[|q| - 1] !in q[..|q| - 1]
    ensures forall x :: x in q <==> x in q[..|q| - 1] || x == q[|q| - 1]
  {
    assert q == q[..|q| - 1] + [q[|q| - 1]];
  }

  lemma SortedTail(q: seq<nat>)
    requires Sorted(q) && q != []
    ensures Sorted(q[1..]) && q[0] !in q[1..]
    ensures forall x :: x in q <==> x in q[1..] || x == q[0]
  {
    assert q == [q[0]] + q[1..];
  }

  lemma SortedPush(q: seq<nat>, b: nat)
    requires Sorted(q) && forall x :: x in q ==> x < b
    ensures Sorted(q + [b]) && forall x :: x in q + [b] <==> x in q || x == b
  {
    assert forall i :: 0 <= i < |q| ==> q[i] in q;
  }

  lemma WithoutPush(q: seq<nat>, x: nat, b: nat)
    ensures Without(q + [x], b) == Without(q, b) + if x == b then [] else [x]
  {
    assert (q + [x])[..|q|] == q;
  }

  lemma {:induction false} WithoutSorted(q: seq<nat>, b: nat)
    requires Sorted(q)
    ensures Sorted(Without(q, b)) && forall x :: x in Without(q, b) <==> x in q && x != b
  {
    if q != [] {
      SortedInit(q);
      var init := q[..|q| - 1];
      WithoutSorted(init, b);
      if q[|q| - 1] != b {
        SortedPush(Without(init, b), q[|q| - 1]);
      }
    }
  }

  lemma {:induction false} WithoutAbsent(q: seq<nat>, b: nat)
    requires b !in q
    ensures Without(q, b) == q
  {
    if q != [] {
      WithoutAbsent(q[..|q| - 1], b);
    }
  }

  lemma {:induction false} WithoutHead(q: seq<nat>)
    requires Sorted(q) && q != []
    ensures Without(q, q[0]) == q[1..]
  {
    SortedInit(q);
    var init := q[..|q| - 1];
    if init != [] {
      WithoutHead(init);
      assert q[1..] == init[1..] + [q[|q| - 1]];
    }
  }

  lemma {:induction false} PaneBlocksMembers(q: seq<nat>, owner: map<nat, nat>, p: nat)
    requires Sorted(q)
    ensures Sorted(PaneBlocks(q, owner, p))
    ensures forall x :: x in PaneBlocks(q, owner, p) <==> x in q && x in owner && owner[x] == p
  {
    if q != [] {
      SortedInit(q);
      var init, b := q[..|q| - 1], q[|q| - 1];
      PaneBlocksMembers(init, owner, p);
      if b in owner && owner[b] == p {
        SortedPush(PaneBlocks(init, owner, p), b);
      }
    }
  }

  lemma {:induction false} PaneBlocksWithout(q: seq<nat>, owner: map<nat, nat>, p: nat, b: nat)
    ensures PaneBlocks(Without(q, b), owner, p) == Without(PaneBlocks(q, owner, p), b)
  {
    if q != [] {
      var init, last := q[..|q| - 1], q[|q| - 1];
      PaneBlocksWithout(init, owner, p, b);
      PaneBlocksPush(Without(init, b), owner, p, last);
      WithoutPush(PaneBlocks(init, owner, p), last, b);
      assert Without(init, b) + [] == Without(init, b);
      assert PaneBlocks(init, owner, p) + [] == PaneBlocks(init, owner, p);
      assert Without(PaneBlocks(init, owner, p), b) + [] == Without(PaneBlocks(init, owner, p), b);
    }
  }

  lemma {:induction false} PaneBlocksSame(q: seq<nat>, owner: map<nat, nat>, owner2: map<nat, nat>, p: nat)
    requires forall x :: x in q ==> (x in owner <==> x in owner2) && (x in owner ==> owner[x] == owner2[x])
    ensures PaneBlocks(q, owner, p) == PaneBlocks(q, owner2, p)
  {
    if q != [] {
      PaneBlocksSame(q[..|q| - 1], owner, owner2, p);
    }
  }

  lemma PaneBlocksPush(q: seq<nat>, owner: map<nat, nat>, p: nat, b: nat)
    ensures PaneBlocks(q + [b], owner, p) ==
      PaneBlocks(q, owner, p) + if b in owner && owner[b] == p then [b] else []
  {
    assert (q + [b])[..|q|] == q;
  }

  lemma {:induction false} PaneBlocksNone(q: seq<nat>, owner: map<nat, nat>, p: nat)
    requires forall x :: x in q && x in owner ==> owner[x] != p
    ensures PaneBlocks(q, owner, p) == []
  {
    if q != [] {
      PaneBlocksNone(q[..|q| - 1], owner, p);
    }
  }

  // ----- Sums -----

  function SizeOf(blocks: map<nat, Block>, b: nat): nat {
    if b in blocks && blocks[b].Output? then blocks[b].size else 0
  }

  function ReplyOf(blocks: map<nat, Block>, b: nat): nat {
    if b in blocks && blocks[b].Text? then |blocks[b].msg.text| + 1 else 0
  }

  lemma {:induction false} SumsSame(q: seq<nat>, blocks: map<nat, Block>, blocks2: map<nat, Block>)
    requires forall x :: x in q ==> (x in blocks <==> x in blocks2) && (x in blocks ==> blocks[x] == blocks2[x])
    ensures Sizes(q, blocks) == Sizes(q, blocks2) && ReplySum(q, blocks) == ReplySum(q, blocks2)
    ensures Texts(q, blocks) == Texts(q, blocks2)
  {
    if q != [] {
      SumsSame(q[..|q| - 1], blocks, blocks2);
    }
  }

  lemma SumsPush(q: seq<nat>, blocks: map<nat, Block>, b: nat)
    ensures Sizes(q + [b], blocks) == Sizes(q, blocks) + SizeOf(blocks, b)
    ensures ReplySum(q + [b], blocks) == ReplySum(q, blocks) + ReplyOf(blocks, b)
    ensures Texts(q + [b], blocks) ==
      Texts(q, blocks) + if b in blocks && blocks[b].Text? then [Entry(b, blocks[b].msg)] else []
  {
    assert (q + [b])[..|q|] == q;
  }

  lemma {:induction false} SumsWithout(q: seq<nat>, blocks: map<nat, Block>, b: nat)
    requires Sorted(q) && b in q
    ensures Sizes(q, blocks) == Sizes(Without(q, b), blocks) + SizeOf(blocks, b)
    ensures ReplySum(q, blocks) == ReplySum(Without(q, b), blocks) + ReplyOf(blocks, b)
    ensures b in blocks && blocks[b].Output? ==> Texts(Without(q, b), blocks) == Texts(q, blocks)
    decreases |q|
  {
    SortedInit(q);
    var init, last := q[..|q| - 1], q[|q| - 1];
    if last == b {
      WithoutAbsent(init, b);
      assert Without(q, b) == init;
    } else {
      SumsWithout(init, blocks, b);
      assert Without(q, b) == Without(init, b) + [last];
      SumsPush(Without(init, b), blocks, last);
    }
  }

  lemma {:induction false} SumsHead(q: seq<nat>, blocks: map<nat, Block>)
    requires q != []
    ensures Sizes(q, blocks) == SizeOf(blocks, q[0]) + Sizes(q[1..], blocks)
    ensures Texts(q, blocks) ==
      (if q[0] in blocks && blocks[q[0]].Text? then [Entry(q[0], blocks[q[0]].msg)] else []) + Texts(q[1..], blocks)
    decreases |q|
  {
    var init := q[..|q| - 1];
    if init != [] {
      SumsHead(init, blocks);
      assert q[1..][..|q| - 2] == init[1..];
    } else {
      assert q[1..] == [];
    }
  }

  // A queue with b's size changed
  lemma {:induction false} SizesResized(q: seq<nat>, blocks: map<nat, Block>, b: nat, size: nat, t: nat)
    requires Sorted(q) && b in q && b in blocks && blocks[b].Output?
    ensures var blocks2 := blocks[b := Output(size, t)];
      && Sizes(q, blocks2) + blocks[b].size == Sizes(q, blocks) + size
      && ReplySum(q, blocks2) == ReplySum(q, blocks) && Texts(q, blocks2) == Texts(q, blocks)
    decreases |q|
  {
    SortedInit(q);
    var init, last := q[..|q| - 1], q[|q| - 1];
    if last == b {
      SumsSame(init, blocks, blocks[b := Output(size, t)]);
    } else {
      SizesResized(init, blocks, b, size, t);
    }
  }

  lemma {:induction false} TextsEmptyQueue(q: seq<nat>, blocks: map<nat, Block>)
    requires forall x :: x in q ==> x in blocks && blocks[x].Output?
    ensures Texts(q, blocks) == [] && ReplySum(q, blocks) == 0
  {
    if q != [] {
      TextsEmptyQueue(q[..|q| - 1], blocks);
    }
  }

  lemma {:induction false} TextsIds(q: seq<nat>, blocks: map<nat, Block>)
    ensures forall i :: 0 <= i < |Texts(q, blocks)| ==> Texts(q, blocks)[i].id in q
  {
    if q != [] {
      TextsIds(q[..|q| - 1], blocks);
    }
  }
}
