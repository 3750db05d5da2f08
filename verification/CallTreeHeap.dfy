/**
 The call tree of `decode.c` as it lies in memory.  Nodes are structs stored inline in arrays
 that `realloc` may move, the shadow stack holds raw pointers to them, and the stack is itself
 reallocated.  Memory is a list of blocks, each live or freed; a pointer is a block and an index.
 Every dereference below carries the obligation that its block is live and its slot written.
 */
module CallTreeHeap {
  import opened Common
  import opened Instructions
  import opened CallTree

  datatype CtNode = CtNode(key: Key, count: nat, total: u64, entry: u64,
                           children: Option<nat>, nchildren: nat, cap: nat)

  datatype Slot = Raw | Used(node: CtNode)

  datatype Block = Freed | Live(slots: seq<Slot>)

  datatype Addr = Addr(block: nat, index: nat)

  type Memory = seq<Block>

  /** The slot exists in a live block. */
  predicate InBlock(m: Memory, a: Addr) {
    a.block < |m| && m[a.block].Live? && a.index < |m[a.block].slots|
  }

  /** The pointer may be dereferenced. */
  predicate IsLive(m: Memory, a: Addr) {
    InBlock(m, a) && m[a.block].slots[a.index].Used?
  }

  function Load(m: Memory, a: Addr): CtNode
    requires IsLive(m, a)
  {
    m[a.block].slots[a.index].node
  }

  function Store(m: Memory, a: Addr, n: CtNode): Memory
    requires InBlock(m, a)
  {
    m[a.block := Live(m[a.block].slots[a.index := Used(n)])]
  }

  // ----- What a memory represents

  /** For each node that has a children array, the block that holds it. */
  type Places = map<Path, nat>

  /** Where the node at `q` is: the root is a block of its own, a child sits in its parent's array. */
  function AddrOf(home: Places, q: Path): Addr {
    if q == [] then Addr(0, 0)
    else if q[..|q| - 1] in home then Addr(home[q[..|q| - 1]], q[|q| - 1])
    else Addr(0, 0)
  }

  function Cell(m: Memory, home: Places, q: Path, n: Tree): CtNode {
    CtNode(n.key, n.count, n.total, n.entry,
           if q in home then Some(home[q]) else None,
           |n.kids|,
           if q in home && home[q] < |m| && m[home[q]].Live? then |m[home[q]].slots| else 0)
  }

  /** The block of one children array: live, big enough, and not the root's. */
  ghost predicate PlaceOk(m: Memory, home: Places, t: Tree, q: Path)
    requires q in home
  {
    && OnTree(t, q)
    && 0 < home[q] < |m| && m[home[q]].Live?
    && |At(t, q).kids| <= |m[home[q]].slots|
  }

  ghost predicate Apart(home: Places, q: Path, r: Path)
    requires q in home && r in home
  {
    home[q] == home[r] ==> q == r
  }

  ghost predicate PlacesOk(m: Memory, home: Places, t: Tree) {
    && 0 < |m| && m[0].Live?
    && (forall q {:trigger PlaceOk(m, home, t, q)} :: q in home ==> PlaceOk(m, home, t, q))
    && (forall q, r {:trigger Apart(home, q, r)} :: q in home && r in home ==> Apart(home, q, r))
  }

  ghost predicate NodeOk(m: Memory, home: Places, t: Tree, q: Path)
    requires OnTree(t, q)
  {
    && (|At(t, q).kids| > 0 ==> q in home)
    && IsLive(m, AddrOf(home, q))
    && Load(m, AddrOf(home, q)) == Cell(m, home, q, At(t, q))
  }

  ghost predicate Represents(m: Memory, home: Places, t: Tree) {
    && PlacesOk(m, home, t)
    && (forall q: Path {:trigger NodeOk(m, home, t, q)} :: OnTree(t, q) ==> NodeOk(m, home, t, q))
  }

  /** What is known about the node at `q`. */
  lemma Known(m: Memory, home: Places, t: Tree, q: Path)
    requires Represents(m, home, t) && OnTree(t, q)
    ensures NodeOk(m, home, t, q)
    ensures q in home ==> PlaceOk(m, home, t, q)
    ensures Load(m, AddrOf(home, q)).nchildren <= Load(m, AddrOf(home, q)).cap
  {
  }

  lemma ParentHome(m: Memory, home: Places, t: Tree, q: Path)
    requires Represents(m, home, t) && OnTree(t, q) && q != []
    ensures q[..|q| - 1] in home && home[q[..|q| - 1]] != 0
    ensures AddrOf(home, q) == Addr(home[q[..|q| - 1]], q[|q| - 1])
  {
    var p := q[..|q| - 1];
    OnTreePrefix(t, q, |q| - 1);
    assert q == p + [q[|q| - 1]];
    AtConcat(t, p, [q[|q| - 1]]);
    assert NodeOk(m, home, t, p);
    assert PlaceOk(m, home, t, p);
  }

  lemma ChildCell(m: Memory, home: Places, t: Tree, q: Path, i: nat)
    requires Represents(m, home, t) && OnTree(t, q) && i < |At(t, q).kids|
    ensures OnTree(t, q + [i]) && At(t, q + [i]) == At(t, q).kids[i]
    ensures q in home && AddrOf(home, q + [i]) == Addr(home[q], i)
    ensures IsLive(m, Addr(home[q], i))
    ensures Load(m, Addr(home[q], i)) == Cell(m, home, q + [i], At(t, q).kids[i])
  {
    AtConcat(t, q, [i]);
    assert OnTree(At(t, q), [i]) && At(At(t, q), [i]) == At(t, q).kids[i];
    assert NodeOk(m, home, t, q) && NodeOk(m, home, t, q + [i]);
    assert (q + [i])[..|q + [i]| - 1] == q;
  }

  /** Different nodes are at different addresses. */
  lemma {:induction false} AddrInjective(m: Memory, home: Places, t: Tree, q: Path, r: Path)
    requires Represents(m, home, t) && OnTree(t, q) && OnTree(t, r) && q != r
    ensures AddrOf(home, q) != AddrOf(home, r)
  {
    if q == [] {
      ParentHome(m, home, t, r);
    } else if r == [] {
      ParentHome(m, home, t, q);
    } else {
      ParentHome(m, home, t, q);
      ParentHome(m, home, t, r);
      assert Apart(home, q[..|q| - 1], r[..|r| - 1]);
      assert q == q[..|q| - 1] + [q[|q| - 1]] && r == r[..|r| - 1] + [r[|r| - 1]];
    }
  }

  /** Overwriting the counters of one node. */
  lemma {:induction false} Relabel(m: Memory, home: Places, t: Tree, p: Path, n: Tree)
    requires Represents(m, home, t) && OnTree(t, p) && n.kids == At(t, p).kids
    ensures NodeOk(m, home, t, p)
    ensures Represents(Store(m, AddrOf(home, p), Cell(m, home, p, n)), home, Put(t, p, n))
  {
    Known(m, home, t, p);
    var a := AddrOf(home, p);
    var m' := Store(m, a, Cell(m, home, p, n));
    var t' := Put(t, p, n);
    forall q: Path | OnTree(t', q)
      ensures NodeOk(m', home, t', q)
    {
      PutSameKids(t, p, n, q);
      Known(m, home, t, q);
      if q != p {
        AddrInjective(m, home, t, p, q);
      }
    }
    forall q | q in home
      ensures PlaceOk(m', home, t', q)
    {
      assert PlaceOk(m, home, t, q);
      PutSameKids(t, p, n, q);
    }
  }

  lemma {:induction false} PutSameKids(t: Tree, p: Path, n: Tree, q: Path)
    requires OnTree(t, p) && n.kids == At(t, p).kids
    ensures OnTree(Put(t, p, n), q) <==> OnTree(t, q)
    ensures OnTree(t, q) && q == p ==> At(Put(t, p, n), q) == n
    ensures OnTree(t, q) && q != p ==> SameLabel(At(Put(t, p, n), q), At(t, q))
  {
    if p <= q {
      var below := q[|p|..];
      assert q == p + below;
      PutOnTree(t, p, n, below);
      AtConcat(t, p, below);
    } else {
      PutElsewhere(t, p, n, q);
    }
  }

  /** What `realloc(prior, newcap)` may do: extend in place, or copy to a new block and free the prior one. */
  ghost predicate Reallocated(m: Memory, prior: Option<nat>, newcap: nat, m': Memory, b: nat) {
    && (prior.Some? ==> prior.value < |m| && m[prior.value].Live? && |m[prior.value].slots| <= newcap)
    && |m| <= |m'| && b < |m'|
    && (prior == Some(b) || b == |m|)
    && (forall c :: 0 <= c < |m| && prior != Some(c) && c != b ==> m'[c] == m[c])
    && m'[b].Live? && |m'[b].slots| == newcap
    && (prior.Some? ==> m'[b].slots[..|m[prior.value].slots|] == m[prior.value].slots)
  }

  lemma AdoptAddr(m: Memory, home: Places, t: Tree, p: Path, newcap: nat, m': Memory, b: nat, q: Path)
    requires Represents(m, home, t) && OnTree(t, p) && OnTree(t, q)
    requires Reallocated(m, if p in home then Some(home[p]) else None, newcap, m', b)
    ensures q != [] && q[..|q| - 1] == p ==>
              AddrOf(home[p := b], q) == Addr(b, AddrOf(home, q).index) && p in home && AddrOf(home, q).block == home[p]
    ensures q == [] || q[..|q| - 1] != p ==>
              AddrOf(home[p := b], q) == AddrOf(home, q) && AddrOf(home, q).block < |m|
              && m'[AddrOf(home, q).block] == m[AddrOf(home, q).block]
  {
    Known(m, home, t, q);
    if p in home {
      assert PlaceOk(m, home, t, p);
    }
    if q != [] {
      var r := q[..|q| - 1];
      ParentHome(m, home, t, q);
      assert PlaceOk(m, home, t, r);
      if p in home {
        assert Apart(home, r, p);
      }
    }
  }

  lemma AdoptNode(m: Memory, home: Places, t: Tree, p: Path, newcap: nat, m': Memory, b: nat, q: Path)
    requires Represents(m, home, t) && OnTree(t, p) && OnTree(t, q)
    requires Reallocated(m, if p in home then Some(home[p]) else None, newcap, m', b)
    ensures IsLive(m', AddrOf(home, p))
    ensures var n := Load(m', AddrOf(home, p)).(children := Some(b), cap := newcap);
            NodeOk(Store(m', AddrOf(home, p), n), home[p := b], t, q)
  {
    var home2 := home[p := b];
    Known(m, home, t, p);
    Known(m, home, t, q);
    AdoptAddr(m, home, t, p, newcap, m', b, p);
    AdoptAddr(m, home, t, p, newcap, m', b, q);
    assert p == [] || p[..|p| - 1] != p;
    var c, d := AddrOf(home, q), AddrOf(home2, q);
    var n := Load(m', AddrOf(home, p)).(children := Some(b), cap := newcap);
    var m2 := Store(m', AddrOf(home, p), n);
    if q != [] && q[..|q| - 1] == p {
      assert m'[b].slots[..|m[home[p]].slots|][c.index] == m[home[p]].slots[c.index];
    }
    assert IsLive(m', d) && Load(m', d) == Load(m, c);
    if q == p {
      assert d == AddrOf(home, p);
    } else {
      AddrInjective(m, home, t, p, q);
      assert d != AddrOf(home, p);
      if q in home && p in home {
        assert Apart(home, q, p);
      }
    }
  }

  lemma AdoptPlace(m: Memory, home: Places, t: Tree, p: Path, newcap: nat, m': Memory, b: nat, q: Path)
    requires Represents(m, home, t) && OnTree(t, p) && q in home[p := b]
    requires Reallocated(m, if p in home then Some(home[p]) else None, newcap, m', b)
    requires |At(t, p).kids| <= newcap
    ensures IsLive(m', AddrOf(home, p))
    ensures var n := Load(m', AddrOf(home, p)).(children := Some(b), cap := newcap);
            PlaceOk(Store(m', AddrOf(home, p), n), home[p := b], t, q)
  {
    AdoptNode(m, home, t, p, newcap, m', b, p);
    if p in home {
      assert PlaceOk(m, home, t, p);
    }
    if q != p {
      assert PlaceOk(m, home, t, q);
      if p in home {
        assert Apart(home, q, p);
      }
    }
  }

  /** After the parent adopts the new block, the same tree is represented. */
  lemma {:induction false} Adopt(m: Memory, home: Places, t: Tree, p: Path, newcap: nat, m': Memory, b: nat)
    requires Represents(m, home, t) && OnTree(t, p)
    requires Reallocated(m, if p in home then Some(home[p]) else None, newcap, m', b)
    requires |At(t, p).kids| <= newcap
    ensures IsLive(m', AddrOf(home, p))
    ensures var n := Load(m', AddrOf(home, p)).(children := Some(b), cap := newcap);
            Represents(Store(m', AddrOf(home, p), n), home[p := b], t)
    ensures AddrOf(home[p := b], p) == AddrOf(home, p)
    ensures forall i :: 0 <= i <= |p| ==> AddrOf(home[p := b], p[..i]) == AddrOf(home, p[..i])
  {
    var home2 := home[p := b];
    Known(m, home, t, p);
    var a := AddrOf(home, p);
    AdoptNode(m, home, t, p, newcap, m', b, p);
    var n := Load(m', a).(children := Some(b), cap := newcap);
    var m2 := Store(m', a, n);
    forall q: Path | OnTree(t, q)
      ensures NodeOk(m2, home2, t, q)
    {
      AdoptNode(m, home, t, p, newcap, m', b, q);
    }
    forall q | q in home2
      ensures PlaceOk(m2, home2, t, q)
    {
      AdoptPlace(m, home, t, p, newcap, m', b, q);
    }
    forall q, r | q in home2 && r in home2
      ensures Apart(home2, q, r)
    {
      if q in home { assert PlaceOk(m, home, t, q); }
      if r in home { assert PlaceOk(m, home, t, r); }
      if q in home && r in home { assert Apart(home, q, r); }
      if q in home && p in home { assert Apart(home, q, p); }
      if r in home && p in home { assert Apart(home, r, p); }
    }
    assert PlaceOk(m2, home2, t, p);
    forall i | 0 <= i <= |p|
      ensures AddrOf(home2, p[..i]) == AddrOf(home, p[..i])
    {
      OnTreePrefix(t, p, i);
      AdoptAddr(m, home, t, p, newcap, m', b, p[..i]);
    }
    assert p[..|p|] == p;
  }

  /** Writing a fresh node into the first free slot of the children array. */
  lemma {:induction false} AddLeaf(m: Memory, home: Places, t: Tree, p: Path, key: Key)
    requires Represents(m, home, t) && OnTree(t, p) && p in home
    requires InBlock(m, Addr(home[p], |At(t, p).kids|))
    ensures IsLive(m, AddrOf(home, p)) && AddrOf(home, p).block != home[p]
    ensures Represents(WithLeaf(m, home, t, p, key), home, Put(t, p, At(t, p).(kids := At(t, p).kids + [Leaf(key)])))
  {
    AddLeafNode(m, home, t, p, key, p);
    var m2 := WithLeaf(m, home, t, p, key);
    var t' := Put(t, p, At(t, p).(kids := At(t, p).kids + [Leaf(key)]));
    forall q: Path | OnTree(t', q)
      ensures NodeOk(m2, home, t', q)
    {
      AddLeafNode(m, home, t, p, key, q);
    }
    forall q | q in home
      ensures PlaceOk(m2, home, t', q)
    {
      AddLeafPlace(m, home, t, p, key, q);
    }
    assert forall q, r {:trigger Apart(home, q, r)} :: q in home && r in home ==> Apart(home, q, r);
  }

  lemma AddLeafPlace(m: Memory, home: Places, t: Tree, p: Path, key: Key, q: Path)
    requires Represents(m, home, t) && OnTree(t, p) && p in home && q in home
    requires InBlock(m, Addr(home[p], |At(t, p).kids|)) && IsLive(m, AddrOf(home, p))
    requires AddrOf(home, p).block != home[p]
    ensures PlaceOk(WithLeaf(m, home, t, p, key), home, Put(t, p, At(t, p).(kids := At(t, p).kids + [Leaf(key)])), q)
  {
    assert PlaceOk(m, home, t, q);
    PutNewLeaf(t, p, key, q);
    if q != p {
      assert Apart(home, p, q);
    }
  }

  /** Memory after the new slot is written and the parent's count of children incremented. */
  function WithLeaf(m: Memory, home: Places, t: Tree, p: Path, key: Key): Memory
    requires OnTree(t, p) && p in home
    requires InBlock(m, Addr(home[p], |At(t, p).kids|))
    requires IsLive(m, AddrOf(home, p))
  {
    var k := |At(t, p).kids|;
    var m1 := Store(m, Addr(home[p], k), CtNode(key, 0, 0, 0, None, 0, 0));
    Store(m1, AddrOf(home, p), Load(m1, AddrOf(home, p)).(nchildren := k + 1))
  }

  lemma AddLeafNode(m: Memory, home: Places, t: Tree, p: Path, key: Key, q: Path)
    requires Represents(m, home, t) && OnTree(t, p) && p in home
    requires InBlock(m, Addr(home[p], |At(t, p).kids|))
    ensures IsLive(m, AddrOf(home, p)) && AddrOf(home, p).block != home[p]
    ensures var t' := Put(t, p, At(t, p).(kids := At(t, p).kids + [Leaf(key)]));
            OnTree(t', q) ==> NodeOk(WithLeaf(m, home, t, p, key), home, t', q)
  {
    hide Put, WithLeaf;
    AwayFromParent(m, home, t, p);
    if q in home {
      assert PlaceOk(m, home, t, q);
    }
    PutNewLeaf(t, p, key, q);
    if q == p + [|At(t, p).kids|] {
      NewLeafNode(m, home, t, p, key);
    } else if OnTree(t, q) {
      OldLeafNode(m, home, t, p, key, q);
    }
  }

  /** A node does not lie in its own children array. */
  lemma AwayFromParent(m: Memory, home: Places, t: Tree, p: Path)
    requires Represents(m, home, t) && OnTree(t, p) && p in home
    ensures IsLive(m, AddrOf(home, p)) && AddrOf(home, p).block != home[p]
  {
    Known(m, home, t, p);
    if p != [] {
      ParentHome(m, home, t, p);
      assert Apart(home, p, p[..|p| - 1]);
    }
  }

  lemma NewLeafNode(m: Memory, home: Places, t: Tree, p: Path, key: Key)
    requires Represents(m, home, t) && OnTree(t, p) && p in home
    requires InBlock(m, Addr(home[p], |At(t, p).kids|)) && IsLive(m, AddrOf(home, p))
    requires p + [|At(t, p).kids|] !in home
    ensures var q := p + [|At(t, p).kids|];
            var m2 := WithLeaf(m, home, t, p, key);
            IsLive(m2, AddrOf(home, q)) && Load(m2, AddrOf(home, q)) == CtNode(key, 0, 0, 0, None, 0, 0)
  {
    hide Put, At;
    AwayFromParent(m, home, t, p);
    var q := p + [|At(t, p).kids|];
    assert q[..|q| - 1] == p;
  }

  lemma OldLeafNode(m: Memory, home: Places, t: Tree, p: Path, key: Key, q: Path)
    requires Represents(m, home, t) && OnTree(t, p) && p in home && OnTree(t, q)
    requires InBlock(m, Addr(home[p], |At(t, p).kids|)) && IsLive(m, AddrOf(home, p))
    ensures var k, m2 := |At(t, p).kids|, WithLeaf(m, home, t, p, key);
            var a := AddrOf(home, q);
            && (|At(t, q).kids| > 0 ==> q in home)
            && IsLive(m2, a)
            && Load(m2, a) == Cell(m2, home, q, At(t, q)).(nchildren := if q == p then k + 1 else |At(t, q).kids|)
  {
    hide Put, At;
    AwayFromParent(m, home, t, p);
    Known(m, home, t, q);
    NotNewSlot(m, home, t, p, q);
    if q != p {
      AddrInjective(m, home, t, p, q);
    }
  }

  /** No node of the tree is in its parent's first free slot. */
  lemma NotNewSlot(m: Memory, home: Places, t: Tree, p: Path, q: Path)
    requires Represents(m, home, t) && OnTree(t, p) && p in home && OnTree(t, q)
    ensures AddrOf(home, q) != Addr(home[p], |At(t, p).kids|)
  {
    Known(m, home, t, p);
    if q != [] {
      ParentHome(m, home, t, q);
      var r := q[..|q| - 1];
      assert Apart(home, p, r);
      OnTreePrefix(t, q, |q| - 1);
      assert q == r + [q[|q| - 1]];
      AtConcat(t, r, [q[|q| - 1]]);
    }
  }

  lemma PutNewLeaf(t: Tree, p: Path, key: Key, q: Path)
    requires OnTree(t, p)
    ensures var k := |At(t, p).kids|;
            var n := At(t, p).(kids := At(t, p).kids + [Leaf(key)]);
            var t' := Put(t, p, n);
            && (OnTree(t', q) <==> OnTree(t, q) || q == p + [k])
            && (q == p + [k] ==> At(t', q) == Leaf(key) && !OnTree(t, q))
            && (OnTree(t, q) && q == p ==> At(t', q) == n)
            && (OnTree(t, q) && q != p ==> SameLabel(At(t', q), At(t, q)))
  {
    var k := |At(t, p).kids|;
    var n := At(t, p).(kids := At(t, p).kids + [Leaf(key)]);
    if p <= q {
      var below := q[|p|..];
      assert q == p + below;
      PutOnTree(t, p, n, below);
      AtConcat(t, p, below);
      if below != [] {
        if below[0] == k {
          assert OnTree(n, below) <==> OnTree(Leaf(key), below[1..]);
          assert OnTree(Leaf(key), below[1..]) <==> below[1..] == [];
          assert below[1..] == [] <==> below == [k];
        } else {
          assert below != [k];
        }
      }
      assert q == p + [k] <==> below == [k];
    } else {
      PutElsewhere(t, p, n, q);
    }
  }

  /** Putting twice along one path is putting once. */
  lemma {:induction false} PutPut(t: Tree, p: Path, n: Tree, q: Path, x: Tree)
    requires OnTree(t, p) && OnTree(n, q)
    ensures OnTree(Put(t, p, n), p + q)
    ensures Put(Put(t, p, n), p + q, x) == Put(t, p, Put(n, q, x))
    decreases |p|
  {
    PutOnTree(t, p, n, q);
    if p == [] {
      assert p + q == q;
    } else {
      assert (p + q)[1..] == p[1..] + q;
      PutPut(t.kids[p[0]], p[1..], n, q, x);
      var mid := Put(t, p, n);
      assert mid.kids[p[0]] == Put(t.kids[p[0]], p[1..], n);
      assert Put(mid, p + q, x).kids == t.kids[p[0] := Put(mid.kids[p[0]], p[1..] + q, x)];
    }
  }

  /** `Push` by its two steps: find or add the child, then count it. */
  lemma PushTree(s: CallState, key: Key, tsc: u64)
    requires Consistent(s)
    ensures var n := Top(s);
            var k := FindKid(n.kids, key);
            var mid := Put(s.tree, s.path, n.(kids := WithKid(n.kids, key)));
            && OnTree(mid, s.path + [k])
            && Push(s, key, tsc) == s.(tree := Put(mid, s.path + [k], Called(At(mid, s.path + [k]), tsc)), path := s.path + [k])
  {
    var n := Top(s);
    var k := FindKid(n.kids, key);
    var n1 := n.(kids := WithKid(n.kids, key));
    PutOnTree(s.tree, s.path, n1, [k]);
    assert At(n1, [k]) == n1.kids[k];
    PutPut(s.tree, s.path, n1, [k], Called(n1.kids[k], tsc));
    assert Put(n1, [k], Called(n1.kids[k], tsc)) == Enter(n, key, tsc);
  }

  // ----- The object

  class Calltree {
    var memory: Memory
    var stack: array<Addr>
    var depth: nat
    var prev: Class
    ghost var model: CallState
    ghost var home: Places

    ghost predicate Valid()
      reads this, stack
    {
      && Consistent(model)
      && Represents(memory, home, model.tree)
      && depth == |model.path| < stack.Length
      && (forall i :: 0 <= i <= depth ==> stack[i] == AddrOf(home, model.path[..i]))
      && prev == model.prev
    }

    /** `calltree_init`. */
    constructor ()
      ensures Valid() && fresh(stack) && model == Init()
    {
      memory := [Live([Used(CtNode(ROOT_KEY, 0, 0, 0, None, 0, 0))])];
      var s := new Addr[256](_ => Addr(0, 0));
      stack, depth, prev := s, 0, OtherClass;
      model, home := Init(), map[];
      new;
      assert forall q: Path :: OnTree(model.tree, q) ==> q == [];
    }

    /** `realloc` of a children array: it may or may not move. */
    method Realloc(prior: Option<nat>, newcap: nat) returns (b: nat)
      requires prior.Some? ==> prior.value < |memory| && memory[prior.value].Live? && |memory[prior.value].slots| <= newcap
      modifies this`memory
      ensures Reallocated(old(memory), prior, newcap, memory, b)
    {
      var kept := if prior.Some? then memory[prior.value].slots else [];
      var slots := kept + seq(newcap - |kept|, _ => Raw);
      var inPlace: bool := *;
      if prior.Some? && inPlace {
        b := prior.value;
        memory := memory[b := Live(slots)];
      } else {
        b := |memory|;
        memory := (if prior.Some? then memory[prior.value := Freed] else memory) + [Live(slots)];
      }
      assert slots[..|kept|] == kept;
    }

    /** The search loop of `ct_find_or_add_child` over the children of the node on top of the stack. */
    method FindChild(parent: Addr, key: Key) returns (child: Option<Addr>)
      requires Valid() && parent == stack[depth]
      ensures var k := FindKid(Top(model).kids, key);
              child == if k < |Top(model).kids| then Some(AddrOf(home, model.path + [k])) else None
    {
      ghost var t, p := model.tree, model.path;
      ghost var n := At(t, p);
      assert p[..depth] == p;
      Known(memory, home, t, p);
      var node := Load(memory, parent);
      var i := 0;
      while i < node.nchildren
        invariant i <= node.nchildren == |n.kids|
        invariant forall j :: 0 <= j < i ==> n.kids[j].key != key
      {
        ChildCell(memory, home, t, p, i);
        if Load(memory, Addr(node.children.value, i)).key == key {
          return Some(Addr(node.children.value, i));
        }
        i := i + 1;
      }
      child := None;
    }

    /** The rest of `ct_find_or_add_child`: a new last child, after growing the array if it is full. */
    method AddChild(parent: Addr, key: Key) returns (child: Addr)
      requires Valid() && parent == stack[depth]
      modifies this`memory, this`home, this`model
      ensures Valid()
      ensures var n := Top(old(model));
              model == old(model).(tree := Put(old(model).tree, old(model).path, n.(kids := n.kids + [Leaf(key)])))
      ensures child == AddrOf(home, model.path + [|Top(old(model)).kids|])
    {
      hide Put, At;
      assert model.path[..depth] == model.path;
      Known(memory, home, model.tree, model.path);
      if Load(memory, parent).nchildren >= Load(memory, parent).cap {
        var cap := Load(memory, parent).cap;
        Grow(parent, if cap == 0 then 8 else cap * 2);
      }
      child := UseSlot(parent, key);
    }

    /** The first free slot of the parent's array becomes a child. */
    method UseSlot(parent: Addr, key: Key) returns (child: Addr)
      requires Valid() && parent == stack[depth] && IsLive(memory, parent)
      requires Load(memory, parent).nchildren < Load(memory, parent).cap
      modifies this`memory, this`model
      ensures Valid()
      ensures var n := Top(old(model));
              model == old(model).(tree := Put(old(model).tree, old(model).path, n.(kids := n.kids + [Leaf(key)])))
      ensures child == AddrOf(home, model.path + [|Top(old(model)).kids|])
    {
      hide Put, Represents;
      ghost var t, p := model.tree, model.path;
      assert p[..depth] == p;
      Known(memory, home, t, p);
      var node := Load(memory, parent);
      AddLeaf(memory, home, t, p, key);
      child := Addr(node.children.value, node.nchildren);
      memory := Store(memory, child, CtNode(key, 0, 0, 0, None, 0, 0));
      memory := Store(memory, parent, Load(memory, parent).(nchildren := node.nchildren + 1));
      ghost var n := At(t, p).(kids := At(t, p).kids + [Leaf(key)]);
      model := model.(tree := Put(t, p, n));
      PutOnTree(t, p, n, []);
      assert p + [] == p;
      assert (p + [node.nchildren])[..|p|] == p;
    }

    /** `ct_find_or_add_child`. */
    method FindOrAddChild(parent: Addr, key: Key) returns (child: Addr)
      requires Valid() && parent == stack[depth]
      modifies this`memory, this`home, this`model
      ensures Valid()
      ensures var n := Top(old(model));
              model == old(model).(tree := Put(old(model).tree, old(model).path, n.(kids := WithKid(n.kids, key))))
      ensures OnTree(model.tree, model.path + [FindKid(Top(old(model)).kids, key)])
      ensures child == AddrOf(home, model.path + [FindKid(Top(old(model)).kids, key)])
    {
      ghost var t, p, n := model.tree, model.path, Top(model);
      var found := FindChild(parent, key);
      if found.Some? {
        child := found.value;
        PutSame(t, p);
      } else {
        child := AddChild(parent, key);
      }
      PutOnTree(t, p, n.(kids := WithKid(n.kids, key)), [FindKid(n.kids, key)]);
      assert OnTree(n.(kids := WithKid(n.kids, key)), [FindKid(n.kids, key)]);
    }

    /** The `realloc` branch of `ct_find_or_add_child`; the parent's pointer and capacity follow it. */
    method Grow(parent: Addr, newcap: nat)
      requires Valid() && parent == stack[depth]
      requires IsLive(memory, parent) && Load(memory, parent).cap <= newcap && Load(memory, parent).nchildren < newcap
      modifies this`memory, this`home
      ensures Valid() && IsLive(memory, parent)
      ensures Load(memory, parent) == old(Load(memory, parent)).(children := Load(memory, parent).children, cap := newcap)
      ensures model.path in home && Load(memory, parent).children == Some(home[model.path])
      ensures home[model.path] < |memory| && memory[home[model.path]].Live? && |memory[home[model.path]].slots| == newcap
    {
      ghost var t, p := model.tree, model.path;
      assert p[..depth] == p;
      Known(memory, home, t, p);
      ghost var before, was := memory, home;
      var node := Load(memory, parent);
      var b := Realloc(node.children, newcap);
      Adopt(before, was, t, p, newcap, memory, b);
      memory := Store(memory, parent, Load(memory, parent).(children := Some(b), cap := newcap));
      home := home[p := b];
      Known(memory, home, t, p);
    }

    /** The two stores that count and open a node. */
    method CountCall(child: Addr, ghost q: Path, tsc: u64)
      requires Valid() && OnTree(model.tree, q) && child == AddrOf(home, q) && !(q <= model.path)
      modifies this`memory, this`model
      ensures Valid()
      ensures model.path == old(model.path) && model.prev == old(model.prev)
      ensures OnTree(old(model.tree), q) && model.tree == Put(old(model.tree), q, Called(At(old(model.tree), q), tsc))
    {
      ghost var t := model.tree;
      Relabel(memory, home, t, q, Called(At(t, q), tsc));
      var node := Load(memory, child);
      memory := Store(memory, child, node.(count := node.count + 1, entry := tsc));
      PutElsewhere(t, q, Called(At(t, q), tsc), model.path);
      model := model.(tree := Put(t, q, Called(At(t, q), tsc)));
    }

    /** The stack's own `realloc`: doubled when the new depth does not fit. */
    method GrowStack()
      requires Valid()
      modifies this`stack
      ensures Valid() && (stack == old(stack) || fresh(stack)) && depth + 1 < stack.Length
    {
      if depth + 1 >= stack.Length {
        var bigger := new Addr[stack.Length * 2](_ => Addr(0, 0));
        forall i | 0 <= i < stack.Length {
          bigger[i] := stack[i];
        }
        stack := bigger;
      }
    }

    /** `calltree_push`. */
    method PushCall(key: Key, tsc: u64)
      requires Valid()
      modifies this, stack
      ensures Valid() && (stack == old(stack) || fresh(stack))
      ensures model == Push(old(model), key, tsc)
    {
      hide Represents, Put, At, FindKid, WithKid, Enter, Called;
      ghost var n, p := Top(model), model.path;
      ghost var k := FindKid(n.kids, key);
      var child := FindOrAddChild(stack[depth], key);
      CountCall(child, p + [k], tsc);
      PushTree(old(model), key, tsc);
      GrowStack();
      StackPush(child, k);
    }

    /** The new top of the stack. */
    method StackPush(child: Addr, ghost k: nat)
      requires Valid() && depth + 1 < stack.Length
      requires OnTree(model.tree, model.path + [k]) && child == AddrOf(home, model.path + [k])
      modifies this`depth, this`model, stack
      ensures Valid() && model == old(model).(path := old(model).path + [k])
    {
      hide Represents, AddrOf;
      ghost var p := model.path;
      depth := depth + 1;
      stack[depth] := child;
      model := model.(path := p + [k]);
      assert forall i :: 0 <= i < depth ==> model.path[..i] == p[..i];
      assert model.path[..depth] == p + [k];
    }

    /** `calltree_pop`. */
    method PopCall(tsc: u64)
      requires Valid()
      modifies this`memory, this`depth, this`model
      ensures Valid()
      ensures model == Pop(old(model), tsc)
    {
      if depth > 0 {
        ghost var p := model.path;
        assert p[..depth] == p;
        Relabel(memory, home, model.tree, p, Leave(Top(model), tsc));
        var node := Load(memory, stack[depth]);
        if tsc > 0 && node.entry > 0 && tsc > node.entry {
          node := node.(total := Wrap(node.total + (tsc - node.entry)));
        }
        memory := Store(memory, stack[depth], node.(entry := 0));
        depth := depth - 1;
        model := Pop(model, tsc);
        assert forall i :: 0 <= i <= depth ==> model.path[..i] == p[..i];
      }
    }

    /** `calltree_record`. */
    method Record(i: Insn)
      requires Valid()
      modifies this, stack
      ensures Valid() && (stack == old(stack) || fresh(stack))
      ensures model == Step(old(model), i)
    {
      if i.sym.Some? && i.ip == i.sym.value.addr && (prev == Call || prev == FarCall) {
        PushCall(i.sym.value.key, i.tsc);
      }
      if i.cls == Return || i.cls == FarReturn {
        PopCall(i.tsc);
      }
      prev := i.cls;
      model := model.(prev := i.cls);
    }

    /** The decode loop: the tree in memory is the functional fold of the stream. */
    method RecordAll(s: seq<Insn>)
      requires Valid() && model == Init()
      modifies this, stack
      ensures Valid() && model == Run(s)
    {
      var i := 0;
      while i < |s|
        invariant i <= |s|
        invariant Valid() && (stack == old(stack) || fresh(stack))
        invariant model == Run(s[..i])
      {
        Record(s[i]);
        assert s[..i + 1][..i] == s[..i];
        i := i + 1;
      }
      assert s[..|s|] == s;
    }

    /** No pointer on the shadow stack dangles, and each one is an element of its caller's current array. */
    lemma {:induction false} StackSafe()
      requires Valid()
      ensures stack[0] == Addr(0, 0)
      ensures forall i :: 0 <= i <= depth ==> IsLive(memory, stack[i])
      ensures forall i :: 0 <= i < depth ==> IsElement(memory, stack[i], stack[i + 1])
      ensures forall i, j :: 0 <= i < j <= depth ==> stack[i] != stack[j]
    {
      hide Represents;
      var t, p := model.tree, model.path;
      forall i | 0 <= i <= depth
        ensures IsLive(memory, stack[i])
      {
        PathLive(memory, home, t, p, i);
      }
      forall i | 0 <= i < depth
        ensures IsElement(memory, stack[i], stack[i + 1])
      {
        PathElement(memory, home, t, p, i);
      }
      forall i, j | 0 <= i < j <= depth
        ensures stack[i] != stack[j]
      {
        PathLive(memory, home, t, p, i);
        PathLive(memory, home, t, p, j);
        AddrInjective(memory, home, t, p[..i], p[..j]);
      }
    }
  }

  /** `child` points into the array that the node at `parent` now owns, below its count. */
  predicate IsElement(m: Memory, parent: Addr, child: Addr) {
    && IsLive(m, parent)
    && Load(m, parent).children == Some(child.block)
    && child.index < Load(m, parent).nchildren <= Load(m, parent).cap
  }

  lemma PathLive(m: Memory, home: Places, t: Tree, p: Path, i: nat)
    requires Represents(m, home, t) && OnTree(t, p) && i <= |p|
    ensures OnTree(t, p[..i]) && IsLive(m, AddrOf(home, p[..i]))
  {
    OnTreePrefix(t, p, i);
    Known(m, home, t, p[..i]);
  }

  lemma PathElement(m: Memory, home: Places, t: Tree, p: Path, i: nat)
    requires Represents(m, home, t) && OnTree(t, p) && i < |p|
    ensures IsElement(m, AddrOf(home, p[..i]), AddrOf(home, p[..i + 1]))
  {
    var q := p[..i];
    OnTreePrefix(t, p, i);
    OnTreePrefix(t, p, i + 1);
    assert p[..i + 1] == q + [p[i]];
    ElementAt(m, home, t, q, p[i]);
  }

  lemma ElementAt(m: Memory, home: Places, t: Tree, q: Path, i: nat)
    requires Represents(m, home, t) && OnTree(t, q) && OnTree(t, q + [i])
    ensures IsElement(m, AddrOf(home, q), AddrOf(home, q + [i]))
  {
    AtConcat(t, q, [i]);
    Known(m, home, t, q);
    ChildCell(m, home, t, q, i);
  }

  lemma {:induction false} PutSame(t: Tree, p: Path)
    requires OnTree(t, p)
    ensures Put(t, p, At(t, p)) == t
    decreases |p|
  {
    if p != [] {
      PutSame(t.kids[p[0]], p[1..]);
    }
  }
}
