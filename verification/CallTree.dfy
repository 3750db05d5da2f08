/**
 The call tree of `decode.c` as a value: a trie of functions with a path of child indices for
 the shadow stack, and the fold of the instruction stream over it.  CallTreeHeap shows that
 the pointer-based original computes exactly this.
 */
module CallTree {
  import opened Common
  import opened Instructions

  datatype Tree = Node(key: Key, count: nat, total: u64, entry: u64, kids: seq<Tree>)

  type Path = seq<nat>

  predicate OnTree(t: Tree, p: Path)
    decreases |p|
  {
    p == [] || (p[0] < |t.kids| && OnTree(t.kids[p[0]], p[1..]))
  }

  function At(t: Tree, p: Path): Tree
    requires OnTree(t, p)
    decreases |p|
  {
    if p == [] then t else At(t.kids[p[0]], p[1..])
  }

  /** `t` with the subtree at `p` replaced by `n`. */
  function Put(t: Tree, p: Path, n: Tree): (r: Tree)
    requires OnTree(t, p)
    ensures p != [] ==> r == t.(kids := r.kids) && |r.kids| == |t.kids|
    decreases |p|
  {
    if p == [] then n
    else t.(kids := t.kids[p[0] := Put(t.kids[p[0]], p[1..], n)])
  }

  /** The first child with this key, or one past the last child. */
  function FindKid(kids: seq<Tree>, key: Key): (i: nat)
    ensures i <= |kids|
    ensures i < |kids| ==> kids[i].key == key
    ensures forall j :: 0 <= j < i ==> kids[j].key != key
  {
    FirstMatch(kids, (kid: Tree) => kid.key == key)
  }

  function Leaf(key: Key): Tree {
    Node(key, 0, 0, 0, [])
  }

  /** The children after `ct_find_or_add_child`. */
  function WithKid(kids: seq<Tree>, key: Key): (r: seq<Tree>)
    ensures FindKid(kids, key) < |r|
  {
    if FindKid(kids, key) < |kids| then kids else kids + [Leaf(key)]
  }

  function Called(n: Tree, tsc: u64): Tree {
    n.(count := n.count + 1, entry := tsc)
  }

  /** `n` after a call to `key` from it: the child is found or added, counted and opened. */
  function Enter(n: Tree, key: Key, tsc: u64): Tree {
    var i := FindKid(n.kids, key);
    var kids := WithKid(n.kids, key);
    n.(kids := kids[i := Called(kids[i], tsc)])
  }

  /** `n` after a return from it: its open time is added when both timestamps are known. */
  function Leave(n: Tree, tsc: u64): Tree {
    if tsc > 0 && n.entry > 0 && tsc > n.entry
    then n.(total := Wrap(n.total + (tsc - n.entry)), entry := 0)
    else n.(entry := 0)
  }

  datatype CallState = CallState(tree: Tree, path: Path, prev: Class)

  predicate Consistent(s: CallState) {
    OnTree(s.tree, s.path)
  }

  const ROOT_KEY := Key(CStr(0, "<root>"), CStr(1, ""))

  function Init(): (s: CallState)
    ensures Consistent(s)
  {
    CallState(Leaf(ROOT_KEY), [], OtherClass)
  }

  function Top(s: CallState): Tree
    requires Consistent(s)
  {
    At(s.tree, s.path)
  }

  function Push(s: CallState, key: Key, tsc: u64): (r: CallState)
    requires Consistent(s)
    ensures Consistent(r)
  {
    var n := Enter(Top(s), key, tsc);
    var i := FindKid(Top(s).kids, key);
    PutOnTree(s.tree, s.path, n, [i]);
    s.(tree := Put(s.tree, s.path, n), path := s.path + [i])
  }

  function Pop(s: CallState, tsc: u64): (r: CallState)
    requires Consistent(s)
    ensures Consistent(r)
  {
    if s.path == [] then s
    else
      var n := Leave(Top(s), tsc);
      PutOnTree(s.tree, s.path, n, []);
      OnTreePrefix(Put(s.tree, s.path, n), s.path + [], |s.path| - 1);
      assert (s.path + [])[..|s.path| - 1] == s.path[..|s.path| - 1];
      s.(tree := Put(s.tree, s.path, n), path := s.path[..|s.path| - 1])
  }

  /** `calltree_record`. */
  function Step(s: CallState, i: Insn): (r: CallState)
    requires Consistent(s)
    ensures Consistent(r)
  {
    var s1 := if Enters(s.prev, i) then Push(s, i.sym.value.key, i.tsc) else s;
    var s2 := if IsReturn(i.cls) then Pop(s1, i.tsc) else s1;
    s2.(prev := i.cls)
  }

  function Run(s: seq<Insn>): (r: CallState)
    ensures Consistent(r)
    ensures r.prev == LastClass(s)
  {
    if s == [] then Init() else Step(Run(s[..|s| - 1]), s[|s| - 1])
  }

  /** The state between the call and the return that the last instruction may cause. */
  function AfterCall(s: seq<Insn>): (r: CallState)
    requires s != []
    ensures Consistent(r)
  {
    var before, i := Run(s[..|s| - 1]), s[|s| - 1];
    if Enters(before.prev, i) then Push(before, i.sym.value.key, i.tsc) else before
  }

  // ----- Paths and replacement

  lemma {:induction false} OnTreePrefix(t: Tree, p: Path, k: nat)
    requires OnTree(t, p) && k <= |p|
    ensures OnTree(t, p[..k])
    decreases |p|
  {
    if k > 0 {
      OnTreePrefix(t.kids[p[0]], p[1..], k - 1);
      assert p[..k][1..] == p[1..][..k - 1];
    }
  }

  /** Below the replaced node the new subtree is what one finds. */
  lemma {:induction false} PutOnTree(t: Tree, p: Path, n: Tree, q: Path)
    requires OnTree(t, p)
    ensures OnTree(Put(t, p, n), p + q) <==> OnTree(n, q)
    ensures OnTree(n, q) ==> At(Put(t, p, n), p + q) == At(n, q)
    decreases |p|
  {
    if p == [] {
      assert p + q == q;
    } else {
      assert (p + q)[1..] == p[1..] + q;
      PutOnTree(t.kids[p[0]], p[1..], n, q);
    }
  }

  lemma {:induction false} AtConcat(t: Tree, p: Path, q: Path)
    requires OnTree(t, p)
    ensures OnTree(t, p + q) <==> OnTree(At(t, p), q)
    ensures OnTree(t, p + q) ==> At(t, p + q) == At(At(t, p), q)
    decreases |p|
  {
    if p == [] {
      assert p + q == q;
    } else {
      assert (p + q)[1..] == p[1..] + q;
      AtConcat(t.kids[p[0]], p[1..], q);
    }
  }

  /** Two nodes agree on everything but the contents of their children. */
  predicate SameLabel(m: Tree, n: Tree) {
    m == n.(kids := m.kids) && |m.kids| == |n.kids|
  }

  /** Away from the replaced subtree, only the contents of its ancestors' children change. */
  lemma {:induction false} PutElsewhere(t: Tree, p: Path, n: Tree, q: Path)
    requires OnTree(t, p) && !(p <= q)
    ensures OnTree(Put(t, p, n), q) <==> OnTree(t, q)
    ensures OnTree(t, q) ==> SameLabel(At(Put(t, p, n), q), At(t, q))
    decreases |p|
  {
    if p != [] && q != [] && p[0] == q[0] {
      assert p == [p[0]] + p[1..] && q == [q[0]] + q[1..];
      if p[0] < |t.kids| {
        PutElsewhere(t.kids[p[0]], p[1..], n, q[1..]);
      }
    }
  }

  // ----- The tree is a trie

  predicate DistinctKids(n: Tree) {
    forall i, j :: 0 <= i < j < |n.kids| ==> n.kids[i].key != n.kids[j].key
  }

  /** Siblings have distinct keys everywhere. */
  ghost predicate Trie(t: Tree) {
    forall q: Path :: OnTree(t, q) ==> DistinctKids(At(t, q))
  }

  lemma PutTrie(t: Tree, p: Path, n: Tree)
    requires OnTree(t, p) && Trie(t) && Trie(n) && n.key == At(t, p).key
    ensures Trie(Put(t, p, n))
  {
    var r := Put(t, p, n);
    forall q: Path | OnTree(r, q)
      ensures DistinctKids(At(r, q))
    {
      if p <= q {
        assert q == p + q[|p|..];
        PutOnTree(t, p, n, q[|p|..]);
      } else {
        PutElsewhere(t, p, n, q);
        var m := At(t, q);
        forall i | 0 <= i < |m.kids|
          ensures At(r, q).kids[i].key == m.kids[i].key
        {
          AtConcat(t, q, [i]);
          AtConcat(r, q, [i]);
          if p == q + [i] {
            PutOnTree(t, p, n, []);
            assert p + [] == p;
          } else {
            PutElsewhere(t, p, n, q + [i]);
          }
        }
      }
    }
  }

  lemma SubtreeTrie(t: Tree, p: Path)
    requires OnTree(t, p) && Trie(t)
    ensures Trie(At(t, p))
  {
    forall q: Path | OnTree(At(t, p), q)
      ensures DistinctKids(At(At(t, p), q))
    {
      AtConcat(t, p, q);
    }
  }

  lemma LeaveTrie(n: Tree, tsc: u64)
    requires Trie(n)
    ensures Trie(Leave(n, tsc))
  {
    var r := Leave(n, tsc);
    forall q: Path | OnTree(r, q)
      ensures DistinctKids(At(r, q))
    {
      if q == [] {
        assert OnTree(n, q);
      } else {
        assert OnTree(n, q) && At(r, q) == At(n, q);
      }
    }
  }

  lemma EnterTrie(n: Tree, key: Key, tsc: u64)
    requires Trie(n)
    ensures Trie(Enter(n, key, tsc))
  {
    var r := Enter(n, key, tsc);
    var k := FindKid(n.kids, key);
    assert OnTree(n, []) && DistinctKids(n);
    assert forall i :: 0 <= i < |n.kids| ==> r.kids[i].key == n.kids[i].key && r.kids[i].kids == n.kids[i].kids;
    assert r.kids[k].key == key;
    forall q: Path | OnTree(r, q)
      ensures DistinctKids(At(r, q))
    {
      if q == [] {
        assert DistinctKids(r);
      } else if q[0] < |n.kids| {
        KidTrie(n, q[0]);
        SameKidsTrie(n.kids[q[0]], r.kids[q[0]], q[1..]);
      } else {
        assert r.kids[q[0]].kids == [] && OnTree(r.kids[q[0]], q[1..]);
        assert At(r, q) == r.kids[q[0]];
      }
    }
  }

  lemma KidTrie(n: Tree, i: nat)
    requires Trie(n) && i < |n.kids|
    ensures Trie(n.kids[i])
  {
    assert OnTree(n, [i]);
    SubtreeTrie(n, [i]);
    assert At(n, [i]) == n.kids[i];
  }

  lemma SameKidsTrie(m: Tree, n: Tree, q: Path)
    requires Trie(m) && m.kids == n.kids && OnTree(n, q)
    ensures DistinctKids(At(n, q))
  {
    assert OnTree(m, q);
    assert DistinctKids(At(m, q));
  }

  /** In every reachable state siblings have distinct keys. */
  lemma {:induction false} RunTrie(s: seq<Insn>)
    ensures Trie(Run(s).tree)
  {
    if s != [] {
      var before, i := Run(s[..|s| - 1]), s[|s| - 1];
      RunTrie(s[..|s| - 1]);
      var mid := before;
      if Enters(before.prev, i) {
        SubtreeTrie(before.tree, before.path);
        EnterTrie(Top(before), i.sym.value.key, i.tsc);
        PutTrie(before.tree, before.path, Enter(Top(before), i.sym.value.key, i.tsc));
        mid := Push(before, i.sym.value.key, i.tsc);
      }
      if IsReturn(i.cls) && mid.path != [] {
        SubtreeTrie(mid.tree, mid.path);
        LeaveTrie(Top(mid), i.tsc);
        PutTrie(mid.tree, mid.path, Leave(Top(mid), i.tsc));
      }
    }
  }
}
