/** How one step of the call tree changes its counts, by key and by name path. */
module CallCounts {
  import opened Common
  import opened Instructions
  import opened CallTree

  /** The counts of all nodes with this key, anywhere in the tree. */
  function KeyCount(t: Tree, key: Key): int
    decreases t, |t.kids| + 1
  {
    (if t.key == key then t.count else 0) + KidsKeyCount(t, |t.kids|, key)
  }

  /** The same below the first `k` children. */
  function KidsKeyCount(t: Tree, k: nat, key: Key): int
    requires k <= |t.kids|
    decreases t, k
  {
    if k == 0 then 0 else KidsKeyCount(t, k - 1, key) + KeyCount(t.kids[k - 1], key)
  }

  /** The counts of all nodes whose names, read from below `t`, spell `names`. */
  function NameCount(t: Tree, names: seq<string>): int
    decreases t, |t.kids| + 1
  {
    if names == [] then t.count else KidsNameCount(t, |t.kids|, names)
  }

  /** The same below the first `k` children. */
  function KidsNameCount(t: Tree, k: nat, names: seq<string>): int
    requires k <= |t.kids| && names != []
    decreases t, k
  {
    if k == 0 then 0
    else KidsNameCount(t, k - 1, names)
         + if t.kids[k - 1].key.name.text == names[0] then NameCount(t.kids[k - 1], names[1..]) else 0
  }

  /** What one child contributes: nothing unless it carries the first name. */
  function NameCountVia(kid: Tree, names: seq<string>): int
    requires names != []
  {
    if kid.key.name.text == names[0] then NameCount(kid, names[1..]) else 0
  }

  /** The names along a path, root excluded. */
  function NamesAlong(t: Tree, p: Path): (r: seq<string>)
    requires OnTree(t, p)
    ensures |r| == |p|
    decreases |p|
  {
    if p == [] then [] else [t.kids[p[0]].key.name.text] + NamesAlong(t.kids[p[0]], p[1..])
  }

  // ----- Replacement

  lemma {:induction false} KeyCountPut(t: Tree, p: Path, n: Tree, key: Key)
    requires OnTree(t, p)
    ensures KeyCount(Put(t, p, n), key) == KeyCount(t, key) - KeyCount(At(t, p), key) + KeyCount(n, key)
    decreases |p|
  {
    if p != [] {
      var kid := Put(t.kids[p[0]], p[1..], n);
      KeyCountPut(t.kids[p[0]], p[1..], n, key);
      KeyCountKid(t, p[0], kid, key);
    }
  }

  lemma KeyCountKid(t: Tree, i: nat, kid: Tree, key: Key)
    requires i < |t.kids|
    ensures KeyCount(t.(kids := t.kids[i := kid]), key) == KeyCount(t, key) - KeyCount(t.kids[i], key) + KeyCount(kid, key)
  {
    KidsKeyCountKid(t, |t.kids|, i, kid, key);
  }

  lemma {:induction false} KidsKeyCountKid(t: Tree, k: nat, i: nat, kid: Tree, key: Key)
    requires i < |t.kids| && k <= |t.kids|
    ensures KidsKeyCount(t.(kids := t.kids[i := kid]), k, key)
         == KidsKeyCount(t, k, key) + if i < k then KeyCount(kid, key) - KeyCount(t.kids[i], key) else 0
    decreases k
  {
    if k > 0 {
      KidsKeyCountKid(t, k - 1, i, kid, key);
    }
  }

  lemma {:induction false} KidsKeyCountSame(m: Tree, n: Tree, k: nat, key: Key)
    requires k <= |m.kids| && k <= |n.kids| && m.kids[..k] == n.kids[..k]
    ensures KidsKeyCount(m, k, key) == KidsKeyCount(n, k, key)
    decreases k
  {
    if k > 0 {
      assert m.kids[..k][k - 1] == n.kids[..k][k - 1];
      assert m.kids[..k - 1] == m.kids[..k][..k - 1] == n.kids[..k - 1];
      KidsKeyCountSame(m, n, k - 1, key);
    }
  }

  lemma KeyCountAdd(t: Tree, kid: Tree, key: Key)
    ensures KeyCount(t.(kids := t.kids + [kid]), key) == KeyCount(t, key) + KeyCount(kid, key)
  {
    KidsKeyCountSame(t, t.(kids := t.kids + [kid]), |t.kids|, key);
  }

  lemma KeyCountLabel(m: Tree, n: Tree, key: Key)
    requires m.kids == n.kids && m.key == n.key
    ensures KeyCount(n, key) == KeyCount(m, key) + (if m.key == key then n.count - m.count else 0)
  {
    KidsKeyCountSame(m, n, |m.kids|, key);
  }

  lemma {:induction false} NameCountPut(t: Tree, p: Path, n: Tree, q: seq<string>)
    requires OnTree(t, p) && n.key == At(t, p).key
    ensures var names := NamesAlong(t, p);
            NameCount(Put(t, p, n), q) - NameCount(t, q)
              == if names <= q then NameCount(n, q[|p|..]) - NameCount(At(t, p), q[|p|..]) else 0
    decreases |p|
  {
    var names := NamesAlong(t, p);
    if p == [] {
      assert q[0..] == q;
    } else if q != [] {
      var below := t.kids[p[0]];
      var kid := Put(below, p[1..], n);
      NameCountPut(below, p[1..], n, q[1..]);
      NameCountKid(t, p[0], kid, q);
      assert names[0] == below.key.name.text && names[1..] == NamesAlong(below, p[1..]);
      assert names == [names[0]] + names[1..];
      assert q == [q[0]] + q[1..];
      if names <= q {
        assert names[1..] <= q[1..];
        assert q[1..][|p| - 1..] == q[|p|..];
      } else if names[0] == q[0] {
        assert !(names[1..] <= q[1..]);
      }
    }
  }

  lemma NameCountKid(t: Tree, i: nat, kid: Tree, q: seq<string>)
    requires i < |t.kids| && q != []
    ensures NameCount(t.(kids := t.kids[i := kid]), q)
         == NameCount(t, q) - NameCountVia(t.kids[i], q) + NameCountVia(kid, q)
  {
    KidsNameCountKid(t, |t.kids|, i, kid, q);
  }

  lemma {:induction false} KidsNameCountKid(t: Tree, k: nat, i: nat, kid: Tree, q: seq<string>)
    requires i < |t.kids| && k <= |t.kids| && q != []
    ensures KidsNameCount(t.(kids := t.kids[i := kid]), k, q)
         == KidsNameCount(t, k, q) + if i < k then NameCountVia(kid, q) - NameCountVia(t.kids[i], q) else 0
    decreases k
  {
    if k > 0 {
      KidsNameCountKid(t, k - 1, i, kid, q);
    }
  }

  lemma {:induction false} KidsNameCountSame(m: Tree, n: Tree, k: nat, q: seq<string>)
    requires k <= |m.kids| && k <= |n.kids| && m.kids[..k] == n.kids[..k] && q != []
    ensures KidsNameCount(m, k, q) == KidsNameCount(n, k, q)
    decreases k
  {
    if k > 0 {
      assert m.kids[..k][k - 1] == n.kids[..k][k - 1];
      assert m.kids[..k - 1] == m.kids[..k][..k - 1] == n.kids[..k - 1];
      KidsNameCountSame(m, n, k - 1, q);
    }
  }

  lemma NameCountAdd(t: Tree, kid: Tree, q: seq<string>)
    requires q != []
    ensures NameCount(t.(kids := t.kids + [kid]), q) == NameCount(t, q) + NameCountVia(kid, q)
  {
    KidsNameCountSame(t, t.(kids := t.kids + [kid]), |t.kids|, q);
  }

  lemma NameCountLabel(m: Tree, n: Tree, q: seq<string>)
    requires m.kids == n.kids
    ensures NameCount(n, q) == NameCount(m, q) + (if q == [] then n.count - m.count else 0)
  {
    if q != [] {
      KidsNameCountSame(m, n, |m.kids|, q);
    }
  }

  // ----- One call

  lemma EnterKeyCount(n: Tree, called: Key, tsc: u64, key: Key)
    ensures KeyCount(Enter(n, called, tsc), key) == KeyCount(n, key) + (if called == key then 1 else 0)
  {
    var i := FindKid(n.kids, called);
    var mid := n.(kids := WithKid(n.kids, called));
    if i == |n.kids| {
      KeyCountAdd(n, Leaf(called), key);
      assert KeyCount(Leaf(called), key) == 0;
    }
    KeyCountKid(mid, i, Called(mid.kids[i], tsc), key);
    KeyCountLabel(mid.kids[i], Called(mid.kids[i], tsc), key);
  }

  lemma EnterNameCount(n: Tree, called: Key, tsc: u64, q: seq<string>)
    ensures NameCount(Enter(n, called, tsc), q) == NameCount(n, q) + (if q == [called.name.text] then 1 else 0)
  {
    var i := FindKid(n.kids, called);
    var mid := n.(kids := WithKid(n.kids, called));
    if q != [] {
      if i == |n.kids| {
        NameCountAdd(n, Leaf(called), q);
        assert NameCount(Leaf(called), q[1..]) == 0;
      }
      NameCountKid(mid, i, Called(mid.kids[i], tsc), q);
      NameCountLabel(mid.kids[i], Called(mid.kids[i], tsc), q[1..]);
      assert q == [q[0]] + q[1..];
    }
  }

  /** A call adds one to the counts of its own key; a return adds nothing. */
  lemma {:induction false} StepKeyCount(s: CallState, i: Insn, key: Key)
    requires Consistent(s)
    ensures KeyCount(Step(s, i).tree, key)
         == KeyCount(s.tree, key) + (if Enters(s.prev, i) && i.sym.value.key == key then 1 else 0)
  {
    var mid := s;
    if Enters(s.prev, i) {
      KeyCountPut(s.tree, s.path, Enter(Top(s), i.sym.value.key, i.tsc), key);
      EnterKeyCount(Top(s), i.sym.value.key, i.tsc, key);
      mid := Push(s, i.sym.value.key, i.tsc);
    }
    if IsReturn(i.cls) && mid.path != [] {
      KeyCountPut(mid.tree, mid.path, Leave(Top(mid), i.tsc), key);
      KeyCountLabel(Top(mid), Leave(Top(mid), i.tsc), key);
    }
  }

  // ----- The names of the open functions

  lemma {:induction false} NamesPut(t: Tree, p: Path, n: Tree, q: Path)
    requires OnTree(t, p) && n.key == At(t, p).key && OnTree(n, q)
    ensures OnTree(Put(t, p, n), p + q)
    ensures NamesAlong(Put(t, p, n), p + q) == NamesAlong(t, p) + NamesAlong(n, q)
    decreases |p|
  {
    PutOnTree(t, p, n, q);
    if p == [] {
      assert p + q == q;
    } else {
      assert (p + q)[1..] == p[1..] + q;
      NamesPut(t.kids[p[0]], p[1..], n, q);
    }
  }

  lemma {:induction false} NamesPrefix(t: Tree, p: Path, k: nat)
    requires OnTree(t, p) && k <= |p|
    ensures OnTree(t, p[..k]) && NamesAlong(t, p[..k]) == NamesAlong(t, p)[..k]
    decreases |p|
  {
    OnTreePrefix(t, p, k);
    if k > 0 {
      assert p[..k][1..] == p[1..][..k - 1];
      NamesPrefix(t.kids[p[0]], p[1..], k - 1);
    }
  }

  /** The names on the shadow stack, outermost first. */
  function OpenNames(s: CallState): seq<string>
    requires Consistent(s)
  {
    NamesAlong(s.tree, s.path)
  }

  lemma PushNames(s: CallState, key: Key, tsc: u64)
    requires Consistent(s)
    ensures OpenNames(Push(s, key, tsc)) == OpenNames(s) + [key.name.text]
  {
    var n := Enter(Top(s), key, tsc);
    var i := FindKid(Top(s).kids, key);
    NamesPut(s.tree, s.path, n, [i]);
    assert NamesAlong(n, [i]) == [n.kids[i].key.name.text];
  }

  lemma PopNames(s: CallState, tsc: u64)
    requires Consistent(s) && s.path != []
    ensures OpenNames(Pop(s, tsc)) == OpenNames(s)[..|OpenNames(s)| - 1]
  {
    var n := Leave(Top(s), tsc);
    NamesPut(s.tree, s.path, n, []);
    assert s.path + [] == s.path;
    NamesPrefix(Put(s.tree, s.path, n), s.path, |s.path| - 1);
  }

  lemma {:induction false} PushNameCount(s: CallState, key: Key, tsc: u64, q: seq<string>)
    requires Consistent(s)
    ensures NameCount(Push(s, key, tsc).tree, q)
         == NameCount(s.tree, q) + (if q == OpenNames(s) + [key.name.text] then 1 else 0)
  {
    var names := OpenNames(s);
    NameCountPut(s.tree, s.path, Enter(Top(s), key, tsc), q);
    if names <= q {
      EnterNameCount(Top(s), key, tsc, q[|names|..]);
      assert q == names + q[|names|..];
    }
  }

  lemma {:induction false} PopNameCount(s: CallState, tsc: u64, q: seq<string>)
    requires Consistent(s)
    ensures NameCount(Pop(s, tsc).tree, q) == NameCount(s.tree, q)
  {
    if s.path != [] {
      NameCountPut(s.tree, s.path, Leave(Top(s), tsc), q);
      if OpenNames(s) <= q {
        NameCountLabel(Top(s), Leave(Top(s), tsc), q[|s.path|..]);
      }
    }
  }
}
