/**
 What the stream itself says about calls: a shadow stack of the instructions that entered a function,
 and from it how often each chain of functions was called and how long it ran.  The call tree is shown
 to hold exactly that, node by node, on every stream.
 */
module CallHistory {
  import opened Common
  import opened Instructions
  import opened CallTree

  // ----- Reading the stream

  predicate AfterCallInsn(s: seq<Insn>) {
    s != [] && (s[|s| - 1].cls == Call || s[|s| - 1].cls == FarCall)
  }

  /** The last instruction is the first one of a function, and the one before it was a call. */
  predicate EntersLast(s: seq<Insn>)
    requires s != []
  {
    AfterCallInsn(s[..|s| - 1]) && s[|s| - 1].sym.Some? && s[|s| - 1].ip == s[|s| - 1].sym.value.addr
  }

  predicate ReturnsLast(s: seq<Insn>)
    requires s != []
  {
    s[|s| - 1].cls == Return || s[|s| - 1].cls == FarReturn
  }

  /** The instructions that entered the functions still open, outermost first. */
  function OpenCalls(s: seq<Insn>): (r: seq<Insn>)
    ensures forall i :: 0 <= i < |r| ==> r[i].sym.Some?
    decreases |s|, 1
  {
    if s == [] then []
    else
      var open := OpenNow(s);
      if ReturnsLast(s) && open != [] then open[..|open| - 1] else open
  }

  /** The same before a return takes effect. */
  function OpenNow(s: seq<Insn>): (r: seq<Insn>)
    requires s != []
    ensures forall i :: 0 <= i < |r| ==> r[i].sym.Some?
    decreases |s|, 0
  {
    OpenCalls(s[..|s| - 1]) + if EntersLast(s) then [s[|s| - 1]] else []
  }

  function Keys(open: seq<Insn>): (r: seq<Key>)
    requires forall i :: 0 <= i < |open| ==> open[i].sym.Some?
    ensures |r| == |open| && forall i :: 0 <= i < |r| ==> r[i] == open[i].sym.value.key
  {
    seq(|open|, i requires 0 <= i < |open| => open[i].sym.value.key)
  }

  /** How often exactly this chain of functions came to be open. */
  function CallsOn(s: seq<Insn>, keys: seq<Key>): nat {
    if s == [] then 0
    else CallsOn(s[..|s| - 1], keys) + if EntersLast(s) && Keys(OpenNow(s)) == keys then 1 else 0
  }

  /** What the last instruction charges: the time since the matching entry, when both are known. */
  function Charge(s: seq<Insn>): nat
    requires s != []
  {
    var open := OpenNow(s);
    if ReturnsLast(s) && open != [] && 0 < open[|open| - 1].tsc < s[|s| - 1].tsc
    then s[|s| - 1].tsc - open[|open| - 1].tsc else 0
  }

  /** The time charged to exactly this chain of functions. */
  function TimeOn(s: seq<Insn>, keys: seq<Key>): nat {
    if s == [] then 0
    else TimeOn(s[..|s| - 1], keys) + if Keys(OpenNow(s)) == keys then Charge(s) else 0
  }

  /** When the call of this chain that is still open began, 0 if none is. */
  function EntryOn(open: seq<Insn>, keys: seq<Key>): u64
    requires forall i :: 0 <= i < |open| ==> open[i].sym.Some?
  {
    if keys != [] && keys <= Keys(open) then open[|keys| - 1].tsc else 0
  }

  // ----- Reading the tree

  /** The node that a chain of functions leads to. */
  function Look(t: Tree, keys: seq<Key>): Option<Tree>
    decreases |keys|
  {
    if keys == [] then Some(t)
    else
      var i := FindKid(t.kids, keys[0]);
      if i < |t.kids| then Look(t.kids[i], keys[1..]) else None
  }

  datatype Label = Label(count: nat, total: u64, entry: u64)

  function LabelOf(n: Option<Tree>): Label {
    if n.Some? then Label(n.value.count, n.value.total, n.value.entry) else Label(0, 0, 0)
  }

  function LabelAt(t: Tree, keys: seq<Key>): Label {
    LabelOf(Look(t, keys))
  }

  function KeysAlong(t: Tree, p: Path): (r: seq<Key>)
    requires OnTree(t, p)
    ensures |r| == |p|
    decreases |p|
  {
    if p == [] then [] else [t.kids[p[0]].key] + KeysAlong(t.kids[p[0]], p[1..])
  }

  lemma FindSelf(t: Tree, i: nat)
    requires DistinctKids(t) && i < |t.kids|
    ensures FindKid(t.kids, t.kids[i].key) == i
  {
  }

  lemma TopDistinct(t: Tree)
    requires Trie(t)
    ensures DistinctKids(t)
  {
    assert OnTree(t, []) && At(t, []) == t;
  }

  /** Following the keys along a path leads where the path leads. */
  lemma {:induction false} LookAlong(t: Tree, p: Path, rest: seq<Key>)
    requires Trie(t) && OnTree(t, p)
    ensures Look(t, KeysAlong(t, p) + rest) == Look(At(t, p), rest)
    decreases |p|
  {
    if p == [] {
      assert [] + rest == rest;
    } else {
      var kid := t.kids[p[0]];
      TopDistinct(t);
      FindSelf(t, p[0]);
      KidTrie(t, p[0]);
      assert (KeysAlong(t, p) + rest)[1..] == KeysAlong(kid, p[1..]) + rest;
      LookAlong(kid, p[1..], rest);
    }
  }

  lemma PutKeepsKey(t: Tree, p: Path, n: Tree)
    requires OnTree(t, p) && n.key == At(t, p).key
    ensures Put(t, p, n).key == t.key
  {
  }

  lemma SameKeysFound(xs: seq<Tree>, ys: seq<Tree>, key: Key)
    requires |xs| == |ys| && forall i :: 0 <= i < |xs| ==> xs[i].key == ys[i].key
    ensures FindKid(xs, key) == FindKid(ys, key)
  {
  }

  /** Away from the replaced node every chain keeps its label. */
  lemma {:induction false} LabelElsewhere(t: Tree, p: Path, n: Tree, keys: seq<Key>)
    requires Trie(t) && OnTree(t, p) && n.key == At(t, p).key && !(KeysAlong(t, p) <= keys)
    ensures LabelAt(Put(t, p, n), keys) == LabelAt(t, keys)
    decreases |p|
  {
    var kid := t.kids[p[0]];
    var r := Put(t, p, n);
    TopDistinct(t);
    KidTrie(t, p[0]);
    PutKeepsKey(kid, p[1..], n);
    if keys != [] {
      SameKeysFound(t.kids, r.kids, keys[0]);
      FindSelf(t, p[0]);
      if FindKid(t.kids, keys[0]) == p[0] {
        assert keys == [keys[0]] + keys[1..] && KeysAlong(t, p) == [kid.key] + KeysAlong(kid, p[1..]);
        LabelElsewhere(kid, p[1..], n, keys[1..]);
      }
    }
  }

  lemma {:induction false} KeysAlongPut(t: Tree, p: Path, n: Tree)
    requires OnTree(t, p) && n.key == At(t, p).key
    ensures OnTree(Put(t, p, n), p) && KeysAlong(Put(t, p, n), p) == KeysAlong(t, p)
    decreases |p|
  {
    if p != [] {
      PutKeepsKey(t.kids[p[0]], p[1..], n);
      KeysAlongPut(t.kids[p[0]], p[1..], n);
    }
  }

  lemma {:induction false} KeysAlongSnoc(t: Tree, p: Path, i: nat)
    requires OnTree(t, p) && i < |At(t, p).kids|
    ensures OnTree(t, p + [i]) && KeysAlong(t, p + [i]) == KeysAlong(t, p) + [At(t, p).kids[i].key]
    decreases |p|
  {
    if p != [] {
      assert (p + [i])[1..] == p[1..] + [i];
      KeysAlongSnoc(t.kids[p[0]], p[1..], i);
    } else {
      assert [i][1..] == [];
    }
  }

  lemma {:induction false} KeysAlongPrefix(t: Tree, p: Path, k: nat)
    requires OnTree(t, p) && k <= |p|
    ensures OnTree(t, p[..k]) && KeysAlong(t, p[..k]) == KeysAlong(t, p)[..k]
    decreases |p|
  {
    if k > 0 {
      assert p[..k][1..] == p[1..][..k - 1];
      KeysAlongPrefix(t.kids[p[0]], p[1..], k - 1);
    }
  }

  // ----- One call and one return

  lemma WithKidFinds(kids: seq<Tree>, key: Key, other: Key)
    ensures FindKid(WithKid(kids, key), other)
         == if other == key || FindKid(kids, other) < |kids| then FindKid(kids, other) else |WithKid(kids, key)|
  {
    var all := WithKid(kids, key);
    assert forall j :: 0 <= j < |kids| ==> all[j] == kids[j];
    assert |all| > |kids| ==> all[|kids|].key == key;
  }

  /** A call counts and opens one chain below the node and changes no other label. */
  lemma EnterLabel(n: Tree, key: Key, tsc: u64, rest: seq<Key>)
    ensures var before := LabelOf(Look(n, rest));
            LabelOf(Look(Enter(n, key, tsc), rest)) == if rest == [key] then Label(before.count + 1, before.total, tsc) else before
  {
    hide FindKid, WithKid;
    var kids, i := WithKid(n.kids, key), FindKid(n.kids, key);
    var r := Enter(n, key, tsc);
    if rest != [] {
      assert rest == [rest[0]] + rest[1..];
      SameKeysFound(kids, r.kids, rest[0]);
      WithKidFinds(n.kids, key, rest[0]);
      KidsKept(n.kids, key);
      if rest[0] == key {
        assert rest[1..] == [] <==> rest == [key];
        SameKidsLook(kids[i], Called(kids[i], tsc), rest[1..]);
      }
    }
  }

  lemma KidsKept(kids: seq<Tree>, key: Key)
    ensures |kids| <= |WithKid(kids, key)| && forall j :: 0 <= j < |kids| ==> WithKid(kids, key)[j] == kids[j]
    ensures FindKid(kids, key) == |kids| ==> WithKid(kids, key) == kids + [Leaf(key)]
  {
  }

  lemma SameKidsLook(m: Tree, n: Tree, rest: seq<Key>)
    requires m.kids == n.kids
    ensures rest != [] ==> Look(m, rest) == Look(n, rest)
  {
  }

  lemma PushLabels(s: CallState, key: Key, tsc: u64, keys: seq<Key>)
    requires Consistent(s) && Trie(s.tree)
    ensures KeysAlong(Push(s, key, tsc).tree, Push(s, key, tsc).path) == KeysAlong(s.tree, s.path) + [key]
    ensures var before := LabelAt(s.tree, keys);
            LabelAt(Push(s, key, tsc).tree, keys)
              == if keys == KeysAlong(s.tree, s.path) + [key] then Label(before.count + 1, before.total, tsc) else before
  {
    hide Enter, Look;
    var n, kp := Enter(Top(s), key, tsc), KeysAlong(s.tree, s.path);
    var r := Put(s.tree, s.path, n);
    EnterShape(Top(s), key, tsc);
    KeysAlongPut(s.tree, s.path, n);
    PutOnTree(s.tree, s.path, n, []);
    assert s.path + [] == s.path;
    KeysAlongSnoc(r, s.path, FindKid(Top(s).kids, key));
    if kp <= keys {
      var rest := keys[|kp|..];
      assert keys == kp + rest;
      SubtreeTrie(s.tree, s.path);
      EnterTrie(Top(s), key, tsc);
      PutTrie(s.tree, s.path, n);
      LookAlong(s.tree, s.path, rest);
      LookAlong(r, s.path, rest);
      EnterLabel(Top(s), key, tsc, rest);
      assert rest == [key] <==> keys == kp + [key];
    } else {
      LabelElsewhere(s.tree, s.path, n, keys);
    }
  }

  lemma EnterShape(n: Tree, key: Key, tsc: u64)
    ensures var r, i := Enter(n, key, tsc), FindKid(n.kids, key);
            r.key == n.key && i < |r.kids| && r.kids[i].key == key
  {
  }

  lemma PopLabels(s: CallState, tsc: u64, keys: seq<Key>)
    requires Consistent(s) && Trie(s.tree) && s.path != []
    ensures var kp := KeysAlong(s.tree, s.path);
            KeysAlong(Pop(s, tsc).tree, Pop(s, tsc).path) == kp[..|kp| - 1]
    ensures var before := LabelAt(s.tree, keys);
            LabelAt(Pop(s, tsc).tree, keys)
              == if keys == KeysAlong(s.tree, s.path)
                 then Label(before.count, Wrap(before.total + if 0 < before.entry < tsc then tsc - before.entry else 0), 0)
                 else before
  {
    hide Look;
    var n, kp := Leave(Top(s), tsc), KeysAlong(s.tree, s.path);
    var r := Put(s.tree, s.path, n);
    KeysAlongPut(s.tree, s.path, n);
    KeysAlongPrefix(r, s.path, |s.path| - 1);
    if kp <= keys {
      var rest := keys[|kp|..];
      assert keys == kp + rest;
      SubtreeTrie(s.tree, s.path);
      LeaveTrie(Top(s), tsc);
      PutTrie(s.tree, s.path, n);
      LookAlong(s.tree, s.path, rest);
      LookAlong(r, s.path, rest);
      PutOnTree(s.tree, s.path, n, []);
      assert s.path + [] == s.path;
      SameKidsLook(Top(s), n, rest);
      LookNowhere(Top(s));
      LookNowhere(n);
      assert rest == [] <==> keys == kp;
    } else {
      LabelElsewhere(s.tree, s.path, n, keys);
    }
  }

  lemma LookNowhere(n: Tree)
    ensures Look(n, []) == Some(n)
  {
  }

  // ----- Every run

  /** The tree holds what the stream says of one chain. */
  ghost predicate Tells(s: CallState, calls: nat, time: nat, open: seq<Insn>, keys: seq<Key>)
    requires Consistent(s) && forall i :: 0 <= i < |open| ==> open[i].sym.Some?
  {
    && KeysAlong(s.tree, s.path) == Keys(open)
    && (keys != [] ==> LabelAt(s.tree, keys) == Label(calls, Wrap(time), EntryOn(open, keys)))
  }

  lemma PushTells(s: CallState, calls: nat, time: nat, open: seq<Insn>, keys: seq<Key>, i: Insn)
    requires Consistent(s) && Trie(s.tree) && i.sym.Some? && forall j :: 0 <= j < |open| ==> open[j].sym.Some?
    requires Tells(s, calls, time, open, keys)
    ensures Tells(Push(s, i.sym.value.key, i.tsc), calls + (if Keys(open + [i]) == keys then 1 else 0), time, open + [i], keys)
  {
    hide LabelAt, Push, KeysAlong;
    PushLabels(s, i.sym.value.key, i.tsc, keys);
    assert Keys(open + [i]) == Keys(open) + [i.sym.value.key];
    if keys != [] && keys <= Keys(open + [i]) && keys != Keys(open + [i]) {
      assert keys == Keys(open + [i])[..|keys|] == Keys(open)[..|keys|];
    }
    if keys <= Keys(open) {
      assert keys == Keys(open)[..|keys|] == Keys(open + [i])[..|keys|];
    }
  }

  lemma PopTells(s: CallState, calls: nat, time: nat, open: seq<Insn>, keys: seq<Key>, tsc: u64)
    requires Consistent(s) && Trie(s.tree) && open != [] && s.path != [] && forall j :: 0 <= j < |open| ==> open[j].sym.Some?
    requires Tells(s, calls, time, open, keys)
    ensures var last := open[|open| - 1].tsc;
            Tells(Pop(s, tsc), calls, time + (if Keys(open) == keys && 0 < last < tsc then tsc - last else 0), open[..|open| - 1], keys)
  {
    hide LabelAt, Pop, KeysAlong;
    PopLabels(s, tsc, keys);
    var up := open[..|open| - 1];
    assert Keys(up) == Keys(open)[..|open| - 1];
    WrapTwice(time, if 0 < open[|open| - 1].tsc < tsc then tsc - open[|open| - 1].tsc else 0);
    if keys <= Keys(open) && keys != Keys(open) {
      assert keys == Keys(open)[..|keys|] == Keys(up)[..|keys|];
    }
    if keys <= Keys(up) {
      assert keys == Keys(up)[..|keys|] == Keys(open)[..|keys|];
    }
  }

  lemma TellsStack(s: CallState, calls: nat, time: nat, open: seq<Insn>, keys: seq<Key>)
    requires Consistent(s) && forall j :: 0 <= j < |open| ==> open[j].sym.Some?
    requires Tells(s, calls, time, open, keys)
    ensures |s.path| == |open|
    ensures forall c: Class :: Tells(s.(prev := c), calls, time, open, keys)
  {
  }

  lemma AfterCallTrie(s: seq<Insn>)
    requires s != []
    ensures Trie(AfterCall(s).tree)
  {
    var r, i := s[..|s| - 1], s[|s| - 1];
    RunTrie(r);
    if Enters(Run(r).prev, i) {
      SubtreeTrie(Run(r).tree, Run(r).path);
      EnterTrie(Top(Run(r)), i.sym.value.key, i.tsc);
      PutTrie(Run(r).tree, Run(r).path, Enter(Top(Run(r)), i.sym.value.key, i.tsc));
    }
  }

  lemma NothingTold(keys: seq<Key>)
    ensures Tells(Init(), 0, 0, [], keys)
  {
  }

  lemma AfterCallTells(s: seq<Insn>, keys: seq<Key>)
    requires s != []
    requires var r := s[..|s| - 1]; Tells(Run(r), CallsOn(r, keys), TimeOn(r, keys), OpenCalls(r), keys)
    ensures Tells(AfterCall(s), CallsOn(s, keys), TimeOn(s[..|s| - 1], keys), OpenNow(s), keys)
  {
    hide Tells, Push;
    var r, i := s[..|s| - 1], s[|s| - 1];
    RunTrie(r);
    assert EntersLast(s) <==> Enters(Run(r).prev, i);
    if EntersLast(s) {
      PushTells(Run(r), CallsOn(r, keys), TimeOn(r, keys), OpenCalls(r), keys, i);
    } else {
      assert OpenNow(s) == OpenCalls(r);
    }
  }

  lemma {:induction false} TreeTells(s: seq<Insn>, keys: seq<Key>)
    ensures Tells(Run(s), CallsOn(s, keys), TimeOn(s, keys), OpenCalls(s), keys)
  {
    hide Tells, Push, Pop, CallsOn, Init;
    if s == [] {
      NothingTold(keys);
      NothingCalled(keys);
    } else {
      var r, i, mid := s[..|s| - 1], s[|s| - 1], AfterCall(s);
      TreeTells(r, keys);
      AfterCallTells(s, keys);
      AfterCallTrie(s);
      TellsStack(mid, CallsOn(s, keys), TimeOn(r, keys), OpenNow(s), keys);
      var after := if IsReturn(i.cls) then Pop(mid, i.tsc) else mid;
      assert Run(s) == after.(prev := i.cls);
      if ReturnsLast(s) && OpenNow(s) != [] {
        PopTells(mid, CallsOn(s, keys), TimeOn(r, keys), OpenNow(s), keys, i.tsc);
      } else if ReturnsLast(s) {
        PopNothing(mid, i.tsc);
      }
      TellsStack(after, CallsOn(s, keys), TimeOn(s, keys), OpenCalls(s), keys);
    }
  }

  lemma NothingCalled(keys: seq<Key>)
    ensures CallsOn([], keys) == 0 && Run([]) == Init()
  {
  }

  lemma PopNothing(s: CallState, tsc: u64)
    requires Consistent(s) && s.path == []
    ensures Pop(s, tsc) == s
  {
  }

  /**
   On every stream and for every chain of functions, the node at the end of the chain holds the number
   of calls, the charged time modulo 2^64, and the start of the open call that the stream itself tells;
   and the chain of the open functions is the shadow stack.
   */
  lemma {:induction false} TreeIsHistory(s: seq<Insn>, keys: seq<Key>)
    requires keys != []
    ensures LabelAt(Run(s).tree, keys) == Label(CallsOn(s, keys), Wrap(TimeOn(s, keys)), EntryOn(OpenCalls(s), keys))
    ensures KeysAlong(Run(s).tree, Run(s).path) == Keys(OpenCalls(s))
  {
    TreeTells(s, keys);
  }

  /** A return charges the time since the entry that it ends, and nothing when either time is not known. */
  lemma {:induction false} ReturnCharges(s: seq<Insn>)
    requires s != [] && ReturnsLast(s) && OpenNow(s) != []
    ensures var open, now := OpenNow(s), s[|s| - 1].tsc;
            var began, before := open[|open| - 1].tsc, LabelAt(Run(s[..|s| - 1]).tree, Keys(open));
            LabelAt(Run(s).tree, Keys(open)).total == Wrap(before.total + if began == 0 || now <= began then 0 else now - began)
  {
    hide LabelAt, Run;
    var keys := Keys(OpenNow(s));
    TreeTells(s, keys);
    TreeTells(s[..|s| - 1], keys);
    WrapTwice(TimeOn(s[..|s| - 1], keys), Charge(s));
  }
}
