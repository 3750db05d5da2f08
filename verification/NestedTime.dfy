/**
 Time nests in the call tree: at every step, what the children of a node have used, counting
 the elapsed time of the child still open, fits in what the node itself has used.  At the root
 the bound is the length of the trace so far, so the 64-bit totals never wrap.
 */
module NestedTime {
  import opened Common
  import opened Instructions
  import opened CallTree

  /** Every instruction carries a timestamp and timestamps never go back. */
  ghost predicate Timed(s: seq<Insn>) {
    && (forall i :: 0 <= i < |s| ==> s[i].tsc > 0)
    && (forall i, j :: 0 <= i <= j < |s| ==> s[i].tsc <= s[j].tsc)
  }

  /** Accumulated time, plus the elapsed time of the current call when the node is open. */
  function Spent(n: Tree, open: bool, now: int): int {
    n.total + if open then now - n.entry else 0
  }

  /**
   `open` is the rest of the shadow stack below a node, or None when the node is closed.
   Only the child that the shadow stack goes through is open.
   */
  function KidOpen(open: Option<Path>, i: nat): Option<Path> {
    if open.Some? && open.value != [] && open.value[0] == i then Some(open.value[1..]) else None
  }

  function KidsSpent(n: Tree, open: Option<Path>, now: int): int {
    Sum(KidTimes(n, open, now))
  }

  function KidTimes(n: Tree, open: Option<Path>, now: int): (r: seq<int>)
    ensures |r| == |n.kids|
  {
    seq(|n.kids|, i requires 0 <= i < |n.kids| => Spent(n.kids[i], KidOpen(open, i).Some?, now))
  }

  /** The children's time fits in `limit`, and so on below; an open child was entered in the past. */
  ghost predicate Nested(n: Tree, open: Option<Path>, now: int, limit: int) {
    && KidsSpent(n, open, now) <= limit
    && (forall i :: 0 <= i < |n.kids| ==> NestedKid(n.kids[i], KidOpen(open, i), now))
  }

  ghost predicate NestedKid(kid: Tree, open: Option<Path>, now: int) {
    && (open.Some? ==> 0 < kid.entry <= now)
    && Nested(kid, open, now, Spent(kid, open.Some?, now))
  }

  /** `open` for the node at `q`, given the shadow stack of the root. */
  function OpenAt(open: Option<Path>, q: Path): Option<Path> {
    if open.Some? && q <= open.value then Some(open.value[|q|..]) else None
  }

  // ----- Keeping it

  lemma KidTimesNonNegative(n: Tree, open: Option<Path>, now: int, limit: int)
    requires Nested(n, open, now, limit)
    ensures forall i :: 0 <= i < |n.kids| ==> 0 <= KidTimes(n, open, now)[i] <= limit
  {
    var times := KidTimes(n, open, now);
    assert forall i :: 0 <= i < |n.kids| ==> NestedKid(n.kids[i], KidOpen(open, i), now);
    forall i | 0 <= i < |n.kids|
      ensures 0 <= times[i] <= limit
    {
      SumElement(times, i);
    }
  }

  /** Time passes: an open node may use the time that went by, a closed one needs none. */
  lemma {:induction false} Advance(n: Tree, open: Option<Path>, now: int, later: int, limit: int)
    requires Nested(n, open, now, limit) && now <= later
    ensures Nested(n, open, later, limit + if open.Some? then later - now else 0)
    decreases n
  {
    var times := KidTimes(n, open, now);
    forall i | 0 <= i < |n.kids|
      ensures NestedKid(n.kids[i], KidOpen(open, i), later)
    {
      var kid := n.kids[i];
      assert NestedKid(kid, KidOpen(open, i), now);
      Advance(kid, KidOpen(open, i), now, later, Spent(kid, KidOpen(open, i).Some?, now));
    }
    if open.Some? && open.value != [] && open.value[0] < |n.kids| {
      var i := open.value[0];
      SumUpdate(times, i, times[i] + (later - now));
      assert KidTimes(n, open, later) == times[i := times[i] + (later - now)];
    } else {
      assert KidTimes(n, open, later) == times;
    }
  }

  /** Nothing here looks at a node's own counters, and a node on top of the stack has no open child. */
  lemma NestedRelabel(m: Tree, n: Tree, open: Option<Path>, open': Option<Path>, now: int, limit: int)
    requires m.kids == n.kids && Nested(m, open, now, limit)
    requires open == open' || ((open.None? || open.value == []) && (open'.None? || open'.value == []))
    ensures Nested(n, open', now, limit)
  {
    assert KidTimes(n, open', now) == KidTimes(m, open, now);
    forall i | 0 <= i < |n.kids|
      ensures NestedKid(n.kids[i], KidOpen(open', i), now)
    {
      assert NestedKid(m.kids[i], KidOpen(open, i), now);
    }
  }

  /** Replacing one child by one that uses the same time. */
  lemma NestedKidChange(n: Tree, open: Option<Path>, open': Option<Path>, now: int, limit: int, k: nat, kid: Tree)
    requires Nested(n, open, now, limit) && k < |n.kids|
    requires forall i :: 0 <= i < |n.kids| && i != k ==> KidOpen(open', i) == KidOpen(open, i)
    requires NestedKid(kid, KidOpen(open', k), now)
    requires Spent(kid, KidOpen(open', k).Some?, now) == Spent(n.kids[k], KidOpen(open, k).Some?, now)
    ensures Nested(n.(kids := n.kids[k := kid]), open', now, limit)
  {
    var r := n.(kids := n.kids[k := kid]);
    assert KidTimes(r, open', now) == KidTimes(n, open, now);
    forall i | 0 <= i < |r.kids|
      ensures NestedKid(r.kids[i], KidOpen(open', i), now)
    {
      if i != k {
        assert NestedKid(n.kids[i], KidOpen(open, i), now);
      }
    }
  }

  lemma NestedNewLeaf(n: Tree, now: int, limit: int, key: Key)
    requires Nested(n, Some([]), now, limit)
    ensures Nested(n.(kids := n.kids + [Leaf(key)]), Some([]), now, limit)
  {
    var r := n.(kids := n.kids + [Leaf(key)]);
    SumSnoc(KidTimes(n, Some([]), now), 0);
    assert KidTimes(r, Some([]), now) == KidTimes(n, Some([]), now) + [0];
    forall i | 0 <= i < |r.kids|
      ensures NestedKid(r.kids[i], KidOpen(Some([]), i), now)
    {
      if i < |n.kids| {
        assert NestedKid(n.kids[i], KidOpen(Some([]), i), now);
      }
    }
  }

  lemma EnterNested(n: Tree, key: Key, now: u64, limit: int)
    requires Nested(n, Some([]), now, limit) && now > 0
    ensures Nested(Enter(n, key, now), Some([FindKid(n.kids, key)]), now, limit)
  {
    var k := FindKid(n.kids, key);
    var mid := n.(kids := WithKid(n.kids, key));
    if k == |n.kids| {
      NestedNewLeaf(n, now, limit, key);
    }
    var kid := mid.kids[k];
    assert NestedKid(kid, KidOpen(Some([]), k), now);
    var open := Some([k]);
    assert [k][1..] == [] && KidOpen(open, k) == Some([]);
    NestedRelabel(kid, Called(kid, now), None, Some([]), now, Spent(kid, false, now));
    NestedKidChange(mid, Some([]), open, now, limit, k, Called(kid, now));
  }

  lemma {:induction false} PushNested(t: Tree, p: Path, key: Key, now: u64, limit: int)
    requires OnTree(t, p) && Nested(t, Some(p), now, limit) && now > 0
    ensures Nested(Put(t, p, Enter(At(t, p), key, now)), Some(p + [FindKid(At(t, p).kids, key)]), now, limit)
    decreases |p|
  {
    var k := FindKid(At(t, p).kids, key);
    if p == [] {
      EnterNested(t, key, now, limit);
      assert p + [k] == [k];
    } else {
      var kid := t.kids[p[0]];
      assert KidOpen(Some(p), p[0]) == Some(p[1..]);
      assert NestedKid(kid, KidOpen(Some(p), p[0]), now);
      var kid' := Put(kid, p[1..], Enter(At(kid, p[1..]), key, now));
      PushNested(kid, p[1..], key, now, Spent(kid, true, now));
      assert (p + [k])[1..] == p[1..] + [k];
      PutKeepsEntry(kid, p[1..], Enter(At(kid, p[1..]), key, now));
      NestedKidChange(t, Some(p), Some(p + [k]), now, limit, p[0], kid');
    }
  }

  lemma PutKeepsEntry(t: Tree, p: Path, n: Tree)
    requires OnTree(t, p) && n.total == At(t, p).total && n.entry == At(t, p).entry
    ensures Put(t, p, n).total == t.total && Put(t, p, n).entry == t.entry
  {
  }

  /** Because everything fits below `limit`, adding the open time to the total does not wrap. */
  lemma {:induction false} PopNested(t: Tree, p: Path, now: u64, limit: int)
    requires OnTree(t, p) && p != [] && Nested(t, Some(p), now, limit) && now > 0 && limit < TWO64
    ensures Nested(Put(t, p, Leave(At(t, p), now)), Some(p[..|p| - 1]), now, limit)
    decreases |p|
  {
    var kid := t.kids[p[0]];
    var up := p[..|p| - 1];
    assert KidOpen(Some(p), p[0]) == Some(p[1..]);
    assert NestedKid(kid, KidOpen(Some(p), p[0]), now);
    KidTimesNonNegative(t, Some(p), now, limit);
    assert KidTimes(t, Some(p), now)[p[0]] == Spent(kid, true, now);
    if |p| == 1 {
      assert up == [] && p[1..] == [];
      NestedRelabel(kid, Leave(kid, now), Some([]), None, now, Spent(kid, true, now));
      NestedKidChange(t, Some(p), Some([]), now, limit, p[0], Leave(kid, now));
      assert Put(t, p, Leave(At(t, p), now)) == t.(kids := t.kids[p[0] := Leave(kid, now)]);
    } else {
      PopNested(kid, p[1..], now, Spent(kid, true, now));
      assert up[1..] == p[1..][..|p[1..]| - 1];
      NestedKidChange(t, Some(p), Some(up), now, limit, p[0], Put(kid, p[1..], Leave(At(kid, p[1..]), now)));
    }
  }

  // ----- Every run

  lemma {:induction false} AfterCallNested(s: seq<Insn>)
    requires s != [] && Timed(s)
    ensures Nested(AfterCall(s).tree, Some(AfterCall(s).path), s[|s| - 1].tsc, s[|s| - 1].tsc - s[0].tsc)
    decreases |s|, 0
  {
    var i := s[|s| - 1];
    var r := s[..|s| - 1];
    var before := Run(r);
    if r == [] {
      assert KidTimes(before.tree, Some([]), i.tsc) == [];
    } else {
      RunNested(r);
      Advance(before.tree, Some(before.path), r[|r| - 1].tsc, i.tsc, r[|r| - 1].tsc - r[0].tsc);
    }
    if Enters(before.prev, i) {
      PushNested(before.tree, before.path, i.sym.value.key, i.tsc, i.tsc - s[0].tsc);
    }
  }

  lemma {:induction false} RunNested(s: seq<Insn>)
    requires s != [] && Timed(s)
    ensures Nested(Run(s).tree, Some(Run(s).path), s[|s| - 1].tsc, s[|s| - 1].tsc - s[0].tsc)
    decreases |s|, 1
  {
    var i := s[|s| - 1];
    var mid := AfterCall(s);
    AfterCallNested(s);
    if IsReturn(i.cls) && mid.path != [] {
      PopNested(mid.tree, mid.path, i.tsc, i.tsc - s[0].tsc);
    }
  }

  lemma {:induction false} NestedAt(t: Tree, open: Option<Path>, now: int, limit: int, q: Path)
    requires Nested(t, open, now, limit) && OnTree(t, q) && (open.Some? ==> OnTree(t, open.value))
    ensures var own := if q == [] then limit else Spent(At(t, q), OpenAt(open, q).Some?, now);
            0 <= KidsSpent(At(t, q), OpenAt(open, q), now) <= own <= limit
    decreases |q|
  {
    KidTimesNonNegative(t, open, now, limit);
    if q == [] {
      SumNonNegative(KidTimes(t, open, now));
      assert OpenAt(open, q) == open;
    } else {
      var kid := t.kids[q[0]];
      assert NestedKid(kid, KidOpen(open, q[0]), now);
      assert KidTimes(t, open, now)[q[0]] == Spent(kid, KidOpen(open, q[0]).Some?, now);
      assert q == [q[0]] + q[1..];
      if open.Some? && open.value != [] {
        assert open.value == [open.value[0]] + open.value[1..];
        if open.value[0] == q[0] && q[1..] <= open.value[1..] {
          assert q <= open.value;
        }
      }
      assert OpenAt(KidOpen(open, q[0]), q[1..]) == OpenAt(open, q);
      NestedAt(kid, KidOpen(open, q[0]), now, Spent(kid, KidOpen(open, q[0]).Some?, now), q[1..]);
    }
  }

  /**
   At every node of every timed run, the children's accumulated time plus the elapsed time of the
   open one is at most the node's own; at the root the bound is the time since the first instruction.
   */
  lemma {:induction false} TimeNests(s: seq<Insn>, q: Path)
    requires s != [] && Timed(s) && OnTree(Run(s).tree, q)
    ensures var r, now := Run(s), s[|s| - 1].tsc;
            var kids := KidsSpent(At(r.tree, q), OpenAt(Some(r.path), q), now);
            && (q == [] ==> kids <= now - s[0].tsc)
            && (q != [] ==> kids <= Spent(At(r.tree, q), q <= r.path, now) <= now - s[0].tsc)
  {
    var r, now := Run(s), s[|s| - 1].tsc;
    RunNested(s);
    NestedAt(r.tree, Some(r.path), now, now - s[0].tsc, q);
  }

  /** A return in a timed run adds exactly the time since the matching call: 64 bits are always enough. */
  lemma {:induction false} TotalsExact(s: seq<Insn>)
    requires s != [] && Timed(s)
    requires AfterCall(s).path != []
    ensures var n, now := Top(AfterCall(s)), s[|s| - 1].tsc;
            0 < n.entry <= now && Leave(n, now).total == n.total + (now - n.entry)
  {
    var mid, now := AfterCall(s), s[|s| - 1].tsc;
    AfterCallNested(s);
    NestedAt(mid.tree, Some(mid.path), now, now - s[0].tsc, mid.path);
    OpenEntry(mid.tree, mid.path, now, now - s[0].tsc);
  }

  lemma {:induction false} OpenEntry(t: Tree, p: Path, now: int, limit: int)
    requires OnTree(t, p) && p != [] && Nested(t, Some(p), now, limit)
    ensures 0 < At(t, p).entry <= now
    decreases |p|
  {
    assert KidOpen(Some(p), p[0]) == Some(p[1..]);
    assert NestedKid(t.kids[p[0]], KidOpen(Some(p), p[0]), now);
    if |p| > 1 {
      OpenEntry(t.kids[p[0]], p[1..], now, Spent(t.kids[p[0]], true, now));
    }
  }
}
