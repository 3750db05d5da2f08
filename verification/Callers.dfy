/**
 The caller/callee view (`ct_collect_edges` in `decode.c`): a walk over the finished call tree
 that fills, per function name, a total, a list of callers and a list of callees.  Here names
 are compared as text, so nodes of the tree with different pointers may be merged.
 */
module Callers {
  import opened Common
  import opened Instructions
  import opened CallTree

  /** What `strcmp` sees of a key. */
  datatype Func = Func(name: string, binary: string)

  function FuncOf(k: Key): Func {
    Func(k.name.text, k.binary.text)
  }

  datatype Edge = Edge(to: Func, count: nat, tsc: u64)

  datatype Summary = Summary(func: Func, total: nat, tsc: u64, callers: seq<Edge>, callees: seq<Edge>)

  type View = seq<Summary>

  function FindFunc(v: View, f: Func): (i: nat)
    ensures i <= |v|
    ensures i < |v| ==> v[i].func == f
    ensures forall j :: 0 <= j < i ==> v[j].func != f
  {
    FirstMatch(v, (s: Summary) => s.func == f)
  }

  function WithFunc(v: View, f: Func): (r: View)
    ensures FindFunc(v, f) < |r|
  {
    if FindFunc(v, f) < |v| then v else v + [Summary(f, 0, 0, [], [])]
  }

  function FindEdge(es: seq<Edge>, to: Func): (i: nat)
    ensures i <= |es|
    ensures i < |es| ==> es[i].to == to
    ensures forall j :: 0 <= j < i ==> es[j].to != to
  {
    FirstMatch(es, (e: Edge) => e.to == to)
  }

  function AddEdge(es: seq<Edge>, to: Func, count: nat, tsc: u64): seq<Edge> {
    var i := FindEdge(es, to);
    if i < |es| then es[i := Edge(to, es[i].count + count, Wrap(es[i].tsc + tsc))]
    else es + [Edge(to, count, tsc)]
  }

  /** The three ways the walk touches the table. */
  datatype Event =
    | Seen(f: Func, count: nat, tsc: u64)
    | CalledBy(f: Func, caller: Func, count: nat, tsc: u64)
    | Calls(f: Func, callee: Func, count: nat, tsc: u64)

  function Touch(s: Summary, e: Event): Summary {
    match e
    case Seen(_, n, t) => s.(total := s.total + n, tsc := Wrap(s.tsc + t))
    case CalledBy(_, g, n, t) => s.(callers := AddEdge(s.callers, g, n, t))
    case Calls(_, g, n, t) => s.(callees := AddEdge(s.callees, g, n, t))
  }

  function Apply(v: View, e: Event): View {
    var i := FindFunc(v, e.f);
    var w := WithFunc(v, e.f);
    w[i := Touch(w[i], e)]
  }

  // ----- The walk

  /** The node's own totals, and the edge to its parent. */
  function OwnView(v: View, parent: Option<Func>, n: Tree): View {
    var seen := Apply(v, Seen(FuncOf(n.key), n.count, n.total));
    if parent.Some? then Apply(seen, CalledBy(FuncOf(n.key), parent.value, n.count, n.total)) else seen
  }

  function WalkView(v: View, parent: Option<Func>, n: Tree): View
    decreases n, |n.kids| + 1
  {
    KidsView(OwnView(v, parent, n), n, |n.kids|)
  }

  /** The first `k` children, each announced as a callee and then walked. */
  function KidsView(v: View, n: Tree, k: nat): View
    requires k <= |n.kids|
    decreases n, k
  {
    if k == 0 then v
    else WalkView(Announced(KidsView(v, n, k - 1), n, n.kids[k - 1]), Some(FuncOf(n.key)), n.kids[k - 1])
  }

  function Announced(v: View, n: Tree, kid: Tree): View {
    Apply(v, Calls(FuncOf(n.key), FuncOf(kid.key), kid.count, kid.total))
  }

  // ----- The object

  class CallersView {
    var funcs: View

    constructor ()
      ensures funcs == []
    {
      funcs := [];
    }

    /** `callers_find_or_add`. */
    method FindOrAdd(f: Func) returns (i: nat)
      modifies this
      ensures funcs == WithFunc(old(funcs), f) && i == FindFunc(old(funcs), f) < |funcs|
    {
      i := 0;
      while i < |funcs|
        invariant i <= |funcs| && funcs == old(funcs)
        invariant forall j :: 0 <= j < i ==> funcs[j].func != f
      {
        if funcs[i].func == f {
          return;
        }
        i := i + 1;
      }
      funcs := funcs + [Summary(f, 0, 0, [], [])];
    }

    /** The first half of `ct_collect_edges`: the node's own totals and the edge to its parent. */
    method CollectOwn(parent: Option<Tree>, n: Tree)
      modifies this
      ensures funcs == OwnView(old(funcs), if parent.Some? then Some(FuncOf(parent.value.key)) else None, n)
    {
      hide FindFunc, FindEdge, AddEdge;
      var f := FindOrAdd(FuncOf(n.key));
      funcs := funcs[f := funcs[f].(total := funcs[f].total + n.count, tsc := Wrap(funcs[f].tsc + n.total))];
      if parent.Some? {
        var callers := AddEdgeTo(funcs[f].callers, FuncOf(parent.value.key), n.count, n.total);
        FoundAgain(old(funcs), FuncOf(n.key), funcs);
        funcs := funcs[f := funcs[f].(callers := callers)];
      }
    }

    /** One child announced as a callee. */
    method Announce(n: Tree, kid: Tree)
      modifies this
      ensures funcs == Announced(old(funcs), n, kid)
    {
      var pf := FindOrAdd(FuncOf(n.key));
      var callees := AddEdgeTo(funcs[pf].callees, FuncOf(kid.key), kid.count, kid.total);
      funcs := funcs[pf := funcs[pf].(callees := callees)];
    }

    /** `ct_collect_edges`. */
    method Collect(parent: Option<Tree>, n: Tree)
      modifies this
      ensures funcs == WalkView(old(funcs), if parent.Some? then Some(FuncOf(parent.value.key)) else None, n)
      decreases n
    {
      hide Announced, OwnView;
      CollectOwn(parent, n);
      ghost var start := funcs;
      var i := 0;
      while i < |n.kids|
        invariant i <= |n.kids|
        invariant funcs == KidsView(start, n, i)
      {
        Announce(n, n.kids[i]);
        Collect(Some(n), n.kids[i]);
        i := i + 1;
      }
    }
  }

  /** `callers_add_edge`. */
  method AddEdgeTo(edges: seq<Edge>, to: Func, count: nat, tsc: u64) returns (r: seq<Edge>)
    ensures r == AddEdge(edges, to, count, tsc)
  {
    var i := 0;
    while i < |edges|
      invariant i <= |edges|
      invariant forall j :: 0 <= j < i ==> edges[j].to != to
    {
      if edges[i].to == to {
        return edges[i := Edge(to, edges[i].count + count, Wrap(edges[i].tsc + tsc))];
      }
      i := i + 1;
    }
    r := edges + [Edge(to, count, tsc)];
  }

  lemma FoundAgain(v: View, f: Func, w: View)
    requires |w| == |WithFunc(v, f)| && forall j :: 0 <= j < |w| ==> w[j].func == WithFunc(v, f)[j].func
    ensures FindFunc(w, f) == FindFunc(v, f) && WithFunc(w, f) == w
  {
  }

  // ----- What the table says

  function SummaryOf(v: View, f: Func): Summary {
    if FindFunc(v, f) < |v| then v[FindFunc(v, f)] else Summary(f, 0, 0, [], [])
  }

  /** Count and time of one edge of a list, zero when it is absent. */
  function EdgeOf(es: seq<Edge>, to: Func): Edge {
    if FindEdge(es, to) < |es| then es[FindEdge(es, to)] else Edge(to, 0, 0)
  }

  function CallerEdge(v: View, f: Func, g: Func): Edge {
    EdgeOf(SummaryOf(v, f).callers, g)
  }

  function CalleeEdge(v: View, g: Func, f: Func): Edge {
    EdgeOf(SummaryOf(v, g).callees, f)
  }

  function EdgeCounts(es: seq<Edge>): int {
    if es == [] then 0 else es[0].count + EdgeCounts(es[1..])
  }

  lemma ApplySummary(v: View, e: Event, f: Func)
    ensures SummaryOf(Apply(v, e), f) == if e.f == f then Touch(SummaryOf(v, f), e) else SummaryOf(v, f)
  {
    var r := Apply(v, e);
    var w := WithFunc(v, e.f);
    assert forall j :: 0 <= j < |w| ==> r[j].func == w[j].func;
    var i, k := FindFunc(v, f), FindFunc(r, f);
    assert k < |v| ==> v[k].func == f;
    assert i < |v| ==> r[i].func == f;
    assert e.f == f ==> r[FindFunc(v, f)].func == f;
  }

  lemma {:induction false} AddEdgeOf(es: seq<Edge>, to: Func, count: nat, tsc: u64, g: Func)
    ensures EdgeOf(AddEdge(es, to, count, tsc), g)
         == if g == to then Edge(g, EdgeOf(es, g).count + count, Wrap(EdgeOf(es, g).tsc + tsc)) else EdgeOf(es, g)
  {
    var r := AddEdge(es, to, count, tsc);
    if es != [] {
      if es[0].to == to {
        assert r[1..] == es[1..];
      } else {
        assert r == [es[0]] + AddEdge(es[1..], to, count, tsc);
        AddEdgeOf(es[1..], to, count, tsc, g);
      }
    }
  }

  lemma {:induction false} AddEdgeCounts(es: seq<Edge>, to: Func, count: nat, tsc: u64)
    ensures EdgeCounts(AddEdge(es, to, count, tsc)) == EdgeCounts(es) + count
  {
    var r := AddEdge(es, to, count, tsc);
    if es != [] {
      if es[0].to == to {
        assert r[1..] == es[1..];
      } else {
        assert r[1..] == AddEdge(es[1..], to, count, tsc);
        AddEdgeCounts(es[1..], to, count, tsc);
      }
    } else {
      assert r[1..] == [];
    }
  }

  // ----- Duality: f is called by g exactly as g calls f

  /** The count, or the time, of the calls from nodes named `g` straight to nodes named `f`. */
  function PairSum(n: Tree, f: Func, g: Func, time: bool): nat
    decreases n, |n.kids| + 1
  {
    KidsPairSum(n, |n.kids|, f, g, time)
  }

  function KidsPairSum(n: Tree, k: nat, f: Func, g: Func, time: bool): nat
    requires k <= |n.kids|
    decreases n, k
  {
    if k == 0 then 0
    else KidsPairSum(n, k - 1, f, g, time) + CallWeight(n, n.kids[k - 1], f, g, time) + PairSum(n.kids[k - 1], f, g, time)
  }

  function CallWeight(n: Tree, kid: Tree, f: Func, g: Func, time: bool): nat {
    if IsFunc(n, g) && IsFunc(kid, f) then (if time then kid.total else kid.count) else 0
  }

  /** The node is of this function: the same name in the same binary. */
  predicate IsFunc(n: Tree, f: Func) {
    n.key.name.text == f.name && n.key.binary.text == f.binary
  }

  /** `e` with this much more count and time. */
  function Plus(e: Edge, count: nat, tsc: nat): Edge {
    Edge(e.to, e.count + count, Wrap(e.tsc + tsc))
  }

  lemma ApplyCallerEdge(v: View, e: Event, f: Func, g: Func)
    ensures CallerEdge(Apply(v, e), f, g)
         == if e.CalledBy? && e.f == f && e.caller == g then Plus(CallerEdge(v, f, g), e.count, e.tsc) else CallerEdge(v, f, g)
  {
    hide Apply, AddEdge, FindFunc;
    ApplySummary(v, e, f);
    if e.CalledBy? && e.f == f {
      AddEdgeOf(SummaryOf(v, f).callers, e.caller, e.count, e.tsc, g);
    }
  }

  lemma ApplyCalleeEdge(v: View, e: Event, f: Func, g: Func)
    ensures CalleeEdge(Apply(v, e), g, f)
         == if e.Calls? && e.f == g && e.callee == f then Plus(CalleeEdge(v, g, f), e.count, e.tsc) else CalleeEdge(v, g, f)
  {
    hide Apply, AddEdge, FindFunc;
    ApplySummary(v, e, g);
    if e.Calls? && e.f == g {
      AddEdgeOf(SummaryOf(v, g).callees, e.callee, e.count, e.tsc, f);
    }
  }

  lemma OwnEdges(v: View, p: Option<Func>, n: Tree, f: Func, g: Func)
    ensures CallerEdge(OwnView(v, p, n), f, g)
         == if p == Some(g) && FuncOf(n.key) == f then Plus(CallerEdge(v, f, g), n.count, n.total) else CallerEdge(v, f, g)
    ensures CalleeEdge(OwnView(v, p, n), g, f) == CalleeEdge(v, g, f)
  {
    var seen := Seen(FuncOf(n.key), n.count, n.total);
    ApplyCallerEdge(v, seen, f, g);
    ApplyCalleeEdge(v, seen, f, g);
    if p.Some? {
      var back := CalledBy(FuncOf(n.key), p.value, n.count, n.total);
      ApplyCallerEdge(Apply(v, seen), back, f, g);
      ApplyCalleeEdge(Apply(v, seen), back, f, g);
    }
  }

  /** One call from `n` to `kid`, added to the edge between f and g if it is theirs. */
  function Carried(e: Edge, n: Tree, kid: Tree, f: Func, g: Func): Edge {
    if FuncOf(n.key) == g && FuncOf(kid.key) == f then Plus(e, kid.count, kid.total) else e
  }

  /** All calls below the first `k` children of `n`, added in the order of the walk. */
  function AllCalled(e: Edge, n: Tree, k: nat, f: Func, g: Func): Edge
    requires k <= |n.kids|
    decreases n, k
  {
    if k == 0 then e
    else AllCalled(Carried(AllCalled(e, n, k - 1, f, g), n, n.kids[k - 1], f, g), n.kids[k - 1], |n.kids[k - 1].kids|, f, g)
  }

  /** The caller side of an edge is written when the callee is visited. */
  lemma KidCallerEdge(v: View, n: Tree, kid: Tree, f: Func, g: Func)
    ensures CallerEdge(OwnView(Announced(v, n, kid), Some(FuncOf(n.key)), kid), f, g) == Carried(CallerEdge(v, f, g), n, kid, f, g)
  {
    ApplyCallerEdge(v, Calls(FuncOf(n.key), FuncOf(kid.key), kid.count, kid.total), f, g);
    OwnEdges(Announced(v, n, kid), Some(FuncOf(n.key)), kid, f, g);
  }

  /** The callee side is written when the callee is announced by its caller. */
  lemma KidCalleeEdge(v: View, n: Tree, kid: Tree, f: Func, g: Func)
    ensures CalleeEdge(OwnView(Announced(v, n, kid), Some(FuncOf(n.key)), kid), g, f) == Carried(CalleeEdge(v, g, f), n, kid, f, g)
  {
    ApplyCalleeEdge(v, Calls(FuncOf(n.key), FuncOf(kid.key), kid.count, kid.total), f, g);
    OwnEdges(Announced(v, n, kid), Some(FuncOf(n.key)), kid, f, g);
  }

  lemma {:induction false} KidsEdges(v: View, n: Tree, k: nat, f: Func, g: Func)
    requires k <= |n.kids|
    ensures CallerEdge(KidsView(v, n, k), f, g) == AllCalled(CallerEdge(v, f, g), n, k, f, g)
    ensures CalleeEdge(KidsView(v, n, k), g, f) == AllCalled(CalleeEdge(v, g, f), n, k, f, g)
    decreases n, k
  {
    hide CallerEdge, CalleeEdge, Carried, Announced, OwnView, KidsView, WalkView, AllCalled;
    if k == 0 {
      NoKids(v, CallerEdge(v, f, g), n, f, g);
      NoKids(v, CalleeEdge(v, g, f), n, f, g);
    } else {
      var kid := n.kids[k - 1];
      var v1 := KidsView(v, n, k - 1);
      var v2 := OwnView(Announced(v1, n, kid), Some(FuncOf(n.key)), kid);
      KidsStep(v, n, k);
      AllCalledStep(CallerEdge(v, f, g), n, k, f, g);
      AllCalledStep(CalleeEdge(v, g, f), n, k, f, g);
      KidsEdges(v, n, k - 1, f, g);
      KidCallerEdge(v1, n, kid, f, g);
      KidCalleeEdge(v1, n, kid, f, g);
      KidsEdges(v2, kid, |kid.kids|, f, g);
    }
  }

  lemma NoKids(v: View, e: Edge, n: Tree, f: Func, g: Func)
    ensures KidsView(v, n, 0) == v && AllCalled(e, n, 0, f, g) == e
  {
  }

  lemma KidsStep(v: View, n: Tree, k: nat)
    requires 0 < k <= |n.kids|
    ensures var kid := n.kids[k - 1];
            KidsView(v, n, k) == KidsView(OwnView(Announced(KidsView(v, n, k - 1), n, kid), Some(FuncOf(n.key)), kid), kid, |kid.kids|)
  {
  }

  lemma AllCalledStep(e: Edge, n: Tree, k: nat, f: Func, g: Func)
    requires 0 < k <= |n.kids|
    ensures var kid := n.kids[k - 1];
            AllCalled(e, n, k, f, g) == AllCalled(Carried(AllCalled(e, n, k - 1, f, g), n, kid, f, g), kid, |kid.kids|, f, g)
  {
  }

  lemma {:induction false} AllCalledSum(e: Edge, n: Tree, k: nat, f: Func, g: Func)
    requires k <= |n.kids|
    ensures AllCalled(e, n, k, f, g) == Plus(e, KidsPairSum(n, k, f, g, false), KidsPairSum(n, k, f, g, true))
    decreases n, k
  {
    hide Plus, Wrap;
    PlusNothing(e);
    if k > 0 {
      var kid := n.kids[k - 1];
      var e1 := AllCalled(e, n, k - 1, f, g);
      AllCalledSum(e, n, k - 1, f, g);
      PlusNothing(e1);
      AllCalledSum(Carried(e1, n, kid, f, g), kid, |kid.kids|, f, g);
      PlusThree(e, KidsPairSum(n, k - 1, f, g, false), KidsPairSum(n, k - 1, f, g, true),
                CallWeight(n, kid, f, g, false), CallWeight(n, kid, f, g, true),
                PairSum(kid, f, g, false), PairSum(kid, f, g, true));
    }
  }

  lemma PlusNothing(e: Edge)
    ensures Plus(e, 0, 0) == e
  {
  }

  lemma PlusThree(e: Edge, c1: nat, t1: nat, c2: nat, t2: nat, c3: nat, t3: nat)
    ensures Plus(Plus(Plus(e, c1, t1), c2, t2), c3, t3) == Plus(e, c1 + c2 + c3, t1 + t2 + t3)
  {
    WrapTwice(e.tsc + t1, t2);
    WrapTwice(e.tsc + t1 + t2, t3);
  }

  /**
   For every tree and every two functions, the edge "f called by g" and the edge "g calls f" carry
   the same count and time: those of the calls from nodes named g straight to nodes named f.
   */
  lemma {:induction false} CallerCalleeDuality(root: Tree, f: Func, g: Func)
    ensures var v := WalkView([], None, root);
            var c, t := PairSum(root, f, g, false), PairSum(root, f, g, true);
            && CallerEdge(v, f, g) == Edge(g, c, Wrap(t))
            && CalleeEdge(v, g, f) == Edge(f, c, Wrap(t))
  {
    OwnEdges([], None, root, f, g);
    KidsEdges(OwnView([], None, root), root, |root.kids|, f, g);
    AllCalledSum(Edge(g, 0, 0), root, |root.kids|, f, g);
    AllCalledSum(Edge(f, 0, 0), root, |root.kids|, f, g);
  }

  // ----- Conservation: callers add up to the total, and the total to the tree

  /** The counts of all nodes with this name, anywhere in the tree. */
  function FuncCount(n: Tree, f: Func): int
    decreases n, |n.kids| + 1
  {
    (if IsFunc(n, f) then n.count else 0) + KidsFuncCount(n, |n.kids|, f)
  }

  /** The same below the first `k` children. */
  function KidsFuncCount(n: Tree, k: nat, f: Func): int
    requires k <= |n.kids|
    decreases n, k
  {
    if k == 0 then 0 else KidsFuncCount(n, k - 1, f) + FuncCount(n.kids[k - 1], f)
  }

  lemma ApplyTotals(v: View, e: Event, f: Func)
    ensures SummaryOf(Apply(v, e), f).total == SummaryOf(v, f).total + if e.Seen? && e.f == f then e.count else 0
    ensures EdgeCounts(SummaryOf(Apply(v, e), f).callers)
         == EdgeCounts(SummaryOf(v, f).callers) + if e.CalledBy? && e.f == f then e.count else 0
  {
    ApplySummary(v, e, f);
    if e.CalledBy? && e.f == f {
      AddEdgeCounts(SummaryOf(v, f).callers, e.caller, e.count, e.tsc);
    }
  }

  lemma OwnTotals(v: View, p: Option<Func>, n: Tree, f: Func)
    ensures var r := SummaryOf(OwnView(v, p, n), f);
            var own := if FuncOf(n.key) == f then n.count else 0;
            && r.total == SummaryOf(v, f).total + own
            && EdgeCounts(r.callers) == EdgeCounts(SummaryOf(v, f).callers) + (if p.Some? then own else 0)
  {
    var seen := Seen(FuncOf(n.key), n.count, n.total);
    ApplyTotals(v, seen, f);
    if p.Some? {
      ApplyTotals(Apply(v, seen), CalledBy(FuncOf(n.key), p.value, n.count, n.total), f);
    }
  }

  lemma {:induction false} KidsTotals(v: View, n: Tree, k: nat, f: Func)
    requires k <= |n.kids|
    ensures var r, s := SummaryOf(KidsView(v, n, k), f), SummaryOf(v, f);
            && r.total == s.total + KidsFuncCount(n, k, f)
            && EdgeCounts(r.callers) == EdgeCounts(s.callers) + KidsFuncCount(n, k, f)
    decreases n, k
  {
    hide SummaryOf, EdgeCounts, Apply, OwnView, KidsView, WalkView;
    if k == 0 {
      NoKids(v, Edge(f, 0, 0), n, f, f);
    } else {
      var kid := n.kids[k - 1];
      var before := KidsView(v, n, k - 1);
      var called := Announced(before, n, kid);
      KidsStep(v, n, k);
      KidsTotals(v, n, k - 1, f);
      ApplyTotals(before, Calls(FuncOf(n.key), FuncOf(kid.key), kid.count, kid.total), f);
      OwnTotals(called, Some(FuncOf(n.key)), kid, f);
      KidsTotals(OwnView(called, Some(FuncOf(n.key)), kid), kid, |kid.kids|, f);
    }
  }

  lemma NothingSeen(f: Func)
    ensures SummaryOf([], f) == Summary(f, 0, 0, [], []) && EdgeCounts([]) == 0
  {
  }

  lemma WalkFromRoot(root: Tree)
    ensures WalkView([], None, root) == KidsView(OwnView([], None, root), root, |root.kids|)
  {
  }

  /**
   For every tree and function, the total is the sum over the nodes with that name, and the
   callers add up to it, except that nobody calls the root.
   */
  lemma {:induction false} CallersAddUp(root: Tree, f: Func)
    ensures var s := SummaryOf(WalkView([], None, root), f);
            && s.total == FuncCount(root, f)
            && EdgeCounts(s.callers) == s.total - (if IsFunc(root, f) then root.count else 0)
  {
    hide OwnView, SummaryOf, EdgeCounts, KidsView;
    NothingSeen(f);
    WalkFromRoot(root);
    OwnTotals([], None, root, f);
    KidsTotals(OwnView([], None, root), root, |root.kids|, f);
  }

  // ----- The same for time, modulo 2^64

  /** The time of all nodes of this function, anywhere in the tree. */
  function FuncTime(n: Tree, f: Func): nat
    decreases n, |n.kids| + 1
  {
    (if IsFunc(n, f) then n.total else 0) + KidsFuncTime(n, |n.kids|, f)
  }

  /** The same below the first `k` children. */
  function KidsFuncTime(n: Tree, k: nat, f: Func): nat
    requires k <= |n.kids|
    decreases n, k
  {
    if k == 0 then 0 else KidsFuncTime(n, k - 1, f) + FuncTime(n.kids[k - 1], f)
  }

  function EdgeTimes(es: seq<Edge>): nat {
    if es == [] then 0 else es[0].tsc + EdgeTimes(es[1..])
  }

  lemma {:induction false} AddEdgeTimes(es: seq<Edge>, to: Func, count: nat, tsc: u64)
    ensures Wrap(EdgeTimes(AddEdge(es, to, count, tsc))) == Wrap(EdgeTimes(es) + tsc)
  {
    var r := AddEdge(es, to, count, tsc);
    if es != [] {
      if es[0].to == to {
        assert r[1..] == es[1..];
        WrapTwice(es[0].tsc + tsc, EdgeTimes(es[1..]));
      } else {
        assert r[1..] == AddEdge(es[1..], to, count, tsc);
        AddEdgeTimes(es[1..], to, count, tsc);
        WrapTwice(EdgeTimes(r[1..]), es[0].tsc);
        WrapTwice(EdgeTimes(es[1..]) + tsc, es[0].tsc);
      }
    } else {
      assert r[1..] == [];
    }
  }

  /** The time a summary shows, and that of its callers. */
  datatype Times = Times(own: u64, callers: u64)

  function TimesOf(v: View, f: Func): Times {
    Times(SummaryOf(v, f).tsc, Wrap(EdgeTimes(SummaryOf(v, f).callers)))
  }

  function MoreTime(t: Times, own: nat, callers: nat): Times {
    Times(Wrap(t.own + own), Wrap(t.callers + callers))
  }

  lemma MoreTimeTwice(t: Times, own: nat, callers: nat, own2: nat, callers2: nat)
    ensures MoreTime(MoreTime(t, own, callers), own2, callers2) == MoreTime(t, own + own2, callers + callers2)
    ensures MoreTime(t, 0, 0) == t
  {
    WrapTwice(t.own + own, own2);
    WrapTwice(t.callers + callers, callers2);
  }

  lemma ApplyTimes(v: View, e: Event, f: Func)
    ensures TimesOf(Apply(v, e), f)
         == MoreTime(TimesOf(v, f), if e.Seen? && e.f == f then e.tsc else 0, if e.CalledBy? && e.f == f then e.tsc else 0)
  {
    hide Apply, SummaryOf, EdgeTimes, AddEdge;
    ApplySummary(v, e, f);
    var before := EdgeTimes(SummaryOf(v, f).callers);
    WrapTwice(before, 0);
    if e.CalledBy? && e.f == f {
      AddEdgeTimes(SummaryOf(v, f).callers, e.caller, e.count, e.tsc);
      WrapTwice(before, e.tsc);
    }
  }

  lemma OwnTimes(v: View, p: Option<Func>, n: Tree, f: Func)
    ensures var own := if IsFunc(n, f) then n.total else 0;
            TimesOf(OwnView(v, p, n), f) == MoreTime(TimesOf(v, f), own, if p.Some? then own else 0)
  {
    hide Apply, TimesOf, MoreTime;
    var seen := Seen(FuncOf(n.key), n.count, n.total);
    var own := if IsFunc(n, f) then n.total else 0;
    ApplyTimes(v, seen, f);
    if p.Some? {
      ApplyTimes(Apply(v, seen), CalledBy(FuncOf(n.key), p.value, n.count, n.total), f);
      MoreTimeTwice(TimesOf(v, f), own, 0, 0, own);
    }
  }

  lemma {:induction false} KidsTimes(v: View, n: Tree, k: nat, f: Func)
    requires k <= |n.kids|
    ensures TimesOf(KidsView(v, n, k), f) == MoreTime(TimesOf(v, f), KidsFuncTime(n, k, f), KidsFuncTime(n, k, f))
    decreases n, k
  {
    hide TimesOf, MoreTime, Apply, OwnView, KidsView, WalkView;
    MoreTimeTwice(TimesOf(v, f), 0, 0, 0, 0);
    if k == 0 {
      NoKids(v, Edge(f, 0, 0), n, f, f);
    } else {
      var kid := n.kids[k - 1];
      var before := KidsView(v, n, k - 1);
      var called := Announced(before, n, kid);
      var own := if IsFunc(kid, f) then kid.total else 0;
      KidsStep(v, n, k);
      KidsTimes(v, n, k - 1, f);
      ApplyTimes(before, Calls(FuncOf(n.key), FuncOf(kid.key), kid.count, kid.total), f);
      MoreTimeTwice(TimesOf(before, f), 0, 0, 0, 0);
      OwnTimes(called, Some(FuncOf(n.key)), kid, f);
      KidsTimes(OwnView(called, Some(FuncOf(n.key)), kid), kid, |kid.kids|, f);
      var so, below := KidsFuncTime(n, k - 1, f), KidsFuncTime(kid, |kid.kids|, f);
      MoreTimeTwice(TimesOf(v, f), so, so, own, own);
      MoreTimeTwice(TimesOf(v, f), so + own, so + own, below, below);
    }
  }

  /**
   For every tree and function, the time shown is the sum over the nodes of that function, and so is
   the time of its callers, the root's own aside, both modulo 2^64.
   */
  lemma {:induction false} TimesAddUp(root: Tree, f: Func)
    ensures var s := SummaryOf(WalkView([], None, root), f);
            && s.tsc == Wrap(FuncTime(root, f))
            && Wrap(EdgeTimes(s.callers)) == Wrap(FuncTime(root, f) - if IsFunc(root, f) then root.total else 0)
  {
    hide OwnView, SummaryOf, EdgeTimes, KidsView;
    NothingTimed(f);
    WalkFromRoot(root);
    OwnTimes([], None, root, f);
    KidsTimes(OwnView([], None, root), root, |root.kids|, f);
    MoreTimeTwice(Times(0, 0), if IsFunc(root, f) then root.total else 0, 0, KidsFuncTime(root, |root.kids|, f), KidsFuncTime(root, |root.kids|, f));
  }

  lemma NothingTimed(f: Func)
    ensures TimesOf([], f) == Times(0, 0)
  {
  }

  /** In a call tree the root itself is neither counted nor charged, so the callers of a function account for every call and all its time. */
  lemma {:induction false} RunCallersAddUp(s: seq<Insn>, f: Func)
    ensures var r := SummaryOf(WalkView([], None, Run(s).tree), f);
            && EdgeCounts(r.callers) == r.total == FuncCount(Run(s).tree, f)
            && Wrap(EdgeTimes(r.callers)) == r.tsc == Wrap(FuncTime(Run(s).tree, f))
  {
    hide WalkView, SummaryOf, Run;
    RootUncounted(s);
    CallersAddUp(Run(s).tree, f);
    TimesAddUp(Run(s).tree, f);
  }

  lemma {:induction false} RootUncounted(s: seq<Insn>)
    ensures Run(s).tree.count == 0 && Run(s).tree.total == 0
  {
    if s != [] {
      RootUncounted(s[..|s| - 1]);
    }
  }
}
