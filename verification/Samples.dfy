/**
 How many samples the folded table holds (`collapsed_record` in `decode.c`): one for every return
 at a positive depth, and so one for every function of a chain that returns, not one for the chain.
 */
module Samples {
  import opened Common
  import opened Instructions
  import opened Text
  import opened Folded
  import CallHistory

  function Counts(entries: seq<Entry>): (r: seq<int>)
    ensures |r| == |entries| && forall i :: 0 <= i < |r| ==> r[i] == entries[i].count
  {
    seq(|entries|, i requires 0 <= i < |entries| => entries[i].count)
  }

  /** The returns at a positive depth. */
  function DeepReturns(s: seq<Insn>): nat {
    if s == [] then 0
    else DeepReturns(s[..|s| - 1]) + if IsDeepReturn(FoldRun(s[..|s| - 1]), s[|s| - 1]) then 1 else 0
  }

  predicate IsDeepReturn(st: FoldState, i: Insn) {
    (i.cls == Return || i.cls == FarReturn) && NamesAfterCall(st, i) != []
  }

  /** Those of them whose stack is new when the table is full. */
  function Dropped(s: seq<Insn>): nat {
    if s == [] then 0
    else
      var st, i := FoldRun(s[..|s| - 1]), s[|s| - 1];
      Dropped(s[..|s| - 1])
      + if IsDeepReturn(st, i) && IsDropped(st.entries, StackText(NamesAfterCall(st, i))) then 1 else 0
  }

  predicate IsDropped(entries: seq<Entry>, stack: string) {
    FindStack(entries, stack) == |entries| >= MAX_COLLAPSED_STACKS
  }

  lemma BumpTotal(entries: seq<Entry>, stack: string)
    ensures Sum(Counts(Bump(entries, stack))) == Sum(Counts(entries)) + if IsDropped(entries, stack) then 0 else 1
  {
    var i := FindStack(entries, stack);
    if i < |entries| {
      SumUpdate(Counts(entries), i, entries[i].count + 1);
      assert Counts(Bump(entries, stack)) == Counts(entries)[i := entries[i].count + 1];
    } else if |entries| < MAX_COLLAPSED_STACKS {
      SumSnoc(Counts(entries), 1);
      assert Counts(Bump(entries, stack)) == Counts(entries) + [1];
    }
  }

  /** On every stream the counts add up to the returns at a positive depth, less what the full table dropped. */
  lemma {:induction false} SamplesAreReturns(s: seq<Insn>)
    ensures Sum(Counts(FoldRun(s).entries)) + Dropped(s) == DeepReturns(s)
  {
    if s == [] {
      assert Counts([]) == [];
    } else {
      hide Bump, IsDropped;
      var st, i := FoldRun(s[..|s| - 1]), s[|s| - 1];
      SamplesAreReturns(s[..|s| - 1]);
      if IsDeepReturn(st, i) {
        BumpTotal(st.entries, StackText(NamesAfterCall(st, i)));
      }
    }
  }

  // ----- The name stack is the stream's own shadow stack, cut off at 256

  /** The instructions that entered the functions on the name stack. */
  function KeptCalls(s: seq<Insn>): (r: seq<Insn>)
    ensures forall i :: 0 <= i < |r| ==> r[i].sym.Some?
    decreases |s|, 1
  {
    if s == [] then []
    else if CallHistory.ReturnsLast(s) && KeptNow(s) != [] then KeptNow(s)[..|KeptNow(s)| - 1] else KeptNow(s)
  }

  function KeptNow(s: seq<Insn>): (r: seq<Insn>)
    requires s != []
    ensures forall i :: 0 <= i < |r| ==> r[i].sym.Some?
    decreases |s|, 0
  {
    var kept := KeptCalls(s[..|s| - 1]);
    kept + if CallHistory.EntersLast(s) && |kept| < 256 then [s[|s| - 1]] else []
  }

  function NamesIn(kept: seq<Insn>): (r: seq<string>)
    requires forall i :: 0 <= i < |kept| ==> kept[i].sym.Some?
    ensures |r| == |kept| && forall i :: 0 <= i < |r| ==> r[i] == kept[i].sym.value.key.name.text
  {
    seq(|kept|, i requires 0 <= i < |kept| => kept[i].sym.value.key.name.text)
  }

  lemma NamesPush(st: FoldState, i: Insn, kept: seq<Insn>, enters: bool)
    requires forall j :: 0 <= j < |kept| ==> kept[j].sym.Some?
    requires st.names == NamesIn(kept) && (enters <==> Enters(st.prev, i))
    ensures NamesAfterCall(st, i) == NamesIn(kept + if enters && |kept| < 256 then [i] else [])
  {
    if !(enters && |kept| < 256) {
      assert kept + [] == kept;
    }
  }

  lemma NamesNow(s: seq<Insn>)
    requires s != [] && FoldRun(s[..|s| - 1]).names == NamesIn(KeptCalls(s[..|s| - 1]))
    ensures NamesAfterCall(FoldRun(s[..|s| - 1]), s[|s| - 1]) == NamesIn(KeptNow(s))
  {
    hide KeptCalls, FoldRun, NamesAfterCall, NamesIn;
    NamesPush(FoldRun(s[..|s| - 1]), s[|s| - 1], KeptCalls(s[..|s| - 1]), CallHistory.EntersLast(s));
  }

  lemma NamesStep(st: FoldState, i: Insn, kept: seq<Insn>)
    requires forall j :: 0 <= j < |kept| ==> kept[j].sym.Some?
    requires NamesAfterCall(st, i) == NamesIn(kept)
    ensures FoldStep(st, i).names
         == NamesIn(if (i.cls == Return || i.cls == FarReturn) && kept != [] then kept[..|kept| - 1] else kept)
  {
    hide NamesAfterCall, Bump, StackText;
  }

  /** On every stream: what returns find on the name stack, and what they leave. */
  lemma {:induction false} NamesAreKept(s: seq<Insn>)
    ensures FoldRun(s).names == NamesIn(KeptCalls(s))
    ensures s != [] ==> NamesAfterCall(FoldRun(s[..|s| - 1]), s[|s| - 1]) == NamesIn(KeptNow(s))
  {
    hide NamesAfterCall, FoldStep, KeptNow;
    if s != [] {
      NamesAreKept(s[..|s| - 1]);
      NamesNow(s);
      NamesStep(FoldRun(s[..|s| - 1]), s[|s| - 1], KeptNow(s));
    } else {
      assert NamesIn([]) == [];
    }
  }

  // ----- A chain of calls that all return

  /** Each function in turn is called and entered. */
  function Descend(chain: seq<Sym>): seq<Insn> {
    if chain == [] then []
    else Descend(chain[..|chain| - 1])
         + [Insn(None, 0, Call, 0), Insn(Some(chain[|chain| - 1]), chain[|chain| - 1].addr, OtherClass, 0)]
  }

  function Unwind(n: nat): seq<Insn> {
    seq(n, _ => Insn(None, 0, Return, 0))
  }

  function NamesOf(chain: seq<Sym>): (r: seq<string>)
    ensures |r| == |chain| && forall i :: 0 <= i < |r| ==> r[i] == chain[i].key.name.text
  {
    seq(|chain|, i requires 0 <= i < |chain| => chain[i].key.name.text)
  }

  lemma RunSnoc(s: seq<Insn>, i: Insn)
    ensures FoldRun(s + [i]) == FoldStep(FoldRun(s), i)
  {
    assert (s + [i])[..|s|] == s;
  }

  lemma DescendStep(st: FoldState, callee: Sym)
    requires |st.names| < MAX_STACK_DEPTH
    ensures FoldStep(FoldStep(st, Insn(None, 0, Call, 0)), Insn(Some(callee), callee.addr, OtherClass, 0))
         == FoldState(st.entries, st.names + [callee.key.name.text], OtherClass)
  {
  }

  lemma NothingRun()
    ensures FoldRun([]) == FoldState([], [], OtherClass)
  {
  }

  lemma {:induction false} DescendRun(chain: seq<Sym>)
    requires |chain| <= MAX_STACK_DEPTH
    ensures FoldRun(Descend(chain)) == FoldState([], NamesOf(chain), OtherClass)
  {
    hide FoldRun, FoldStep;
    if chain != [] {
      var front, last := chain[..|chain| - 1], chain[|chain| - 1];
      var call, entry := Insn(None, 0, Call, 0), Insn(Some(last), last.addr, OtherClass, 0);
      DescendRun(front);
      assert Descend(chain) == Descend(front) + [call] + [entry];
      RunSnoc(Descend(front), call);
      RunSnoc(Descend(front) + [call], entry);
      DescendStep(FoldRun(Descend(front)), last);
      assert NamesOf(chain) == NamesOf(front) + [last.key.name.text];
    } else {
      NothingRun();
      assert NamesOf(chain) == [];
    }
  }

  /** What the table holds after `k` of the returns: one entry each for the `k` longest stacks. */
  ghost predicate OnePerReturn(entries: seq<Entry>, names: seq<string>, k: nat)
    requires k <= |names|
  {
    |entries| == k && forall j :: 0 <= j < k ==> entries[j] == Entry(Join(names[..|names| - j], ';'), 1)
  }

  lemma NothingReturned(names: seq<string>)
    ensures OnePerReturn([], names, 0)
  {
  }

  lemma ReturnAddsOne(entries: seq<Entry>, names: seq<string>, k: nat)
    requires k < |names| <= MAX_STACK_DEPTH && JoinsWhole(names) && OnePerReturn(entries, names, k)
    ensures OnePerReturn(Bump(entries, StackText(names[..|names| - k])), names, k + 1)
  {
    var left := names[..|names| - k];
    JoinLonger(names, |left|, ';');
    WholeText(left);
    forall j | 0 <= j < k
      ensures entries[j].stack != Join(left, ';')
    {
      var longer := names[..|names| - j];
      assert longer[..|left|] == left;
      JoinLonger(longer, |left|, ';');
    }
  }

  lemma ReturnStep(st: FoldState, names: seq<string>, k: nat)
    requires k < |names| <= MAX_STACK_DEPTH && JoinsWhole(names) && OnePerReturn(st.entries, names, k)
    requires st.names == names[..|names| - k] && !IsCall(st.prev)
    ensures var r := FoldStep(st, Insn(None, 0, Return, 0));
            OnePerReturn(r.entries, names, k + 1) && r.names == names[..|names| - (k + 1)] && !IsCall(r.prev)
  {
    hide OnePerReturn, JoinsWhole, Bump, StackText;
    ReturnAddsOne(st.entries, names, k);
  }

  lemma {:induction false} ChainRun(chain: seq<Sym>, k: nat)
    requires k <= |chain| <= MAX_STACK_DEPTH && JoinsWhole(NamesOf(chain))
    ensures var st := FoldRun(Descend(chain) + Unwind(k));
            OnePerReturn(st.entries, NamesOf(chain), k) && st.names == NamesOf(chain)[..|chain| - k] && !IsCall(st.prev)
  {
    hide FoldRun, FoldStep, OnePerReturn, Descend, JoinsWhole;
    var names := NamesOf(chain);
    if k == 0 {
      DescendRun(chain);
      NothingReturned(names);
      assert Descend(chain) + Unwind(0) == Descend(chain);
      assert names[..|chain|] == names;
    } else {
      ChainRun(chain, k - 1);
      var before, ret := Descend(chain) + Unwind(k - 1), Insn(None, 0, Return, 0);
      assert Descend(chain) + Unwind(k) == before + [ret];
      RunSnoc(before, ret);
      ReturnStep(FoldRun(before), names, k - 1);
    }
  }

  /**
   A chain of calls that all return leaves one sample for each of its prefixes, innermost first, so
   it leaves a single one only when the chain is a single function.
   */
  lemma {:induction false} ChainSamples(chain: seq<Sym>)
    requires |chain| <= MAX_STACK_DEPTH && JoinsWhole(NamesOf(chain))
    ensures var entries := FoldRun(Descend(chain) + Unwind(|chain|)).entries;
            && |entries| == |chain|
            && forall j :: 0 <= j < |chain| ==> entries[j] == Entry(Join(NamesOf(chain)[..|chain| - j], ';'), 1)
  {
    hide FoldRun, Descend, Join, JoinsWhole;
    ChainRun(chain, |chain|);
  }

  /** The chain main, foo, bar. */
  lemma {:induction false} MainFooBar(main: Sym, foo: Sym, bar: Sym)
    requires main.key.name.text == "main" && foo.key.name.text == "foo" && bar.key.name.text == "bar"
    ensures FoldRun(Descend([main, foo, bar]) + Unwind(3)).entries
         == [Entry("main;foo;bar", 1), Entry("main;foo", 1), Entry("main", 1)]
  {
    hide FoldRun, Descend;
    var chain := [main, foo, bar];
    var names := NamesOf(chain);
    assert names == ["main", "foo", "bar"];
    assert names[1..] == ["foo", "bar"] && names[1..][1..] == ["bar"];
    assert Join(["foo", "bar"], ';') == "foo" + [';'] + "bar" == "foo;bar";
    assert Join(names, ';') == "main" + [';'] + "foo;bar" == "main;foo;bar";
    assert names[..3] == names && names[..2] == ["main", "foo"] && names[..1] == ["main"];
    assert names[..2][1..] == ["foo"] && Join(names[..2], ';') == "main" + [';'] + "foo" == "main;foo";
    ChainSamples(chain);
  }
}
