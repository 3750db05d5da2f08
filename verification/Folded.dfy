/**
 Folded stacks (`collapsed_*` in `decode.c`): a table from joined stack text to a count, bumped
 on every return, with its fixed-size name stack, join buffer and table limits.
 */
module Folded {
  import opened Common
  import opened Instructions
  import opened Text

  const MAX_STACK_DEPTH := 256
  const MAX_COLLAPSED_STACKS := 4096
  const JOIN_BUFFER := 8192

  datatype Entry = Entry(stack: string, count: nat)

  datatype FoldState = FoldState(entries: seq<Entry>, names: seq<string>, prev: Class)

  // ----- The join buffer

  /** How many names the join loop reads before it stops: all, unless the buffer fills up first. */
  function Reach(names: seq<string>, k: nat): (r: nat)
    requires 1 <= k <= |names|
    ensures k <= r <= |names|
    ensures r == |names| || |Join(names[..r], ';')| >= JOIN_BUFFER - 1
    ensures forall j :: k <= j < r ==> |Join(names[..j], ';')| < JOIN_BUFFER - 1
    decreases |names| - k
  {
    if k == |names| || |Join(names[..k], ';')| >= JOIN_BUFFER - 1 then k else Reach(names, k + 1)
  }

  function StackText(names: seq<string>): string
    requires names != []
  {
    Join(names[..Reach(names, 1)], ';')
  }

  /** The terminating zero lands inside the buffer. */
  predicate FitsBuffer(names: seq<string>) {
    names == [] || |StackText(names)| < JOIN_BUFFER
  }

  /** The whole stack is represented, not just its outer frames. */
  predicate JoinsWhole(names: seq<string>) {
    |Join(names, ';')| < JOIN_BUFFER
  }

  lemma {:induction false} ReachWhole(names: seq<string>, k: nat)
    requires 1 <= k <= |names| && JoinsWhole(names)
    ensures Reach(names, k) == |names|
    decreases |names| - k
  {
    if k < |names| {
      JoinLonger(names, k, ';');
      ReachWhole(names, k + 1);
    }
  }

  /** A join that fits is complete; a join that is complete fits. */
  lemma {:induction false} WholeText(names: seq<string>)
    requires names != []
    ensures JoinsWhole(names) <==> FitsBuffer(names) && StackText(names) == Join(names, ';')
  {
    if JoinsWhole(names) {
      ReachWhole(names, 1);
      assert names[..|names|] == names;
    }
  }

  /**
   The code stays inside its buffer exactly when the whole stack fits, or the outermost frames that
   are joined before the loop stops fill it to the last byte before the terminator.
   */
  lemma {:induction false} FitsExactly(names: seq<string>)
    ensures FitsBuffer(names)
       <==> |Join(names, ';')| < 8192 || exists k :: 1 <= k <= |names| && |Join(names[..k], ';')| == 8191
  {
    if JoinsWhole(names) {
      if names != [] {
        WholeText(names);
      }
    } else if k :| 1 <= k <= |names| && |Join(names[..k], ';')| == JOIN_BUFFER - 1 {
      var r := Reach(names, 1);
      if r < k {
        assert names[..k][..r] == names[..r];
        JoinLonger(names[..k], r, ';');
      }
    } else {
      assert names[..|names|] == names;
    }
  }

  // ----- The fold

  function FindStack(entries: seq<Entry>, stack: string): (i: nat)
    ensures i <= |entries|
    ensures i < |entries| ==> entries[i].stack == stack
    ensures forall j :: 0 <= j < i ==> entries[j].stack != stack
  {
    FirstMatch(entries, StackIs(stack))
  }

  function StackIs(stack: string): Entry -> bool {
    (e: Entry) => e.stack == stack
  }

  function Bump(entries: seq<Entry>, stack: string): seq<Entry> {
    var i := FindStack(entries, stack);
    if i < |entries| then entries[i := Entry(stack, entries[i].count + 1)]
    else if |entries| >= MAX_COLLAPSED_STACKS then entries
    else entries + [Entry(stack, 1)]
  }

  /** The names after a possible function entry; a push at the depth limit is ignored. */
  function NamesAfterCall(st: FoldState, i: Insn): seq<string> {
    if Enters(st.prev, i) && |st.names| < MAX_STACK_DEPTH
    then st.names + [i.sym.value.key.name.text] else st.names
  }

  function FoldStep(st: FoldState, i: Insn): FoldState {
    var names := NamesAfterCall(st, i);
    if IsReturn(i.cls) && names != []
    then FoldState(Bump(st.entries, StackText(names)), names[..|names| - 1], i.cls)
    else FoldState(st.entries, names, i.cls)
  }

  function FoldRun(s: seq<Insn>): (r: FoldState)
    ensures r.prev == LastClass(s)
  {
    if s == [] then FoldState([], [], OtherClass) else FoldStep(FoldRun(s[..|s| - 1]), s[|s| - 1])
  }

  /** Some return of the stream joins a stack past the end of the buffer. */
  predicate Overruns(s: seq<Insn>) {
    s != [] && (Overruns(s[..|s| - 1]) || StepOverruns(FoldRun(s[..|s| - 1]), s[|s| - 1]))
  }

  predicate StepOverruns(st: FoldState, i: Insn) {
    IsReturn(i.cls) && !FitsBuffer(NamesAfterCall(st, i))
  }

  /** A function with a name of 8192 characters that is called and returns is enough. */
  lemma {:induction false} LongNameOverruns(key: Key)
    requires |key.name.text| == 8192
    ensures Overruns([Insn(None, 0, Call, 0), Insn(Some(Sym(1, key)), 1, Return, 0)])
  {
    var s := [Insn(None, 0, Call, 0), Insn(Some(Sym(1, key)), 1, Return, 0)];
    assert s[..1] == [s[0]] && s[..1][..0] == [];
    assert FoldRun(s[..1]) == FoldState([], [], Call);
    assert NamesAfterCall(FoldRun(s[..1]), s[1]) == [key.name.text];
    assert [key.name.text][..1] == [key.name.text];
  }

  /** The count of one stack, 0 when it is not in the table. */
  function CountOf(entries: seq<Entry>, stack: string): nat {
    var i := FindStack(entries, stack);
    if i < |entries| then entries[i].count else 0
  }

  lemma {:induction false} BumpCount(entries: seq<Entry>, stack: string, other: string)
    ensures CountOf(Bump(entries, stack), other)
         == CountOf(entries, other) + if other == stack && (FindStack(entries, stack) < |entries| || |entries| < 4096) then 1 else 0
  {
    hide FindStack, CountOf;
    var i := FindStack(entries, stack);
    if i < |entries| {
      CountUpdated(entries, i, other);
    } else {
      CountAppended(entries, stack, other);
    }
  }

  lemma CountUpdated(entries: seq<Entry>, i: nat, other: string)
    requires i < |entries| && i == FindStack(entries, entries[i].stack)
    ensures CountOf(entries[i := Entry(entries[i].stack, entries[i].count + 1)], other)
         == CountOf(entries, other) + if other == entries[i].stack then 1 else 0
  {
    hide FindStack;
    FirstMatchUpdate(entries, i, Entry(entries[i].stack, entries[i].count + 1), StackIs(other));
  }

  lemma CountAppended(entries: seq<Entry>, stack: string, other: string)
    requires FindStack(entries, stack) == |entries|
    ensures CountOf(entries + [Entry(stack, 1)], other) == CountOf(entries, other) + if other == stack then 1 else 0
  {
    hide FindStack;
    var last := [Entry(stack, 1)];
    FirstMatchAfter(entries, last, StackIs(other));
    FindStackOne(stack, other);
    assert |entries| < |entries + last| && (entries + last)[|entries|] == Entry(stack, 1);
  }

  lemma FindStackOne(stack: string, other: string)
    ensures FindStack([Entry(stack, 1)], other) == if stack == other then 0 else 1
  {
  }

  ghost predicate DistinctStacks(entries: seq<Entry>) {
    forall i, j :: 0 <= i < j < |entries| ==> entries[i].stack != entries[j].stack
  }

  lemma BumpDistinct(entries: seq<Entry>, stack: string)
    requires DistinctStacks(entries) && |entries| <= MAX_COLLAPSED_STACKS
    ensures DistinctStacks(Bump(entries, stack)) && |Bump(entries, stack)| <= MAX_COLLAPSED_STACKS
  {
  }

  lemma {:induction false} RunDistinct(s: seq<Insn>)
    ensures DistinctStacks(FoldRun(s).entries) && |FoldRun(s).entries| <= 4096 && |FoldRun(s).names| <= 256
  {
    if s != [] {
      hide DistinctStacks, Bump, StackText;
      var st, i := FoldRun(s[..|s| - 1]), s[|s| - 1];
      RunDistinct(s[..|s| - 1]);
      if IsReturn(i.cls) && NamesAfterCall(st, i) != [] {
        BumpDistinct(st.entries, StackText(NamesAfterCall(st, i)));
      }
    }
  }

  // ----- The object

  class Collapsed {
    var entries: seq<Entry>
    var capacity: nat
    const names: array<string>
    var depth: nat
    var prev: Class
    // Not in the original: a write went past the join buffer, and C promises nothing from there on.
    var overrun: bool

    ghost predicate Valid()
      reads this, names
    {
      names.Length == MAX_STACK_DEPTH && depth <= MAX_STACK_DEPTH
      && |entries| <= capacity <= MAX_COLLAPSED_STACKS
    }

    ghost function State(): FoldState
      requires Valid()
      reads this, names
    {
      FoldState(entries, names[..depth], prev)
    }

    /** `collapsed_init`. */
    constructor ()
      ensures Valid() && fresh(names) && State() == FoldRun([]) && !overrun
    {
      entries, capacity, depth, prev, overrun := [], 0, 0, OtherClass, false;
      names := new string[MAX_STACK_DEPTH](_ => "");
    }

    /**
     `collapsed_build_stack` on a non-empty stack: join into a fixed buffer, stop when it is full.
     The terminator goes to `off`, so there is a text exactly when `off` is inside the buffer.
     */
    method BuildStack() returns (stack: Option<string>, off: nat)
      requires Valid() && depth > 0
      ensures off == |StackText(names[..depth])|
      ensures stack == if FitsBuffer(names[..depth]) then Some(StackText(names[..depth])) else None
    {
      ghost var ns := names[..depth];
      var buf := new char[JOIN_BUFFER](_ => '\0');
      off := 0;
      var i: nat := 0;
      while i < depth && off < JOIN_BUFFER - 1
        invariant i <= depth
        invariant i == 0 ==> off == 0
        invariant 0 < i < depth && off < JOIN_BUFFER - 1 ==> Reach(ns, 1) == Reach(ns, i + 1)
        invariant i > 0 && (i == depth || off >= JOIN_BUFFER - 1) ==> Reach(ns, 1) == i
        invariant off == |Join(ns[..i], ';')|
        invariant off < JOIN_BUFFER ==> buf[..off] == Join(ns[..i], ';')
        invariant names[..depth] == ns
      {
        assert ns[..i + 1] == ns[..i] + [ns[i]];
        if i > 0 {
          JoinSnoc(ns[..i], ns[i], ';');
          Append(buf, off, ";");
          off := off + 1;
        }
        assert buf[..off] + names[i] == Join(ns[..i + 1], ';');
        assert off + |names[i]| == |Join(ns[..i + 1], ';')|;
        assert Reach(ns, 1) == Reach(ns, i + 1);
        var n := Snprintf(buf, off, names[i]);
        assert names[i][..|names[i]|] == names[i];
        off := off + n;
        i := i + 1;
      }
      if off >= JOIN_BUFFER {
        return None, off;
      }
      buf[off] := '\0';
      stack := Some(buf[..off]);
    }

    /** `collapsed_count_stack`. */
    method CountStack()
      requires Valid() && !overrun
      modifies this`entries, this`capacity, this`overrun
      ensures Valid()
      ensures overrun == !FitsBuffer(names[..depth])
      ensures !overrun ==> entries == if depth == 0 then old(entries) else Bump(old(entries), StackText(names[..depth]))
    {
      if depth == 0 {
        return;
      }
      var stack, off := BuildStack();
      if stack.None? {
        overrun := true;
        return;
      }
      var i := 0;
      while i < |entries|
        invariant i <= |entries| && entries == old(entries) && capacity == old(capacity) && !overrun
        invariant forall j :: 0 <= j < i ==> entries[j].stack != stack.value
      {
        if entries[i].stack == stack.value {
          entries := entries[i := Entry(stack.value, entries[i].count + 1)];
          return;
        }
        i := i + 1;
      }
      if |entries| >= capacity {
        var newcap := if capacity == 0 then 256 else capacity * 2;
        if newcap > MAX_COLLAPSED_STACKS {
          newcap := MAX_COLLAPSED_STACKS;
        }
        if |entries| >= newcap {
          return;
        }
        capacity := newcap;
      }
      entries := entries + [Entry(stack.value, 1)];
    }

    /** `collapsed_record`. */
    method Record(i: Insn)
      requires Valid()
      modifies this, names
      ensures Valid()
      ensures overrun == (old(overrun) || StepOverruns(old(State()), i))
      ensures !overrun ==> State() == FoldStep(old(State()), i)
    {
      hide Bump, StackText, FitsBuffer;
      if overrun {
        return;
      }
      ghost var st := State();
      if i.sym.Some? && i.ip == i.sym.value.addr && (prev == Call || prev == FarCall) {
        if depth < MAX_STACK_DEPTH {
          names[depth] := i.sym.value.key.name.text;
          depth := depth + 1;
        }
      }
      ghost var ns := NamesAfterCall(st, i);
      assert names[..depth] == ns;
      if i.cls == Return || i.cls == FarReturn {
        CountStack();
        if overrun {
          return;
        }
        if depth > 0 {
          depth := depth - 1;
          assert names[..depth] == ns[..|ns| - 1];
        }
      }
      prev := i.cls;
    }
  }

  /** A whole stream through one table: its fold, unless some stack overran the buffer. */
  method FoldStream(s: seq<Insn>) returns (col: Collapsed)
    ensures col.Valid() && col.overrun == Overruns(s)
    ensures !Overruns(s) ==> col.State() == FoldRun(s)
  {
    hide FoldStep, StepOverruns;
    col := new Collapsed();
    for i := 0 to |s|
      invariant fresh(col) && fresh(col.names) && col.Valid() && col.overrun == Overruns(s[..i])
      invariant !col.overrun ==> col.State() == FoldRun(s[..i])
    {
      assert s[..i + 1][..i] == s[..i];
      col.Record(s[i]);
    }
    assert s[..|s|] == s;
  }
}
