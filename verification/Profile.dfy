/**
 The flat profile (`profile_record` in `decode.c`) and how its call counts relate to the tree's.
 Both count a function entry after a call, but the profile skips instructions without a symbol
 before remembering the class, so it sees a different "previous" instruction.
 */
module Profile {
  import opened Common
  import opened Instructions
  import opened CallTree
  import opened CallCounts
  import NestedTime

  datatype Entry = Entry(key: Key, calls: nat, rets: nat, branches: nat, cumulative: u64, entry: u64)

  datatype ProfState = ProfState(entries: seq<Entry>, prev: Class)

  function FindEntry(entries: seq<Entry>, key: Key): (i: nat)
    ensures i <= |entries|
    ensures i < |entries| ==> entries[i].key == key
    ensures forall j :: 0 <= j < i ==> entries[j].key != key
  {
    FirstMatch(entries, KeyIs(key))
  }

  function KeyIs(key: Key): Entry -> bool {
    (e: Entry) => e.key == key
  }

  function WithEntry(entries: seq<Entry>, key: Key): (r: seq<Entry>)
    ensures FindEntry(entries, key) < |r|
  {
    if FindEntry(entries, key) < |entries| then entries else entries + [Entry(key, 0, 0, 0, 0, 0)]
  }

  function Counted(e: Entry, prev: Class, i: Insn): Entry
  {
    var e1 := if Enters(prev, i)
              then e.(calls := e.calls + 1, entry := if i.tsc > 0 then i.tsc else e.entry) else e;
    match i.cls
    case Return | FarReturn =>
      if i.tsc > 0 && e1.entry > 0 && i.tsc > e1.entry
      then e1.(rets := e1.rets + 1, cumulative := Wrap(e1.cumulative + (i.tsc - e1.entry)), entry := 0)
      else e1.(rets := e1.rets + 1)
    case Jump | CondJump => e1.(branches := e1.branches + 1)
    case _ => e1
  }

  function ProfStep(st: ProfState, i: Insn): ProfState {
    if i.sym.None? then st
    else
      var k := FindEntry(st.entries, i.sym.value.key);
      var entries := WithEntry(st.entries, i.sym.value.key);
      ProfState(entries[k := Counted(entries[k], st.prev, i)], i.cls)
  }

  function ProfRun(s: seq<Insn>): ProfState {
    if s == [] then ProfState([], OtherClass) else ProfStep(ProfRun(s[..|s| - 1]), s[|s| - 1])
  }

  /** The entry of a function, zero when it has none yet. */
  function EntryOf(st: ProfState, key: Key): Entry {
    var k := FindEntry(st.entries, key);
    if k < |st.entries| then st.entries[k] else Entry(key, 0, 0, 0, 0, 0)
  }

  function CallsOf(st: ProfState, key: Key): nat {
    EntryOf(st, key).calls
  }

  // ----- The object

  class ProfileTable {
    var entries: seq<Entry>
    var prev: Class

    ghost function State(): ProfState
      reads this
    {
      ProfState(entries, prev)
    }

    /** `profile_init`. */
    constructor ()
      ensures State() == ProfRun([])
    {
      entries, prev := [], OtherClass;
    }

    /** `profile_record` without the source-line lookup. */
    method Record(i: Insn)
      modifies this
      ensures State() == ProfStep(old(State()), i)
    {
      if i.sym.None? {
        return;
      }
      var key := i.sym.value.key;
      var k := 0;
      while k < |entries| && entries[k].key != key
        invariant k <= |entries| && State() == old(State())
        invariant forall j :: 0 <= j < k ==> entries[j].key != key
      {
        k := k + 1;
      }
      if k == |entries| {
        entries := entries + [Entry(key, 0, 0, 0, 0, 0)];
      }
      var e := CountEvent(entries[k], prev, i);
      entries := entries[k := e];
      prev := i.cls;
    }
  }

  /** The counters of one entry: a call when just entered, time and a return, or a branch. */
  method CountEvent(entry: Entry, prev: Class, i: Insn) returns (e: Entry)
    requires i.sym.Some?
    ensures e == Counted(entry, prev, i)
  {
    e := entry;
    if i.ip == i.sym.value.addr && (prev == Call || prev == FarCall) {
      e := e.(calls := e.calls + 1);
      if i.tsc > 0 {
        e := e.(entry := i.tsc);
      }
    }
    match i.cls {
      case Return | FarReturn =>
        e := e.(rets := e.rets + 1);
        if i.tsc > 0 && e.entry > 0 && i.tsc > e.entry {
          e := e.(cumulative := Wrap(e.cumulative + (i.tsc - e.entry)), entry := 0);
        }
      case Jump | CondJump =>
        e := e.(branches := e.branches + 1);
      case _ =>
    }
  }

  /** A whole stream through one table. */
  method ProfileStream(s: seq<Insn>) returns (table: ProfileTable)
    ensures table.State() == ProfRun(s)
  {
    hide ProfStep;
    table := new ProfileTable();
    for i := 0 to |s|
      invariant fresh(table) && table.State() == ProfRun(s[..i])
    {
      assert s[..i + 1][..i] == s[..i];
      table.Record(s[i]);
    }
    assert s[..|s|] == s;
  }

  // ----- Agreement with the call tree

  /** The class the profile remembers: that of the last instruction that had a symbol. */
  function LastSymClass(s: seq<Insn>): Class {
    if s == [] then OtherClass
    else if s[|s| - 1].sym.Some? then s[|s| - 1].cls
    else LastSymClass(s[..|s| - 1])
  }

  /** Entries into `key` that only the profile counts: the call before is hidden behind a gap without symbols. */
  function OnlyProfile(s: seq<Insn>, key: Key): nat {
    if s == [] then 0
    else
      var r, i := s[..|s| - 1], s[|s| - 1];
      OnlyProfile(r, key)
      + if AtEntry(i) && i.sym.value.key == key && IsCall(LastSymClass(r)) && !IsCall(LastClass(r)) then 1 else 0
  }

  /** Entries into `key` that only the tree counts: called from code without a symbol. */
  function OnlyTree(s: seq<Insn>, key: Key): nat {
    if s == [] then 0
    else
      var r, i := s[..|s| - 1], s[|s| - 1];
      OnlyTree(r, key)
      + if AtEntry(i) && i.sym.value.key == key && !IsCall(LastSymClass(r)) && IsCall(LastClass(r)) then 1 else 0
  }

  lemma CountedCalls(e: Entry, prev: Class, i: Insn)
    ensures Counted(e, prev, i).key == e.key
    ensures Counted(e, prev, i).calls == e.calls + if Enters(prev, i) then 1 else 0
  {
  }

  /** A step counts the instruction in its own function's entry and leaves every other entry alone. */
  lemma ProfStepEntry(st: ProfState, i: Insn, key: Key)
    ensures EntryOf(ProfStep(st, i), key)
         == if i.sym.Some? && i.sym.value.key == key then Counted(EntryOf(st, key), st.prev, i) else EntryOf(st, key)
  {
    hide Counted;
    if i.sym.Some? {
      var called := i.sym.value.key;
      var k, entries := FindEntry(st.entries, called), WithEntry(st.entries, called);
      FirstMatchAfter(st.entries, [Entry(called, 0, 0, 0, 0, 0)], KeyIs(key));
      CountedCalls(entries[k], st.prev, i);
      FirstMatchUpdate(entries, k, Counted(entries[k], st.prev, i), KeyIs(key));
    }
  }

  lemma {:induction false} ProfPrev(s: seq<Insn>)
    ensures ProfRun(s).prev == LastSymClass(s)
  {
    if s != [] {
      ProfPrev(s[..|s| - 1]);
    }
  }

  /** On every stream, the exact difference between the profile's calls and the tree's counts. */
  lemma {:induction false} ProfileVersusTree(s: seq<Insn>, key: Key)
    ensures CallsOf(ProfRun(s), key) + OnlyTree(s, key) == KeyCount(Run(s).tree, key) + OnlyProfile(s, key)
  {
    if s == [] {
      RootKeyCount(key);
    } else {
      var r, i := s[..|s| - 1], s[|s| - 1];
      ProfileVersusTree(r, key);
      ProfPrev(r);
      ProfStepEntry(ProfRun(r), i, key);
      CountedCalls(EntryOf(ProfRun(r), key), ProfRun(r).prev, i);
      StepKeyCount(Run(r), i, key);
    }
  }

  /** When every instruction has a symbol, the profile and the tree agree on every function. */
  lemma {:induction false} ProfileAgreesWithTree(s: seq<Insn>, key: Key)
    requires forall i :: 0 <= i < |s| ==> s[i].sym.Some?
    ensures CallsOf(ProfRun(s), key) == KeyCount(Run(s).tree, key)
  {
    NoGaps(s, key);
    ProfileVersusTree(s, key);
  }

  lemma {:induction false} NoGaps(s: seq<Insn>, key: Key)
    requires forall i :: 0 <= i < |s| ==> s[i].sym.Some?
    ensures OnlyProfile(s, key) == 0 && OnlyTree(s, key) == 0
  {
    if s != [] {
      NoGaps(s[..|s| - 1], key);
    }
  }

  /** Instructions without a symbol leave no trace in the profile. */
  function Symbolised(s: seq<Insn>): seq<Insn> {
    if s == [] then []
    else Symbolised(s[..|s| - 1]) + if s[|s| - 1].sym.Some? then [s[|s| - 1]] else []
  }

  lemma {:induction false} ProfileSkipsGaps(s: seq<Insn>)
    ensures ProfRun(s) == ProfRun(Symbolised(s))
  {
    if s != [] {
      var r, i := s[..|s| - 1], s[|s| - 1];
      ProfileSkipsGaps(r);
      if i.sym.Some? {
        assert (Symbolised(r) + [i])[..|Symbolised(r)|] == Symbolised(r);
      } else {
        assert Symbolised(r) + [] == Symbolised(r);
      }
    }
  }

  /** One stream on which they differ: a gap without a symbol between a call and the entry it leads to. */
  lemma {:induction false} ProfileCanDiffer(caller: Sym, callee: Sym)
    requires caller.key != callee.key
    ensures var s := [Insn(Some(caller), Wrap(caller.addr + 1), Call, 0), Insn(None, 0, OtherClass, 0),
                      Insn(Some(callee), callee.addr, OtherClass, 0)];
            CallsOf(ProfRun(s), callee.key) == 1 && KeyCount(Run(s).tree, callee.key) == 0
  {
    hide KeyCount, CallsOf, ProfStep, Step;
    var key := callee.key;
    var s := [Insn(Some(caller), Wrap(caller.addr + 1), Call, 0), Insn(None, 0, OtherClass, 0), Insn(Some(callee), callee.addr, OtherClass, 0)];
    assert s[..2] == [s[0], s[1]] && s[..2][..1] == [s[0]] && [s[0]][..0] == [];
    ProfileVersusTree(s, key);
    assert OnlyProfile([s[0]], key) == OnlyTree([s[0]], key) == 0;
    assert OnlyProfile(s[..2], key) == OnlyTree(s[..2], key) == 0;
    assert LastSymClass(s[..2]) == LastSymClass([s[0]]) == Call && LastClass(s[..2]) == OtherClass;
    assert OnlyProfile(s, key) == 1 && OnlyTree(s, key) == 0;
    assert Run([s[0]]) == Step(Init(), s[0]) && Run(s[..2]) == Step(Run([s[0]]), s[1]) && Run(s) == Step(Run(s[..2]), s[2]);
    StepKeyCount(Init(), s[0], key);
    StepKeyCount(Run([s[0]]), s[1], key);
    StepKeyCount(Run(s[..2]), s[2], key);
    assert KeyCount(Init().tree, key) == 0 by {
      RootKeyCount(key);
    }
  }

  lemma RootKeyCount(key: Key)
    ensures KeyCount(Init().tree, key) == 0
  {
  }

  // ----- What the stream itself says of one function

  /** The last instruction is in this function. */
  predicate LastIn(s: seq<Insn>, key: Key)
    requires s != []
  {
    s[|s| - 1].sym.Some? && s[|s| - 1].sym.value.key == key
  }

  /** It is the first one of the function, and the instruction with a symbol before it was a call. */
  predicate EntersLast(s: seq<Insn>, key: Key)
    requires s != []
  {
    var before := LastSymClass(s[..|s| - 1]);
    LastIn(s, key) && s[|s| - 1].ip == s[|s| - 1].sym.value.addr && (before == Call || before == FarCall)
  }

  predicate ReturnsLast(s: seq<Insn>, key: Key)
    requires s != []
  {
    LastIn(s, key) && (s[|s| - 1].cls == Return || s[|s| - 1].cls == FarReturn)
  }

  predicate BranchesLast(s: seq<Insn>, key: Key)
    requires s != []
  {
    LastIn(s, key) && (s[|s| - 1].cls == Jump || s[|s| - 1].cls == CondJump)
  }

  function EntriesInto(s: seq<Insn>, key: Key): nat {
    if s == [] then 0 else EntriesInto(s[..|s| - 1], key) + if EntersLast(s, key) then 1 else 0
  }

  function ReturnsIn(s: seq<Insn>, key: Key): nat {
    if s == [] then 0 else ReturnsIn(s[..|s| - 1], key) + if ReturnsLast(s, key) then 1 else 0
  }

  function BranchesIn(s: seq<Insn>, key: Key): nat {
    if s == [] then 0 else BranchesIn(s[..|s| - 1], key) + if BranchesLast(s, key) then 1 else 0
  }

  /** The time of the latest entry that no later return in the function was charged for; 0 if there is none. */
  function OpenSince(s: seq<Insn>, key: Key): u64
    decreases |s|, 2
  {
    if s == [] then 0 else if ChargeNow(s, key) > 0 then 0 else SinceNow(s, key)
  }

  /** The same as the last instruction finds it. */
  function SinceNow(s: seq<Insn>, key: Key): u64
    requires s != []
    decreases |s|, 0
  {
    if EntersLast(s, key) && s[|s| - 1].tsc > 0 then s[|s| - 1].tsc else OpenSince(s[..|s| - 1], key)
  }

  /** What the last instruction charges the function: a return does, for the time since that entry. */
  function ChargeNow(s: seq<Insn>, key: Key): nat
    requires s != []
    decreases |s|, 1
  {
    if ReturnsLast(s, key) && 0 < SinceNow(s, key) < s[|s| - 1].tsc then s[|s| - 1].tsc - SinceNow(s, key) else 0
  }

  function ChargedTime(s: seq<Insn>, key: Key): nat {
    if s == [] then 0 else ChargedTime(s[..|s| - 1], key) + ChargeNow(s, key)
  }

  // ----- The profile is that history

  lemma NothingYet(key: Key)
    ensures EntryOf(ProfState([], OtherClass), key) == Entry(key, 0, 0, 0, 0, 0)
  {
  }

  lemma CountedIs(e: Entry, s: seq<Insn>, key: Key)
    requires s != [] && LastIn(s, key) && e.entry == OpenSince(s[..|s| - 1], key)
    ensures var r := Counted(e, LastSymClass(s[..|s| - 1]), s[|s| - 1]);
            && r.calls == e.calls + (if EntersLast(s, key) then 1 else 0)
            && r.rets == e.rets + (if ReturnsLast(s, key) then 1 else 0)
            && r.branches == e.branches + (if BranchesLast(s, key) then 1 else 0)
            && r.cumulative == Wrap(e.cumulative + ChargeNow(s, key))
            && r.entry == OpenSince(s, key)
  {
    hide LastSymClass;
  }

  /**
   On every stream the entry of a function holds the entries into it after a call, the returns and
   branches seen in it, and the charged time modulo 2^64, all as the stream itself tells them.
   */
  lemma {:induction false} ProfileIsHistory(s: seq<Insn>, key: Key)
    ensures var e := EntryOf(ProfRun(s), key);
            && e.calls == EntriesInto(s, key) && e.rets == ReturnsIn(s, key) && e.branches == BranchesIn(s, key)
            && e.cumulative == Wrap(ChargedTime(s, key)) && e.entry == OpenSince(s, key)
  {
    hide EntryOf, Counted, ProfStep, LastSymClass;
    if s == [] {
      NothingYet(key);
    } else {
      var r, i := s[..|s| - 1], s[|s| - 1];
      ProfileIsHistory(r, key);
      ProfPrev(r);
      ProfStepEntry(ProfRun(r), i, key);
      WrapTwice(ChargedTime(r, key), ChargeNow(s, key));
      if LastIn(s, key) {
        CountedIs(EntryOf(ProfRun(r), key), s, key);
      }
    }
  }

  /** Time since the open entry, if there is one. */
  function OpenTime(since: int, now: int): int {
    if since > 0 then now - since else 0
  }

  lemma {:induction false} HistoryFits(s: seq<Insn>, key: Key)
    requires s != [] && NestedTime.Timed(s)
    ensures var now, since := s[|s| - 1].tsc, OpenSince(s, key);
            && (since > 0 ==> s[0].tsc <= since <= now)
            && ChargedTime(s, key) + OpenTime(since, now) <= now - s[0].tsc
  {
    hide EntersLast, ReturnsLast;
    if |s| > 1 {
      HistoryFits(s[..|s| - 1], key);
    } else {
      assert s[..0] == [] && OpenSince([], key) == 0 && ChargedTime([], key) == 0;
    }
  }

  /**
   On streams with positive, non-decreasing timestamps a function accumulates exactly its charged time,
   which together with the time since its open entry is at most the length of the trace: it never wraps.
   */
  lemma {:induction false} ProfileTimeExact(s: seq<Insn>, key: Key)
    requires s != [] && NestedTime.Timed(s)
    ensures EntryOf(ProfRun(s), key).cumulative == ChargedTime(s, key)
    ensures ChargedTime(s, key) + OpenTime(OpenSince(s, key), s[|s| - 1].tsc) <= s[|s| - 1].tsc - s[0].tsc
  {
    hide EntryOf, ProfRun, ChargedTime, OpenSince;
    ProfileIsHistory(s, key);
    HistoryFits(s, key);
  }

  /** The function is entered at 20 and returns at 50: 30 are charged. */
  lemma {:induction false} ChargedThirty(main: Key, callee: Sym)
    requires main != callee.key
    ensures var s := [Insn(Some(Sym(1, main)), 2, Call, 10), Insn(Some(callee), callee.addr, OtherClass, 20),
                      Insn(Some(callee), Wrap(callee.addr + 4), Return, 50)];
            EntryOf(ProfRun(s), callee.key).cumulative == 30
  {
    hide ProfRun, EntryOf;
    var s := [Insn(Some(Sym(1, main)), 2, Call, 10), Insn(Some(callee), callee.addr, OtherClass, 20),
              Insn(Some(callee), Wrap(callee.addr + 4), Return, 50)];
    var key := callee.key;
    assert s[..2] == [s[0], s[1]] && s[..2][..1] == [s[0]] && [s[0]][..0] == [];
    assert LastSymClass([s[0]]) == Call && LastSymClass(s[..2]) == OtherClass;
    assert OpenSince([], key) == 0 && ChargedTime([], key) == 0;
    assert OpenSince([s[0]], key) == 0 && ChargedTime([s[0]], key) == 0;
    assert SinceNow(s[..2], key) == 20 && OpenSince(s[..2], key) == 20 && ChargedTime(s[..2], key) == 0;
    assert s[..|s| - 1] == s[..2] && SinceNow(s, key) == 20 && ChargeNow(s, key) == 30 && ChargedTime(s, key) == 30;
    ProfileIsHistory(s, key);
  }
}
