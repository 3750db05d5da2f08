/** The folded table and the call tree, two separate folds of one stream, count the same calls. */
module Conservation {
  import opened Instructions
  import opened Text
  import opened CallTree
  import opened CallCounts
  import opened Folded

  /** Names that survive joining with `;`. */
  ghost predicate GoodNames(s: seq<Insn>) {
    forall i :: 0 <= i < |s| && s[i].sym.Some? ==> GoodName(s[i].sym.value.key.name.text)
  }

  predicate GoodName(name: string) {
    name != "" && ';' !in name
  }

  /** No push is ignored, no stack is cut by the join buffer, no new stack is dropped. */
  ghost predicate WithinLimits(s: seq<Insn>) {
    s == [] || (WithinLimits(s[..|s| - 1]) && StepWithinLimits(FoldRun(s[..|s| - 1]), s[|s| - 1]))
  }

  predicate StepWithinLimits(st: FoldState, i: Insn) {
    var names := NamesAfterCall(st, i);
    && (Enters(st.prev, i) ==> |st.names| < MAX_STACK_DEPTH)
    && (IsReturn(i.cls) && names != [] ==>
          && JoinsWhole(names)
          && (FindStack(st.entries, Join(names, ';')) < |st.entries| || |st.entries| < MAX_COLLAPSED_STACKS))
  }

  /** Within the limits the name stack is the tree's shadow stack. */
  lemma {:induction false} SameStack(s: seq<Insn>)
    requires WithinLimits(s)
    ensures FoldRun(s).names == OpenNames(Run(s))
  {
    if s != [] {
      var r, i := s[..|s| - 1], s[|s| - 1];
      SameStack(r);
      var mid := Run(r);
      if Enters(mid.prev, i) {
        PushNames(mid, i.sym.value.key, i.tsc);
        mid := Push(mid, i.sym.value.key, i.tsc);
      }
      if IsReturn(i.cls) && mid.path != [] {
        PopNames(mid, i.tsc);
      }
    }
  }

  lemma SeparableSlice(names: seq<string>, k: nat)
    requires Separable(names, ';') && k <= |names|
    ensures Separable(names[..k], ';')
  {
    assert forall p :: p in names[..k] ==> p in names;
  }

  lemma {:induction false} OpenNamesGood(s: seq<Insn>)
    requires GoodNames(s)
    ensures Separable(OpenNames(Run(s)), ';')
  {
    if s != [] {
      var r, i := s[..|s| - 1], s[|s| - 1];
      OpenNamesGood(r);
      var mid := Run(r);
      if Enters(mid.prev, i) {
        PushNames(mid, i.sym.value.key, i.tsc);
        assert GoodName(s[|s| - 1].sym.value.key.name.text);
        mid := Push(mid, i.sym.value.key, i.tsc);
      }
      if IsReturn(i.cls) && mid.path != [] {
        PopNames(mid, i.tsc);
        SeparableSlice(OpenNames(mid), |OpenNames(mid)| - 1);
      }
    }
  }

  lemma {:induction false} JoinInjective(a: seq<string>, b: seq<string>)
    requires Separable(a, ';') && Separable(b, ';') && Join(a, ';') == Join(b, ';')
    ensures a == b
  {
    TokensJoin(a, ';');
    TokensJoin(b, ';');
  }

  /** 1 when `path` is open, that is, a prefix of the current stack: called but not yet counted. */
  function Pending(path: seq<string>, stack: seq<string>): nat {
    if path <= stack then 1 else 0
  }

  lemma PendingPush(path: seq<string>, stack: seq<string>, name: string)
    ensures Pending(path, stack + [name]) == Pending(path, stack) + (if path == stack + [name] then 1 else 0)
  {
  }

  lemma PendingPop(path: seq<string>, names: seq<string>)
    requires names != []
    ensures Pending(path, names) == Pending(path, names[..|names| - 1]) + (if path == names then 1 else 0)
  {
  }

  lemma SameText(a: seq<string>, b: seq<string>)
    requires Separable(a, ';') && Separable(b, ';')
    ensures Join(a, ';') == Join(b, ';') <==> a == b
  {
    if Join(a, ';') == Join(b, ';') {
      JoinInjective(a, b);
    }
  }

  /** A return moves one call of the whole stack from pending to counted. */
  lemma {:induction false} ReturnConserves(entries: seq<Entry>, names: seq<string>, path: seq<string>)
    requires names != [] && Separable(names, ';') && Separable(path, ';')
    requires FindStack(entries, Join(names, ';')) < |entries| || |entries| < MAX_COLLAPSED_STACKS
    ensures CountOf(Bump(entries, Join(names, ';')), Join(path, ';')) + Pending(path, names[..|names| - 1])
         == CountOf(entries, Join(path, ';')) + Pending(path, names)
  {
    var text, other := Join(names, ';'), Join(path, ';');
    PendingPop(path, names);
    SameText(names, path);
    BumpCount(entries, text, other);
  }

  lemma AfterCallNames(s: seq<Insn>)
    requires s != [] && GoodNames(s) && WithinLimits(s)
    ensures Separable(OpenNames(AfterCall(s)), ';')
    ensures OpenNames(AfterCall(s)) == NamesAfterCall(FoldRun(s[..|s| - 1]), s[|s| - 1])
  {
    var r, i := s[..|s| - 1], s[|s| - 1];
    OpenNamesGood(r);
    SameStack(r);
    if Enters(Run(r).prev, i) {
      PushNames(Run(r), i.sym.value.key, i.tsc);
      assert GoodName(s[|s| - 1].sym.value.key.name.text);
    }
  }

  /** A call adds one pending call and one count to the tree. */
  lemma {:induction false} CallConserves(s: seq<Insn>, path: seq<string>)
    requires s != []
    ensures var before := Run(s[..|s| - 1]);
            NameCount(AfterCall(s).tree, path) - NameCount(before.tree, path)
              == Pending(path, OpenNames(AfterCall(s))) - Pending(path, OpenNames(before))
  {
    var before, i := Run(s[..|s| - 1]), s[|s| - 1];
    if Enters(before.prev, i) {
      var key := i.sym.value.key;
      PushNames(before, key, i.tsc);
      PushNameCount(before, key, i.tsc, path);
      PendingPush(path, OpenNames(before), key.name.text);
    }
  }

  /**
   For every path of names, completed calls in the folded table plus the open call, if any, are
   the calls counted by the tree nodes with that path.
   */
  lemma {:induction false} FoldedMatchesTree(s: seq<Insn>, path: seq<string>)
    requires GoodNames(s) && WithinLimits(s)
    requires path != [] && Separable(path, ';')
    ensures CountOf(FoldRun(s).entries, Join(path, ';')) + Pending(path, OpenNames(Run(s)))
         == NameCount(Run(s).tree, path)
  {
    if s == [] {
      assert NameCount(Init().tree, path) == 0;
    } else {
      var r, i := s[..|s| - 1], s[|s| - 1];
      FoldedMatchesTree(r, path);
      SameStack(r);
      CallConserves(s, path);
      AfterCallNames(s);
      var mid := AfterCall(s);
      if IsReturn(i.cls) {
        PopNameCount(mid, i.tsc, path);
        if mid.path != [] {
          PopNames(mid, i.tsc);
          WholeText(OpenNames(mid));
          ReturnConserves(FoldRun(r).entries, OpenNames(mid), path);
        }
      }
    }
  }

  /** Within its limits the folded table never overruns its buffer. */
  lemma {:induction false} LimitsFit(s: seq<Insn>)
    requires WithinLimits(s)
    ensures !Overruns(s)
  {
    if s != [] {
      LimitsFit(s[..|s| - 1]);
      var names := NamesAfterCall(FoldRun(s[..|s| - 1]), s[|s| - 1]);
      if names != [] {
        WholeText(names);
      }
    }
  }
}
