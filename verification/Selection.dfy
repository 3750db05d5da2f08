/** Which sections take part in decoding (`section_should_use` in `elf.c`). */
module Selection {
  import opened Sections

  predicate SamePath(ss: seq<Section>, i: nat, j: nat)
    requires i < |ss| && j < |ss|
  {
    ss[i].path == ss[j].path
  }

  /** Order of mappings of one path: by address, then by position. */
  predicate Before(ss: seq<Section>, i: nat, j: nat)
    requires i < |ss| && j < |ss|
  {
    ss[i].load < ss[j].load || (ss[i].load == ss[j].load && i < j)
  }

  /** The declarative rule: the first executable of a path, else its least mapping; other kinds always. */
  ghost predicate Used(ss: seq<Section>, idx: nat)
    requires idx < |ss|
  {
    && ss[idx].path != ""
    && (ss[idx].kind.Executable? ==>
          forall i :: 0 <= i < idx && ss[i].kind.Executable? ==> !SamePath(ss, i, idx))
    && (ss[idx].kind.Mmap? ==>
          && (forall i :: 0 <= i < |ss| && ss[i].kind.Executable? ==> !SamePath(ss, i, idx))
          && (forall i :: 0 <= i < |ss| && i != idx && ss[i].kind.Mmap? && SamePath(ss, i, idx) ==> Before(ss, idx, i)))
  }

  /** `section_should_use`. */
  method ShouldUse(ss: seq<Section>, idx: nat) returns (use: bool)
    requires idx < |ss|
    ensures use <==> Used(ss, idx)
  {
    var sec := ss[idx];
    if sec.path == "" {
      return false;
    }
    match sec.kind {
      case Executable =>
        for i := 0 to idx
          invariant forall k :: 0 <= k < i && ss[k].kind.Executable? ==> !SamePath(ss, k, idx)
        {
          if ss[i].kind == Executable && ss[i].path == sec.path {
            assert SamePath(ss, i, idx);
            return false;
          }
        }
        return true;
      case Mmap =>
        for i := 0 to |ss|
          invariant forall k :: 0 <= k < i && ss[k].kind.Executable? ==> !SamePath(ss, k, idx)
        {
          if ss[i].kind == Executable && ss[i].path == sec.path {
            assert SamePath(ss, i, idx);
            return false;
          }
        }
        for i := 0 to |ss|
          invariant forall k :: 0 <= k < i && k != idx && ss[k].kind.Mmap? && SamePath(ss, k, idx) ==> Before(ss, idx, k)
        {
          if i != idx && ss[i].kind == Mmap && ss[i].path == sec.path {
            assert SamePath(ss, i, idx);
            if ss[i].load < sec.load {
              return false;
            }
            if ss[i].load == sec.load && i < idx {
              return false;
            }
          }
        }
        return true;
      case _ =>
        return true;
    }
  }

  // ----- Exactly one section speaks for a path

  ghost predicate IsFirstExec(ss: seq<Section>, path: string, i: nat) {
    i < |ss| && ss[i].kind.Executable? && ss[i].path == path
    && forall j :: 0 <= j < i ==> !(ss[j].kind.Executable? && ss[j].path == path)
  }

  ghost predicate IsLeastMap(ss: seq<Section>, path: string, i: nat) {
    i < |ss| && ss[i].kind.Mmap? && ss[i].path == path
    && forall j :: 0 <= j < |ss| && j != i && ss[j].kind.Mmap? && ss[j].path == path ==> Before(ss, i, j)
  }

  predicate HoldsExec(ss: seq<Section>, path: string) {
    exists i :: 0 <= i < |ss| && ss[i].kind.Executable? && ss[i].path == path
  }

  predicate HoldsMap(ss: seq<Section>, path: string) {
    exists i :: 0 <= i < |ss| && ss[i].kind.Mmap? && ss[i].path == path
  }

  lemma FirstExec(ss: seq<Section>, path: string, n: nat) returns (i: nat)
    requires n < |ss| && ss[n].kind.Executable? && ss[n].path == path
    ensures IsFirstExec(ss, path, i)
    decreases n
  {
    if j: nat :| j < n && ss[j].kind.Executable? && ss[j].path == path {
      i := FirstExec(ss, path, j);
    } else {
      i := n;
    }
  }

  lemma LeastMap(ss: seq<Section>, path: string, n: nat) returns (i: nat)
    requires n < |ss| && ss[n].kind.Mmap? && ss[n].path == path
    ensures IsLeastMap(ss, path, i)
  {
    i := n;
    var j := 0;
    while j < |ss|
      invariant j <= |ss| && i < |ss| && ss[i].kind.Mmap? && ss[i].path == path
      invariant forall k :: 0 <= k < j && k != i && ss[k].kind.Mmap? && ss[k].path == path ==> Before(ss, i, k)
    {
      if j != i && ss[j].kind.Mmap? && ss[j].path == path && Before(ss, j, i) {
        i := j;
      }
      j := j + 1;
    }
  }

  /**
   For every path held by an executable or a mapping, exactly one of those sections is used: the
   first executable if there is one, otherwise the mapping least by (address, position).
   */
  lemma {:induction false} UniqueSelection(ss: seq<Section>, path: string) returns (i: nat)
    requires path != "" && (HoldsExec(ss, path) || HoldsMap(ss, path))
    ensures if HoldsExec(ss, path) then IsFirstExec(ss, path, i) else IsLeastMap(ss, path, i)
    ensures Used(ss, i)
    ensures forall j :: 0 <= j < |ss| && (ss[j].kind.Executable? || ss[j].kind.Mmap?) && ss[j].path == path && Used(ss, j) ==> j == i
  {
    if HoldsExec(ss, path) {
      var n :| 0 <= n < |ss| && ss[n].kind.Executable? && ss[n].path == path;
      i := FirstExec(ss, path, n);
      forall j | 0 <= j < |ss| && (ss[j].kind.Executable? || ss[j].kind.Mmap?) && ss[j].path == path && j != i
        ensures !Used(ss, j)
      {
        assert SamePath(ss, i, j);
      }
    } else {
      var n :| 0 <= n < |ss| && ss[n].kind.Mmap? && ss[n].path == path;
      i := LeastMap(ss, path, n);
      forall j | 0 <= j < |ss| && ss[j].kind.Mmap? && ss[j].path == path && j != i
        ensures !Used(ss, j)
      {
        assert SamePath(ss, i, j) && Before(ss, i, j);
      }
    }
  }

  /** Sections of another kind, the kernel above all, always speak for themselves. */
  lemma {:induction false} OthersUsed(ss: seq<Section>, i: nat)
    requires i < |ss| && ss[i].path != "" && ss[i].kind != Executable && ss[i].kind != Mmap
    ensures Used(ss, i)
  {
  }

  /** Every non-empty path in the list has a section that is used. */
  lemma {:induction false} EveryPathUsed(ss: seq<Section>, n: nat) returns (i: nat)
    requires n < |ss| && ss[n].path != ""
    ensures i < |ss| && ss[i].path == ss[n].path && Used(ss, i)
  {
    if ss[n].kind.Executable? || ss[n].kind.Mmap? {
      i := UniqueSelection(ss, ss[n].path);
    } else {
      OthersUsed(ss, n);
      i := n;
    }
  }
}
