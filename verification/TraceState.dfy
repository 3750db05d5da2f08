/**
 The live image state of `trace.c`: sections and buffer extents accumulated from records, while
 every record is also written to the sidecar.
 */
module TraceState {
  import opened Common
  import opened Sections
  import opened Meta

  /** What a session does to the state and to its sidecar, in any order. */
  datatype Op =
    | Start(pid: i32, tid: i32)
    | Clock(mtc: bv8, cyc: bv8)
    | Seed(maps: seq<Mapping>)
    | Process(rec: Record)
    | EnsureKernel(kbase: Option<u64>)

  /** An executable mapping of an already running process. */
  datatype Mapping = Mapping(path: string, start: u64)

  function Mapped(m: Mapping): Section {
    Section(Truncate(m.path), m.start, 0, Mmap)
  }

  function MappedAll(ms: seq<Mapping>): (ss: seq<Section>)
    ensures |ss| == |ms| && forall i :: 0 <= i < |ms| ==> ss[i] == Mapped(ms[i])
  {
    if ms == [] then [] else MappedAll(ms[..|ms| - 1]) + [Mapped(ms[|ms| - 1])]
  }

  /** `strlcpy` into a path field. */
  function Truncate(path: string): (r: string)
    ensures r <= path && |r| == if |path| < 1024 then |path| else 1023
  {
    if |path| < MAXPATHLEN then path else path[..MAXPATHLEN - 1]
  }

  // ----- Sections

  /** `trace_state_add_section`: empty paths are refused. */
  function Add(ss: seq<Section>, s: Section): seq<Section> {
    if s.path == "" then ss else ss + [s.(path := Truncate(s.path))]
  }

  function AddAll(ss: seq<Section>, more: seq<Section>): seq<Section> {
    if more == [] then ss else Add(AddAll(ss, more[..|more| - 1]), more[|more| - 1])
  }

  function AfterRecord(ss: seq<Section>, r: Record): seq<Section> {
    if HasImage(r.kind) && r.path != ""
    then Add(if r.kind.Executable? then [] else ss, Section(r.path, r.addr, r.base, r.kind))
    else ss
  }

  const KERNEL_PATH := "/boot/kernel/kernel"

  predicate HasKernel(ss: seq<Section>) {
    exists i :: 0 <= i < |ss| && ss[i].kind.Kernel?
  }

  function Live(ss: seq<Section>, op: Op): seq<Section> {
    match op
    case Start(_, _) => ss
    case Clock(_, _) => ss
    case Seed(maps) => AddAll(ss, MappedAll(maps))
    case Process(r) => AfterRecord(ss, r)
    case EnsureKernel(kbase) =>
      if HasKernel(ss) || kbase.None? then ss else Add(ss, Section(KERNEL_PATH, kbase.value, 0, Kernel))
  }

  function Logged(op: Op): seq<string> {
    match op
    case Start(pid, tid) => [HeaderLine(pid, tid)]
    case Clock(mtc, cyc) => TimingLines(mtc, cyc)
    case Seed(maps) => SectionLines(MappedAll(maps))
    case Process(r) => RecordLines(r)
    case EnsureKernel(_) => []
  }

  function LiveAll(ops: seq<Op>): seq<Section> {
    if ops == [] then [] else Live(LiveAll(ops[..|ops| - 1]), ops[|ops| - 1])
  }

  function LoggedAll(ops: seq<Op>): seq<string> {
    if ops == [] then [] else LoggedAll(ops[..|ops| - 1]) + Logged(ops[|ops| - 1])
  }

  // ----- Buffer extents

  datatype Extent = Extent(lastPage: int, maxPage: int, lastOffset: u64, wrapped: bool, overflows: nat)

  const NO_EXTENT := Extent(-1, -1, 0, false, 0)

  function AfterExtent(e: Extent, r: Record): Extent {
    match r.kind
    case Buffer => Extent(r.page, if r.page > e.maxPage then r.page else e.maxPage, r.offset,
                          e.wrapped || (e.maxPage >= 0 && r.page < e.maxPage), e.overflows)
    case Overflow => e.(overflows := e.overflows + 1)
    case _ => e
  }

  function ExtentOf(rs: seq<Record>): Extent {
    if rs == [] then NO_EXTENT else AfterExtent(ExtentOf(rs[..|rs| - 1]), rs[|rs| - 1])
  }

  /** The greatest page so far, if that is not negative. */
  lemma {:induction false} MaxReached(rs: seq<Record>)
    ensures forall i :: 0 <= i < |rs| && rs[i].kind.Buffer? ==> rs[i].page <= ExtentOf(rs).maxPage
    ensures ExtentOf(rs).maxPage >= 0 ==> exists i :: 0 <= i < |rs| && rs[i].kind.Buffer? && rs[i].page == ExtentOf(rs).maxPage
    ensures ExtentOf(rs).maxPage >= -1
  {
    if rs != [] {
      var r, last := rs[..|rs| - 1], |rs| - 1;
      MaxReached(r);
      assert forall i :: 0 <= i < |r| ==> r[i] == rs[i];
      var before, now := ExtentOf(r).maxPage, ExtentOf(rs).maxPage;
      if now == before >= 0 {
        var i :| 0 <= i < |r| && r[i].kind.Buffer? && r[i].page == before;
        assert rs[i].page == now;
      } else if now >= 0 {
        assert rs[last].kind.Buffer? && rs[last].page == now;
      }
    }
  }

  /** The extent remembers the latest buffer record, and nothing before the first. */
  lemma {:induction false} ExtentIsLatest(rs: seq<Record>, k: nat)
    requires k < |rs| && rs[k].kind.Buffer? && forall i :: k < i < |rs| ==> !rs[i].kind.Buffer?
    ensures ExtentOf(rs).lastPage == rs[k].page && ExtentOf(rs).lastOffset == rs[k].offset
  {
    if k < |rs| - 1 {
      ExtentIsLatest(rs[..|rs| - 1], k);
    }
  }

  lemma {:induction false} NoExtentYet(rs: seq<Record>)
    requires forall i :: 0 <= i < |rs| ==> !rs[i].kind.Buffer?
    ensures ExtentOf(rs).lastPage == -1 && ExtentOf(rs).maxPage == -1 && !ExtentOf(rs).wrapped
  {
    if rs != [] {
      NoExtentYet(rs[..|rs| - 1]);
    }
  }

  function OverflowsIn(rs: seq<Record>): nat {
    if rs == [] then 0 else OverflowsIn(rs[..|rs| - 1]) + if rs[|rs| - 1].kind == Overflow then 1 else 0
  }

  /** Every overflow record is counted. */
  lemma {:induction false} OverflowsCounted(rs: seq<Record>)
    ensures ExtentOf(rs).overflows == OverflowsIn(rs)
  {
    if rs != [] {
      OverflowsCounted(rs[..|rs| - 1]);
    }
  }

  /** A buffer record at `j` goes back behind an earlier one at `i`. */
  predicate GoesBack(rs: seq<Record>, i: nat, j: nat)
    requires i < j < |rs|
  {
    rs[i].kind.Buffer? && rs[j].kind.Buffer? && 0 <= rs[i].page && rs[j].page < rs[i].page
  }

  /** The wrap warning fires exactly when some buffer record went back to a lower page than an earlier, non-negative one. */
  lemma {:induction false} WrapDetected(rs: seq<Record>)
    ensures ExtentOf(rs).wrapped <==> exists i, j :: 0 <= i < j < |rs| && GoesBack(rs, i, j)
  {
    if rs != [] {
      var r, last := rs[..|rs| - 1], |rs| - 1;
      WrapDetected(r);
      MaxReached(r);
      assert forall i, j :: 0 <= i < j < last ==> GoesBack(r, i, j) == GoesBack(rs, i, j);
      var max := ExtentOf(r).maxPage;
      if ExtentOf(r).wrapped {
        var i, j :| 0 <= i < j < |r| && GoesBack(r, i, j);
        assert GoesBack(rs, i, j);
      } else if rs[last].kind.Buffer? && rs[last].page < max && max >= 0 {
        var i :| 0 <= i < |r| && r[i].kind.Buffer? && r[i].page == max;
        assert GoesBack(rs, i, last);
      }
    }
  }

  lemma NothingLogged()
    ensures Flatten(SectionLines(MappedAll([]))) == ""
  {
  }

  // ----- The object

  class State {
    var sections: seq<Section>
    var extent: Extent
    const meta: MetaWriter?

    /** `trace_state_init`; the sidecar may have failed to open. */
    constructor (meta: MetaWriter?)
      ensures sections == [] && extent == NO_EXTENT && this.meta == meta
    {
      sections, extent, this.meta := [], NO_EXTENT, meta;
    }

    /** `trace_state_add_section`. */
    method AddSection(path: string, load: u64, base: u64, kind: Kind)
      modifies this`sections
      ensures sections == Add(old(sections), Section(path, load, base, kind))
    {
      if path == "" {
        return;
      }
      sections := sections + [Section(Truncate(path), load, base, kind)];
    }

    /** `trace_state_process`. */
    method ProcessRecord(r: Record)
      modifies this, meta
      ensures sections == AfterRecord(old(sections), r)
      ensures extent == AfterExtent(old(extent), r)
      ensures meta != null ==> meta.file == old(meta.file) + Flatten(RecordLines(r))
    {
      if meta != null {
        meta.Log(r);
      }
      if r.kind == Buffer {
        if extent.maxPage >= 0 && r.page < extent.maxPage {
          extent := extent.(wrapped := true);
        }
        if r.page > extent.maxPage {
          extent := extent.(maxPage := r.page);
        }
        extent := extent.(lastPage := r.page, lastOffset := r.offset);
      }
      if r.kind == Overflow {
        extent := extent.(overflows := extent.overflows + 1);
      }
      if (r.kind == Executable || r.kind == Mmap || r.kind == Kernel) && r.path != "" {
        if r.kind == Executable {
          sections := [];
        }
        AddSection(r.path, r.addr, r.base, r.kind);
      }
    }

    /** `trace_state_seed_process_mmaps`, given the mappings the system reported. */
    method SeedMappings(maps: seq<Mapping>)
      modifies this`sections, meta
      ensures sections == AddAll(old(sections), MappedAll(maps))
      ensures meta != null ==> meta.file == old(meta.file) + Flatten(SectionLines(MappedAll(maps)))
    {
      hide Truncate, SectionLines, Flatten;
      var found := MappedAll(maps);
      if maps == [] {
        NothingLogged();
        return;
      }
      if meta != null {
        meta.LogSections(found);
      }
      for i := 0 to |found|
        invariant sections == AddAll(old(sections), found[..i])
        invariant meta != null ==> meta.file == old(meta.file) + Flatten(SectionLines(found))
      {
        AddSection(found[i].path, found[i].load, found[i].base, found[i].kind);
        assert found[..i + 1][..i] == found[..i];
      }
      assert found[..|found|] == found;
    }

    /** `trace_state_ensure_kernel`, given the kernel base the system reported. */
    method AddKernel(kbase: Option<u64>)
      modifies this`sections
      ensures sections == Live(old(sections), EnsureKernel(kbase))
    {
      for i := 0 to |sections|
        invariant sections == old(sections)
        invariant forall k :: 0 <= k < i ==> !sections[k].kind.Kernel?
      {
        if sections[i].kind == Kernel {
          return;
        }
      }
      if kbase.None? {
        return;
      }
      AddSection(KERNEL_PATH, kbase.value, 0, Kernel);
    }
  }
}
