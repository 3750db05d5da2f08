/**
 The image given to the decoder (`build_pt_image` in `decode.c`, `add_elf_to_image` in `elf.c`)
 and the ranges used to name bare addresses (`build_bin_ranges` in `elf.c`): two separately
 written loops over the same sections.  Files are their program headers and interpreter path.
 */
module Images {
  import opened Common
  import opened Sections
  import opened Selection

  const PAGE_SIZE := 4096
  const MAX_BIN_RANGES := 256

  datatype Phdr = Phdr(load: bool, exec: bool, offset: u64, filesz: u64, vaddr: u64)

  datatype Elf = Elf(phdrs: seq<Phdr>, interp: Option<string>)

  /** The files that can be opened and parsed. */
  type Files = map<string, Elf>

  /** One executable segment at its run-time address. */
  datatype Segment = Segment(path: string, offset: u64, size: u64, vaddr: u64)

  /** A segment together with how the naming ranges present it. */
  datatype Placed = Placed(segment: Segment, name: string, base: u64)

  datatype BinRange = BinRange(name: string, lo: u64, hi: u64, base: u64)

  predicate IsUserAddr(addr: u64) {
    addr != 0 && addr < 0x8000_0000_0000
  }

  function TruncPage(v: u64): (r: u64)
    ensures r <= v < r + 4096 && r % 4096 == 0
  {
    v - v % PAGE_SIZE
  }

  /** A loadable, executable segment with bytes in the file. */
  predicate IsText(p: Phdr) {
    p.load && p.exec && p.filesz != 0
  }

  // ----- Addresses of one file

  /** The first loadable header. */
  predicate FirstLoad(phdrs: seq<Phdr>, h: nat) {
    h < |phdrs| && phdrs[h].load && forall j :: 0 <= j < h ==> !phdrs[j].load
  }

  function BaseVaddr(phdrs: seq<Phdr>): (r: Option<u64>)
    ensures r.None? ==> forall h :: 0 <= h < |phdrs| ==> !phdrs[h].load
    ensures r.Some? ==> exists h :: 0 <= h < |phdrs| && FirstLoad(phdrs, h)
    ensures forall h :: 0 <= h < |phdrs| && FirstLoad(phdrs, h) ==> r == Some(phdrs[h].vaddr)
  {
    var k := FirstMatch(phdrs, (p: Phdr) => p.load);
    assert k < |phdrs| ==> FirstLoad(phdrs, k);
    if k < |phdrs| then Some(phdrs[k].vaddr) else None
  }

  /** `elf_base_vaddr`: the address of the first loadable segment. */
  method FindBaseVaddr(phdrs: seq<Phdr>) returns (r: Option<u64>)
    ensures r == BaseVaddr(phdrs)
    ensures r.None? <==> forall h :: 0 <= h < |phdrs| ==> !phdrs[h].load
    ensures r.Some? ==> exists h :: 0 <= h < |phdrs| && FirstLoad(phdrs, h) && r.value == phdrs[h].vaddr
  {
    for i := 0 to |phdrs|
      invariant forall h :: 0 <= h < i ==> !phdrs[h].load
    {
      if phdrs[i].load {
        assert FirstLoad(phdrs, i);
        return Some(phdrs[i].vaddr);
      }
    }
    return None;
  }

  /** The page of the lowest text segment. */
  ghost predicate IsExecMap(phdrs: seq<Phdr>, r: Option<u64>) {
    && (r.None? ==> forall i :: 0 <= i < |phdrs| ==> !IsText(phdrs[i]))
    && (r.Some? ==>
          && (exists i :: 0 <= i < |phdrs| && IsText(phdrs[i]) && TruncPage(phdrs[i].vaddr) == r.value)
          && (forall i :: 0 <= i < |phdrs| && IsText(phdrs[i]) ==> r.value <= TruncPage(phdrs[i].vaddr)))
  }

  function ExecMap(phdrs: seq<Phdr>): (r: Option<u64>)
    ensures IsExecMap(phdrs, r)
  {
    if phdrs == [] then None
    else
      var k := |phdrs| - 1;
      var best := ExecMap(phdrs[..k]);
      assert forall i :: 0 <= i < k ==> phdrs[..k][i] == phdrs[i];
      if IsText(phdrs[k]) && (best.None? || TruncPage(phdrs[k].vaddr) < best.value)
      then Some(TruncPage(phdrs[k].vaddr)) else best
  }

  /** `elf_exec_map_vaddr`. */
  method FindExecMap(phdrs: seq<Phdr>) returns (r: Option<u64>)
    ensures r == ExecMap(phdrs)
  {
    var best, found := 0, false;
    for i := 0 to |phdrs|
      invariant 0 <= best < TWO64
      invariant ExecMap(phdrs[..i]) == if found then Some(best) else None
    {
      assert phdrs[..i + 1][..i] == phdrs[..i];
      if phdrs[i].load && phdrs[i].exec && phdrs[i].filesz != 0 {
        if !found || TruncPage(phdrs[i].vaddr) < best {
          best := TruncPage(phdrs[i].vaddr);
          found := true;
        }
      }
    }
    assert phdrs[..|phdrs|] == phdrs;
    return if found then Some(best) else None;
  }

  /** `elf_effective_load_addr`. */
  function LoadAddr(elf: Elf, kind: Kind, addr: u64): Option<u64> {
    var base :- BaseVaddr(elf.phdrs);
    match kind
    case Executable => Some(if addr == 0 then base else Wrap(base + addr))
    case Mmap =>
      var exec :- ExecMap(elf.phdrs);
      if addr < exec then None else Some(Wrap(base + (addr - exec)))
    case _ => Some(addr)
  }

  /** How far the file is moved. */
  function Slide(load: u64, base: u64): int {
    load - base
  }

  function Runtime(vaddr: u64, slide: int): u64 {
    Wrap(vaddr + slide)
  }

  /** A mapping record reports where the lowest text page of its file went. */
  lemma {:induction false} MmapSlide(elf: Elf, addr: u64)
    requires LoadAddr(elf, Mmap, addr).Some?
    ensures var slide := Slide(LoadAddr(elf, Mmap, addr).value, BaseVaddr(elf.phdrs).value);
            ExecMap(elf.phdrs).Some? && Runtime(ExecMap(elf.phdrs).value, slide) == addr
  {
    hide BaseVaddr, ExecMap;
    var base, exec := BaseVaddr(elf.phdrs).value, ExecMap(elf.phdrs).value;
    WrapTwice(base + (addr - exec), exec - base);
  }

  /** An executable record is moved by its own address, and not at all when that is zero. */
  lemma {:induction false} ExecSlide(elf: Elf, addr: u64, vaddr: u64)
    requires LoadAddr(elf, Executable, addr).Some?
    ensures var slide := Slide(LoadAddr(elf, Executable, addr).value, BaseVaddr(elf.phdrs).value);
            Runtime(vaddr, slide) == Wrap(vaddr + addr)
  {
    hide BaseVaddr;
    var base := BaseVaddr(elf.phdrs).value;
    WrapTwice(base + addr, vaddr - base);
  }

  /** A file that is loaded at an address has its first loadable segment there: kernels, and interpreters at the base. */
  lemma {:induction false} FirstLoadLands(phdrs: seq<Phdr>, h: nat, load: u64)
    requires FirstLoad(phdrs, h)
    ensures BaseVaddr(phdrs).Some? && Runtime(phdrs[h].vaddr, Slide(load, BaseVaddr(phdrs).value)) == load
  {
  }

  /** Kernel records give that address themselves. */
  lemma {:induction false} KernelLands(elf: Elf, h: nat, addr: u64)
    requires FirstLoad(elf.phdrs, h)
    ensures LoadAddr(elf, Kernel, addr) == Some(addr)
    ensures Runtime(elf.phdrs[h].vaddr, Slide(addr, BaseVaddr(elf.phdrs).value)) == addr
  {
    FirstLoadLands(elf.phdrs, h, addr);
  }

  /** A file is passed over when nothing in it is loadable, or for a mapping that lies below all its text pages. */
  lemma {:induction false} LoadFails(elf: Elf, kind: Kind, addr: u64)
    ensures LoadAddr(elf, kind, addr).None?
       <==> (forall h :: 0 <= h < |elf.phdrs| ==> !elf.phdrs[h].load)
            || (kind.Mmap? && forall h :: 0 <= h < |elf.phdrs| && IsText(elf.phdrs[h]) ==> addr < TruncPage(elf.phdrs[h].vaddr))
  {
    var exec := ExecMap(elf.phdrs);
    assert IsExecMap(elf.phdrs, exec);
    if BaseVaddr(elf.phdrs).Some? {
      var h :| 0 <= h < |elf.phdrs| && FirstLoad(elf.phdrs, h);
      assert elf.phdrs[h].load;
    }
  }

  // ----- The image

  const INTERP_NAME := "ld-elf.so.1"

  /** `strlcpy` of a base name into 64 bytes. */
  function ShortName(path: string): (r: string)
    ensures r <= Basename(path) && |r| == if |Basename(path)| < 64 then |Basename(path)| else 63
  {
    var b := Basename(path);
    if |b| < 64 then b else b[..63]
  }

  /** `basename`: what follows the last slash, slashes at the end aside. */
  function Basename(path: string): string {
    var p := StripSlashes(path);
    if p != "" then AfterSlash(p) else if path == "" then "." else "/"
  }

  function StripSlashes(path: string): (p: string)
    ensures p <= path && (p != "" ==> p[|p| - 1] != '/')
    ensures forall i :: |p| <= i < |path| ==> path[i] == '/'
  {
    if path != "" && path[|path| - 1] == '/' then StripSlashes(path[..|path| - 1]) else path
  }

  function AfterSlash(p: string): (r: string)
    ensures |r| <= |p| && r == p[|p| - |r|..] && '/' !in r
    ensures |r| < |p| ==> p[|p| - |r| - 1] == '/'
  {
    if p == "" || p[|p| - 1] == '/' then "" else AfterSlash(p[..|p| - 1]) + [p[|p| - 1]]
  }

  /** What lies between a slash, or the start, and only slashes. */
  predicate IsLastComponent(path: string, name: string, from: nat) {
    && from + |name| <= |path| && path[from..from + |name|] == name && name != "" && '/' !in name
    && (from > 0 ==> path[from - 1] == '/')
    && forall j :: from + |name| <= j < |path| ==> path[j] == '/'
  }

  lemma LastOfStripped(p: string)
    requires p != "" && p[|p| - 1] != '/'
    ensures AfterSlash(p) != "" && IsLastComponent(p, AfterSlash(p), |p| - |AfterSlash(p)|)
  {
    hide AfterSlash;
    var name := AfterSlash(p);
    assert p[|p| - |name|..|p|] == p[|p| - |name|..] == name;
  }

  lemma SlashesBehind(path: string, p: string, name: string, from: nat)
    requires p <= path && IsLastComponent(p, name, from) && forall j :: |p| <= j < |path| ==> path[j] == '/'
    ensures IsLastComponent(path, name, from)
  {
    assert path[..|p|] == p;
    assert path[from..from + |name|] == p[from..from + |name|];
    assert forall j :: 0 <= j < |p| ==> path[j] == p[j];
  }

  /** The base name of a path that is not all slashes is its last component. */
  lemma {:induction false} BasenameIsLast(path: string, i: nat) returns (from: nat)
    requires i < |path| && path[i] != '/'
    ensures IsLastComponent(path, Basename(path), from)
  {
    hide StripSlashes, AfterSlash, IsLastComponent;
    var p := StripSlashes(path);
    assert i < |p|;
    LastOfStripped(p);
    from := |p| - |AfterSlash(p)|;
    SlashesBehind(path, p, AfterSlash(p), from);
  }

  /** The text segments of the first `k` headers, moved. */
  function Moved(path: string, name: string, base: u64, phdrs: seq<Phdr>, slide: int, k: nat): seq<Placed>
    requires k <= |phdrs|
  {
    if k == 0 then []
    else
      var p := phdrs[k - 1];
      Moved(path, name, base, phdrs, slide, k - 1)
      + if IsText(p) then [Placed(Segment(path, p.offset, p.filesz, Runtime(p.vaddr, slide)), name, base)] else []
  }

  /** A whole file loaded at `load`. */
  function FileSegments(files: Files, path: string, name: string, load: u64): seq<Placed> {
    if path !in files || BaseVaddr(files[path].phdrs).None? then []
    else Moved(path, name, load, files[path].phdrs, Slide(load, BaseVaddr(files[path].phdrs).value), |files[path].phdrs|)
  }

  /** A file at `load` is exactly its text segments, each as far from `load` as it is from the first loadable one in the file. */
  lemma {:induction false} FilePlaced(files: Files, path: string, name: string, load: u64, b: nat, p: Placed)
    requires path in files && FirstLoad(files[path].phdrs, b)
    ensures p in FileSegments(files, path, name, load)
       <==> exists h :: 0 <= h < |files[path].phdrs| && PlacedAs(files[path].phdrs[h], path, name, load, files[path].phdrs[b].vaddr, p)
  {
    hide PlacedAs;
    MovedExactly(path, name, load, files[path].phdrs, files[path].phdrs[b].vaddr, |files[path].phdrs|, p);
  }

  /** The placed segment of one header. */
  predicate PlacedAs(h: Phdr, path: string, name: string, load: u64, first: u64, p: Placed) {
    h.load && h.exec && h.filesz != 0
    && p == Placed(Segment(path, h.offset, h.filesz, Wrap(load + (h.vaddr - first))), name, load)
  }

  lemma {:induction false} MovedExactly(path: string, name: string, load: u64, phdrs: seq<Phdr>, first: u64, k: nat, p: Placed)
    requires k <= |phdrs|
    ensures p in Moved(path, name, load, phdrs, Slide(load, first), k)
       <==> exists h :: 0 <= h < k && PlacedAs(phdrs[h], path, name, load, first, p)
  {
    if k > 0 {
      MovedExactly(path, name, load, phdrs, first, k - 1, p);
      assert phdrs[k - 1].vaddr + Slide(load, first) == load + (phdrs[k - 1].vaddr - first);
      if p in Moved(path, name, load, phdrs, Slide(load, first), k) && p !in Moved(path, name, load, phdrs, Slide(load, first), k - 1) {
        assert PlacedAs(phdrs[k - 1], path, name, load, first, p);
      }
    }
  }

  /** The answer of the decoder library to each segment it is offered. */
  type Decoder = Segment -> bool

  /** What the decoder has of each, once it has refused some. */
  function Segments(ps: seq<Placed>, accepts: Decoder): (r: seq<Segment>)
    ensures |r| <= |ps| && forall s :: s in r ==> accepts(s)
  {
    if ps == [] then []
    else Segments(ps[..|ps| - 1], accepts) + if accepts(ps[|ps| - 1].segment) then [ps[|ps| - 1].segment] else []
  }

  lemma {:induction false} AllSegments(ps: seq<Placed>, accepts: Decoder)
    requires forall p :: p in ps ==> accepts(p.segment)
    ensures |Segments(ps, accepts)| == |ps| && forall i :: 0 <= i < |ps| ==> Segments(ps, accepts)[i] == ps[i].segment
  {
    if ps != [] {
      AllSegments(ps[..|ps| - 1], accepts);
    }
  }

  /** The symbols of one file, moved. */
  datatype Load = Load(path: string, slide: int)

  function FileLoads(files: Files, path: string, load: u64): seq<Load> {
    if path !in files || BaseVaddr(files[path].phdrs).None? then []
    else [Load(path, Slide(load, BaseVaddr(files[path].phdrs).value))]
  }

  /** The interpreter of an executable, when it must be added for want of its own mapping. */
  function ImpliedInterp(files: Files, ss: seq<Section>, s: Section, load: u64): Option<string>
    requires s.path in files
  {
    if s.kind.Executable? && IsUserAddr(s.base) && s.base != load
       && files[s.path].interp.Some? && !HoldsMap(ss, files[s.path].interp.value)
    then files[s.path].interp else None
  }

  /** What one used section contributes. */
  function Contribution(files: Files, ss: seq<Section>, s: Section): seq<Placed> {
    if s.path !in files then []
    else
      match LoadAddr(files[s.path], s.kind, s.load)
      case None => []
      case Some(load) =>
        FileSegments(files, s.path, ShortName(s.path), load)
        + match ImpliedInterp(files, ss, s, load)
          case None => []
          case Some(interp) => FileSegments(files, interp, INTERP_NAME, s.base)
  }

  /**
   A used section contributes its own file and, for an EXEC with a user-space base other than its load
   address, the interpreter at that base, unless some mapping brings it.
   */
  lemma {:induction false} Contributes(files: Files, ss: seq<Section>, s: Section, load: u64, p: Placed)
    requires s.path in files && LoadAddr(files[s.path], s.kind, s.load) == Some(load)
    ensures p in Contribution(files, ss, s)
       <==> || p in FileSegments(files, s.path, ShortName(s.path), load)
            || (s.kind == Executable && 0 < s.base < 0x8000_0000_0000 && s.base != load && files[s.path].interp.Some?
                && (forall k :: 0 <= k < |ss| ==> !(ss[k].kind == Mmap && ss[k].path == files[s.path].interp.value))
                && p in FileSegments(files, files[s.path].interp.value, "ld-elf.so.1", s.base))
  {
    hide FileSegments;
  }

  /** The symbols loaded along with it. */
  function SectionLoads(files: Files, ss: seq<Section>, s: Section): seq<Load> {
    if s.path !in files then []
    else
      match LoadAddr(files[s.path], s.kind, s.load)
      case None => []
      case Some(load) =>
        FileLoads(files, s.path, load)
        + match ImpliedInterp(files, ss, s, load)
          case None => []
          case Some(interp) => FileLoads(files, interp, s.base)
  }

  ghost function ImageLoads(files: Files, ss: seq<Section>, k: nat): seq<Load>
    requires k <= |ss|
  {
    if k == 0 then []
    else ImageLoads(files, ss, k - 1) + if Used(ss, k - 1) then SectionLoads(files, ss, ss[k - 1]) else []
  }

  ghost function Image(files: Files, ss: seq<Section>, k: nat): seq<Placed>
    requires k <= |ss|
  {
    if k == 0 then []
    else Image(files, ss, k - 1) + if Used(ss, k - 1) then Contribution(files, ss, ss[k - 1]) else []
  }

  /** `add_elf_to_image`; a segment that the decoder refuses is skipped. */
  method AddElf(image: seq<Segment>, ghost ps: seq<Placed>, files: Files, path: string, ghost name: string, load: u64, accepts: Decoder)
    returns (image': seq<Segment>)
    requires image == Segments(ps, accepts)
    ensures image' == Segments(ps + FileSegments(files, path, name, load), accepts)
  {
    hide Segments;
    image' := image;
    if path !in files {
      assert ps + [] == ps;
      return;
    }
    var phdrs := files[path].phdrs;
    var base := FindBaseVaddr(phdrs);
    if base.None? {
      assert ps + [] == ps;
      return;
    }
    var slide := Slide(load, base.value);
    for i := 0 to |phdrs|
      invariant image' == Segments(ps + Moved(path, name, load, phdrs, slide, i), accepts)
    {
      SegmentsStep(ps, path, name, load, phdrs, slide, i, accepts);
      if phdrs[i].load && phdrs[i].exec && phdrs[i].filesz != 0 {
        var segment := Segment(path, phdrs[i].offset, phdrs[i].filesz, Wrap(phdrs[i].vaddr + slide));
        if accepts(segment) {
          image' := image' + [segment];
        }
      }
    }
  }

  lemma SegmentsStep(ps: seq<Placed>, path: string, name: string, base: u64, phdrs: seq<Phdr>, slide: int, i: nat, accepts: Decoder)
    requires i < |phdrs|
    ensures var segment := Segment(path, phdrs[i].offset, phdrs[i].filesz, Runtime(phdrs[i].vaddr, slide));
            Segments(ps + Moved(path, name, base, phdrs, slide, i + 1), accepts)
              == Segments(ps + Moved(path, name, base, phdrs, slide, i), accepts)
                 + if IsText(phdrs[i]) && accepts(segment) then [segment] else []
  {
    var before := ps + Moved(path, name, base, phdrs, slide, i);
    var after := ps + Moved(path, name, base, phdrs, slide, i + 1);
    if IsText(phdrs[i]) {
      assert after[..|after| - 1] == before;
    } else {
      assert after == before;
    }
  }

  /** The symbols of a file, with the slide of its segments. */
  method AddSymbols(loads: seq<Load>, files: Files, path: string, load: u64) returns (loads': seq<Load>)
    ensures loads' == loads + FileLoads(files, path, load)
  {
    loads' := loads;
    if path in files {
      var base := FindBaseVaddr(files[path].phdrs);
      if base.Some? {
        loads' := loads + [Load(path, Slide(load, base.value))];
      }
    }
  }

  method FindMap(ss: seq<Section>, path: string) returns (have: bool)
    ensures have == HoldsMap(ss, path)
  {
    for k := 0 to |ss|
      invariant forall j :: 0 <= j < k ==> !(ss[j].kind.Mmap? && ss[j].path == path)
    {
      if ss[k].kind == Mmap && ss[k].path == path {
        return true;
      }
    }
    return false;
  }

  /** `elf_effective_load_addr`, by its two searches. */
  method FindLoadAddr(elf: Elf, kind: Kind, addr: u64) returns (r: Option<u64>)
    ensures r == LoadAddr(elf, kind, addr)
  {
    hide BaseVaddr, ExecMap;
    var base := FindBaseVaddr(elf.phdrs);
    if base.None? {
      return None;
    }
    match kind {
      case Executable =>
        return Some(if addr == 0 then base.value else Wrap(base.value + addr));
      case Mmap =>
        var exec := FindExecMap(elf.phdrs);
        if exec.None? || addr < exec.value {
          return None;
        }
        return Some(Wrap(base.value + (addr - exec.value)));
      case _ =>
        return Some(addr);
    }
  }

  /** The body of `build_pt_image` for one used section. */
  method AddSection(segs: seq<Segment>, loads: seq<Load>, ghost ps: seq<Placed>, files: Files, ss: seq<Section>, i: nat, accepts: Decoder)
    returns (segs': seq<Segment>, loads': seq<Load>)
    requires i < |ss| && ss[i].path in files && segs == Segments(ps, accepts)
    ensures segs' == Segments(ps + Contribution(files, ss, ss[i]), accepts)
    ensures loads' == loads + SectionLoads(files, ss, ss[i])
  {
    hide Segments, FileSegments, FileLoads;
    segs', loads' := segs, loads;
    var elf := files[ss[i].path];
    var load := FindLoadAddr(elf, ss[i].kind, ss[i].load);
    if load.None? {
      assert ps + [] == ps;
      return;
    }
    ghost var own := FileSegments(files, ss[i].path, ShortName(ss[i].path), load.value);
    segs' := AddElf(segs, ps, files, ss[i].path, ShortName(ss[i].path), load.value, accepts);
    loads' := AddSymbols(loads, files, ss[i].path, load.value);
    assert ps + (own + []) == ps + own;
    if ss[i].kind == Executable && IsUserAddr(ss[i].base) && ss[i].base != load.value {
      if elf.interp.Some? {
        var have := FindMap(ss, elf.interp.value);
        if !have {
          ghost var below := FileSegments(files, elf.interp.value, INTERP_NAME, ss[i].base);
          assert ps + (own + below) == ps + own + below;
          segs' := AddElf(segs', ps + own, files, elf.interp.value, INTERP_NAME, ss[i].base, accepts);
          loads' := AddSymbols(loads', files, elf.interp.value, ss[i].base);
        }
      }
    }
  }

  lemma NoContribution(files: Files, ss: seq<Section>, i: nat)
    requires i < |ss| && (!Used(ss, i) || ss[i].path !in files)
    ensures Image(files, ss, i + 1) == Image(files, ss, i) && ImageLoads(files, ss, i + 1) == ImageLoads(files, ss, i)
  {
  }

  /** The section loop of `build_pt_image`; an image without segments is not returned. */
  method BuildImage(files: Files, ss: seq<Section>, accepts: Decoder) returns (image: Option<seq<Segment>>, loads: seq<Load>)
    ensures var all := Segments(Image(files, ss, |ss|), accepts);
            image == if all == [] then None else Some(all)
    ensures loads == ImageLoads(files, ss, |ss|)
  {
    hide Contribution, SectionLoads, Used, Segments;
    var segs: seq<Segment> := [];
    loads := [];
    for i := 0 to |ss|
      invariant segs == Segments(Image(files, ss, i), accepts) && loads == ImageLoads(files, ss, i)
    {
      ghost var ps := Image(files, ss, i);
      var use := ShouldUse(ss, i);
      if use && ss[i].path in files {
        segs, loads := AddSection(segs, loads, ps, files, ss, i, accepts);
        assert Image(files, ss, i + 1) == ps + Contribution(files, ss, ss[i]);
        assert ImageLoads(files, ss, i + 1) == ImageLoads(files, ss, i) + SectionLoads(files, ss, ss[i]);
      } else {
        NoContribution(files, ss, i);
      }
    }
    image := if segs == [] then None else Some(segs);
  }

  // ----- Code and symbols move together

  /** Some file whose symbols were loaded explains the place of the segment: its own header, moved by the same slide. */
  predicate Follows(files: Files, l: Load, p: Placed) {
    && l.path == p.segment.path && l.path in files
    && exists h :: 0 <= h < |files[l.path].phdrs| && IsText(files[l.path].phdrs[h])
                && p.segment.vaddr == Runtime(files[l.path].phdrs[h].vaddr, l.slide)
  }

  ghost predicate AllFollow(files: Files, ls: seq<Load>, ps: seq<Placed>) {
    forall p :: p in ps ==> exists l :: l in ls && Follows(files, l, p)
  }

  lemma {:induction false} MovedFollow(files: Files, path: string, name: string, base: u64, slide: int, k: nat)
    requires path in files && k <= |files[path].phdrs|
    ensures forall p :: p in Moved(path, name, base, files[path].phdrs, slide, k) ==> Follows(files, Load(path, slide), p)
  {
    if k > 0 {
      MovedFollow(files, path, name, base, slide, k - 1);
      var h := files[path].phdrs[k - 1];
      if IsText(h) {
        assert Follows(files, Load(path, slide), Placed(Segment(path, h.offset, h.filesz, Runtime(h.vaddr, slide)), name, base));
      }
    }
  }

  lemma FileFollows(files: Files, path: string, name: string, load: u64)
    ensures AllFollow(files, FileLoads(files, path, load), FileSegments(files, path, name, load))
  {
    hide Follows, Moved;
    if path in files && BaseVaddr(files[path].phdrs).Some? {
      var slide := Slide(load, BaseVaddr(files[path].phdrs).value);
      MovedFollow(files, path, name, load, slide, |files[path].phdrs|);
      assert Load(path, slide) in FileLoads(files, path, load);
    }
  }

  lemma FollowTogether(files: Files, ls: seq<Load>, ps: seq<Placed>, ls': seq<Load>, ps': seq<Placed>)
    requires AllFollow(files, ls, ps) && AllFollow(files, ls', ps')
    ensures AllFollow(files, ls + ls', ps + ps')
  {
    hide Follows;
    forall p | p in ps + ps'
      ensures exists l :: l in ls + ls' && Follows(files, l, p)
    {
      if p in ps {
        var l :| l in ls && Follows(files, l, p);
        assert l in ls + ls';
      } else {
        var l :| l in ls' && Follows(files, l, p);
        assert l in ls + ls';
      }
    }
  }

  lemma SectionFollows(files: Files, ss: seq<Section>, s: Section)
    ensures AllFollow(files, SectionLoads(files, ss, s), Contribution(files, ss, s))
  {
    hide AllFollow, FileLoads, FileSegments;
    FollowNothing(files);
    if s.path in files && LoadAddr(files[s.path], s.kind, s.load).Some? {
      var load := LoadAddr(files[s.path], s.kind, s.load).value;
      var ls, ps := FileLoads(files, s.path, load), FileSegments(files, s.path, ShortName(s.path), load);
      FileFollows(files, s.path, ShortName(s.path), load);
      match ImpliedInterp(files, ss, s, load)
      case None =>
        FollowTogether(files, ls, ps, [], []);
      case Some(interp) =>
        FileFollows(files, interp, INTERP_NAME, s.base);
        FollowTogether(files, ls, ps, FileLoads(files, interp, s.base), FileSegments(files, interp, INTERP_NAME, s.base));
    }
  }

  lemma FollowNothing(files: Files)
    ensures AllFollow(files, [], [])
  {
  }

  /** Every segment of the image was moved by the slide with which the symbols of its own file were loaded. */
  lemma {:induction false} SymbolsFollowCode(files: Files, ss: seq<Section>, k: nat)
    requires k <= |ss|
    ensures AllFollow(files, ImageLoads(files, ss, k), Image(files, ss, k))
  {
    hide AllFollow, SectionLoads, Contribution;
    FollowNothing(files);
    if k > 0 {
      SymbolsFollowCode(files, ss, k - 1);
      SectionFollows(files, ss, ss[k - 1]);
      if Used(ss, k - 1) {
        FollowTogether(files, ImageLoads(files, ss, k - 1), Image(files, ss, k - 1),
                       SectionLoads(files, ss, ss[k - 1]), Contribution(files, ss, ss[k - 1]));
      } else {
        assert ImageLoads(files, ss, k - 1) + [] == ImageLoads(files, ss, k - 1);
        assert Image(files, ss, k - 1) + [] == Image(files, ss, k - 1);
      }
    }
  }

  // ----- The ranges

  /** The run-time interval of a segment, under its file's name. */
  predicate Covers(r: BinRange, p: Placed) {
    r == BinRange(p.name, p.segment.vaddr, Wrap(p.segment.vaddr + p.segment.size), p.base)
  }

  /** The ranges are the segments, in order, as many as fit. */
  ghost predicate Matches(ranges: seq<BinRange>, segs: seq<Placed>, max: nat) {
    |ranges| == (if |segs| < max then |segs| else max) && forall i :: 0 <= i < |ranges| ==> Covers(ranges[i], segs[i])
  }

  /** The inner loop of `build_bin_ranges`, written there twice: once for the file, once for its interpreter. */
  method AddRanges(ranges: seq<BinRange>, ghost segs: seq<Placed>, name: string, path: string, phdrs: seq<Phdr>, slide: int, base: u64, max: nat)
    returns (ranges': seq<BinRange>)
    requires Matches(ranges, segs, max)
    ensures Matches(ranges', segs + Moved(path, name, base, phdrs, slide, |phdrs|), max)
  {
    ranges' := ranges;
    var j := 0;
    while j < |phdrs| && |ranges'| < max
      invariant j <= |phdrs|
      invariant Matches(ranges', segs + Moved(path, name, base, phdrs, slide, j), max)
    {
      ghost var before := segs + Moved(path, name, base, phdrs, slide, j);
      if phdrs[j].load && phdrs[j].exec && phdrs[j].filesz != 0 {
        ghost var s := Placed(Segment(path, phdrs[j].offset, phdrs[j].filesz, Runtime(phdrs[j].vaddr, slide)), name, base);
        assert segs + Moved(path, name, base, phdrs, slide, j + 1) == before + [s];
        WrapTwice(phdrs[j].vaddr + slide, phdrs[j].filesz);
        ranges' := ranges' + [BinRange(name, Wrap(phdrs[j].vaddr + slide), Wrap(phdrs[j].vaddr + slide + phdrs[j].filesz), base)];
      } else {
        assert segs + Moved(path, name, base, phdrs, slide, j + 1) == before;
      }
      j := j + 1;
    }
    if j < |phdrs| {
      MovedGrows(path, name, base, phdrs, slide, j, |phdrs|);
    }
  }

  lemma {:induction false} MovedGrows(path: string, name: string, base: u64, phdrs: seq<Phdr>, slide: int, j: nat, k: nat)
    requires j <= k <= |phdrs|
    ensures Moved(path, name, base, phdrs, slide, j) <= Moved(path, name, base, phdrs, slide, k)
  {
    if j < k {
      MovedGrows(path, name, base, phdrs, slide, j, k - 1);
    }
  }

  /** A full table stays the table of any longer image. */
  lemma FullStays(ranges: seq<BinRange>, segs: seq<Placed>, more: seq<Placed>, max: nat)
    requires Matches(ranges, segs, max) && |ranges| >= max
    ensures Matches(ranges, segs + more, max)
  {
  }

  /** `build_bin_ranges`: with room for all, the very intervals of the image, in the same order. */
  method BuildRanges(files: Files, ss: seq<Section>, max: nat) returns (ranges: seq<BinRange>)
    ensures Matches(ranges, Image(files, ss, |ss|), max)
  {
    ranges := [];
    var i := 0;
    while i < |ss| && |ranges| < max
      invariant i <= |ss|
      invariant Matches(ranges, Image(files, ss, i), max)
    {
      ghost var segs := Image(files, ss, i);
      var use := ShouldUse(ss, i);
      if use && ss[i].path in files {
        ranges := RangesOf(ranges, segs, files, ss, i, max);
        assert Image(files, ss, i + 1) == segs + Contribution(files, ss, ss[i]);
      } else {
        NoContribution(files, ss, i);
      }
      i := i + 1;
    }
    if i < |ss| {
      ImageGrows(files, ss, i, |ss|);
      ghost var all, part := Image(files, ss, |ss|), Image(files, ss, i);
      assert all == part + all[|part|..];
      FullStays(ranges, part, all[|part|..], max);
    }
  }

  /** The body of `build_bin_ranges` for one used section. */
  method RangesOf(ranges: seq<BinRange>, ghost segs: seq<Placed>, files: Files, ss: seq<Section>, i: nat, max: nat) returns (ranges': seq<BinRange>)
    requires i < |ss| && ss[i].path in files && Matches(ranges, segs, max)
    ensures Matches(ranges', segs + Contribution(files, ss, ss[i]), max)
  {
    ranges' := ranges;
    var elf := files[ss[i].path];
    var base := FindBaseVaddr(elf.phdrs);
    var load := FindLoadAddr(elf, ss[i].kind, ss[i].load);
    if base.None? || load.None? {
      assert segs + [] == segs;
      return;
    }
    ghost var own := FileSegments(files, ss[i].path, ShortName(ss[i].path), load.value);
    ranges' := AddRanges(ranges, segs, ShortName(ss[i].path), ss[i].path, elf.phdrs, Slide(load.value, base.value), load.value, max);
    assert segs + (own + []) == segs + own;
    if ss[i].kind == Executable && IsUserAddr(ss[i].base) && ss[i].base != load.value {
      if elf.interp.Some? {
        var interp := elf.interp.value;
        var have := FindMap(ss, interp);
        if !have {
          ghost var below := FileSegments(files, interp, INTERP_NAME, ss[i].base);
          assert segs + (own + below) == segs + own + below;
          if interp in files {
            var ibase := FindBaseVaddr(files[interp].phdrs);
            if ibase.Some? {
              ranges' := AddRanges(ranges', segs + own, INTERP_NAME, interp, files[interp].phdrs, Slide(ss[i].base, ibase.value), ss[i].base, max);
            }
          }
        }
      }
    }
  }

  lemma {:induction false} ImageGrows(files: Files, ss: seq<Section>, i: nat, k: nat)
    requires i <= k <= |ss|
    ensures Image(files, ss, i) <= Image(files, ss, k)
    decreases k
  {
    if i < k {
      ImageGrows(files, ss, i, k - 1);
    }
  }

  /**
   Both loops on the same sections.  The ranges are the intervals of the segments that the decoder is
   offered, in the same order and as many as fit; when it refuses none, those of the image itself.
   */
  method BuildBoth(files: Files, ss: seq<Section>, accepts: Decoder) returns (image: Option<seq<Segment>>, ranges: seq<BinRange>)
    ensures Matches(ranges, Image(files, ss, |ss|), 256)
    ensures forall i :: 0 <= i < |ranges| ==>
              var p := Image(files, ss, |ss|)[i];
              ranges[i] == BinRange(p.name, p.segment.vaddr, Wrap(p.segment.vaddr + p.segment.size), p.base)
    ensures image.None? ==> forall p :: p in Image(files, ss, |ss|) ==> !accepts(p.segment)
    ensures (forall p :: p in Image(files, ss, |ss|) ==> accepts(p.segment)) ==>
              && (image.None? <==> ranges == [])
              && (image.Some? ==>
                    && |ranges| == (if |image.value| < 256 then |image.value| else 256)
                    && forall i :: 0 <= i < |ranges| ==>
                         ranges[i].lo == image.value[i].vaddr && ranges[i].hi == Wrap(image.value[i].vaddr + image.value[i].size))
  {
    hide Image, Segments;
    var loads;
    image, loads := BuildImage(files, ss, accepts);
    ranges := BuildRanges(files, ss, MAX_BIN_RANGES);
    ghost var all := Image(files, ss, |ss|);
    NothingAccepted(all, accepts);
    assert forall i :: 0 <= i < |ranges| ==> Covers(ranges[i], all[i]);
    if forall p :: p in all ==> accepts(p.segment) {
      BothAgree(all, accepts, ranges);
    }
  }

  lemma BothAgree(all: seq<Placed>, accepts: Decoder, ranges: seq<BinRange>)
    requires Matches(ranges, all, 256) && forall p :: p in all ==> accepts(p.segment)
    ensures var segs := Segments(all, accepts);
            && |ranges| == (if |segs| < 256 then |segs| else 256)
            && forall i :: 0 <= i < |ranges| ==>
                 ranges[i].lo == segs[i].vaddr && ranges[i].hi == Wrap(segs[i].vaddr + segs[i].size)
  {
    hide Segments;
    AllSegments(all, accepts);
    assert forall i :: 0 <= i < |ranges| ==> Covers(ranges[i], all[i]);
  }

  lemma {:induction false} NothingAccepted(ps: seq<Placed>, accepts: Decoder)
    ensures Segments(ps, accepts) == [] ==> forall p :: p in ps ==> !accepts(p.segment)
  {
    if ps != [] {
      NothingAccepted(ps[..|ps| - 1], accepts);
      assert ps == ps[..|ps| - 1] + [ps[|ps| - 1]];
    }
  }

  /** `find_binary_for_ip`: the first range that holds the address. */
  method FindBinary(ranges: seq<BinRange>, ip: u64) returns (r: Option<(string, u64)>)
    ensures r.None? ==> forall i :: 0 <= i < |ranges| ==> !(ranges[i].lo <= ip < ranges[i].hi)
    ensures r.Some? ==> exists i :: 0 <= i < |ranges| && ranges[i].lo <= ip < ranges[i].hi
                          && r.value == (ranges[i].name, ip - ranges[i].lo)
                          && forall j :: 0 <= j < i ==> !(ranges[j].lo <= ip < ranges[j].hi)
  {
    for i := 0 to |ranges|
      invariant forall j :: 0 <= j < i ==> !(ranges[j].lo <= ip < ranges[j].hi)
    {
      if ip >= ranges[i].lo && ip < ranges[i].hi {
        return Some((ranges[i].name, ip - ranges[i].lo));
      }
    }
    return None;
  }
}
