/** The sidecar file of `meta.c`: the lines its writer appends and what its reader makes of them. */
module Meta {
  import opened Common
  import opened Sections
  import opened Text
  import opened Numerals
  import opened JsonText

  // ----- Lines

  function Hex(n: u64): string {
    Numeral(n, Sixteen)
  }

  /** `%d`. */
  function Dec(n: i32): string {
    var x: int := n;
    if x < 0 then "-" + Numeral(-x, Ten) else Numeral(x, Ten)
  }

  /** The writer's word for a section; anything that is not an executable or a kernel is a mapping. */
  function Word(k: Kind): string {
    if k.Executable? then "exec" else if k.Kernel? then "kernel" else "mmap"
  }

  function ImageLine(k: Kind, path: string, addr: u64, base: u64): string {
    ImageText(Word(k), Bounded(path, MAXPATHLEN), addr, base)
  }

  function ImageText(word: string, epath: string, addr: u64, base: u64): string {
    "{\"type\":\"" + word + PathPart(epath, addr, base)
  }

  function PathPart(epath: string, addr: u64, base: u64): string {
    "\",\"path\":\"" + epath + AddrPart(addr, base)
  }

  function AddrPart(addr: u64, base: u64): string {
    "\",\"addr\":\"0x" + Hex(addr) + BasePart(base)
  }

  function BasePart(base: u64): string {
    "\",\"base\":\"0x" + Hex(base) + "\"}\n"
  }

  function HeaderLine(pid: i32, tid: i32): string {
    "{\"type\":\"" + "header" + ("\",\"pid\":" + (Dec(pid) + ",\"tid\":" + Dec(tid) + "}\n"))
  }

  function TimingLine(mtc: bv8, cyc: bv8): string {
    "{\"type\":\"" + "timing" + ("\",\"mtc_freq\":" + (Numeral(mtc as nat, Ten) + ",\"cyc_thresh\":" + Numeral(cyc as nat, Ten) + "}\n"))
  }

  function ThreadLine(word: string, tid: i32): string {
    "{\"type\":\"" + word + ("\",\"tid\":" + (Dec(tid) + "}\n"))
  }

  /** The lines of one record: none for the kinds the sidecar does not keep. */
  function RecordLines(r: Record): seq<string> {
    match r.kind
    case Executable | Mmap | Kernel => [ImageLine(r.kind, r.path, r.addr, r.base)]
    case ThreadCreate => [ThreadLine("thread_create", r.tid)]
    case ThreadSetName => [ThreadLine("thread_set_name", r.tid)]
    case _ => []
  }

  function TimingLines(mtc: bv8, cyc: bv8): seq<string> {
    if mtc == 0 && cyc == 0 then [] else [TimingLine(mtc, cyc)]
  }

  function SectionLines(ss: seq<Section>): seq<string> {
    if ss == [] then []
    else SectionLines(ss[..|ss| - 1]) + [ImageLine(ss[|ss| - 1].kind, ss[|ss| - 1].path, ss[|ss| - 1].load, ss[|ss| - 1].base)]
  }

  function Flatten(lines: seq<string>): string {
    if lines == [] then "" else Flatten(lines[..|lines| - 1]) + lines[|lines| - 1]
  }

  // ----- The writer

  class MetaWriter {
    var file: string

    constructor ()
      ensures file == ""
    {
      file := "";
    }

    /** `meta_writer_header`. */
    method Header(pid: i32, tid: i32)
      modifies this
      ensures file == old(file) + HeaderLine(pid, tid)
    {
      file := file + HeaderLine(pid, tid);
    }

    /** `meta_writer_timing`. */
    method Timing(mtc: bv8, cyc: bv8)
      modifies this
      ensures file == old(file) + Flatten(TimingLines(mtc, cyc))
    {
      if mtc == 0 && cyc == 0 {
        return;
      }
      FlattenOne(TimingLine(mtc, cyc));
      file := file + TimingLine(mtc, cyc);
    }

    /** The path goes through a `MAXPATHLEN` buffer and `json_escape`. */
    method ImageRecord(k: Kind, path: string, addr: u64, base: u64)
      modifies this
      ensures file == old(file) + ImageLine(k, path, addr, base)
    {
      var epath := new char[MAXPATHLEN](_ => '\0');
      var n := JsonEscape(epath, path);
      file := file + ImageText(Word(k), epath[..n], addr, base);
    }

    /** `meta_writer_record`. */
    method Log(r: Record)
      modifies this
      ensures file == old(file) + Flatten(RecordLines(r))
    {
      ghost var lines := RecordLines(r);
      match r.kind {
        case Executable | Mmap | Kernel =>
          ImageRecord(r.kind, r.path, r.addr, r.base);
        case ThreadCreate =>
          file := file + ThreadLine("thread_create", r.tid);
        case ThreadSetName =>
          file := file + ThreadLine("thread_set_name", r.tid);
        case _ =>
      }
      if |lines| == 1 {
        FlattenOne(lines[0]);
      }
    }

    /** `meta_writer_sections`. */
    method LogSections(ss: seq<Section>)
      modifies this
      ensures file == old(file) + Flatten(SectionLines(ss))
    {
      for i := 0 to |ss|
        invariant file == old(file) + Flatten(SectionLines(ss[..i]))
      {
        ghost var start, written := old(file), Flatten(SectionLines(ss[..i]));
        ghost var line := SectionLinesSnoc(ss, i);
        ImageRecord(ss[i].kind, ss[i].path, ss[i].load, ss[i].base);
        Assoc(start, written, line);
      }
      assert ss[..|ss|] == ss;
    }
  }

  lemma Assoc(a: string, b: string, c: string)
    ensures a + b + c == a + (b + c)
  {
  }

  lemma SectionLinesSnoc(ss: seq<Section>, i: nat) returns (line: string)
    requires i < |ss|
    ensures line == ImageLine(ss[i].kind, ss[i].path, ss[i].load, ss[i].base)
    ensures Flatten(SectionLines(ss[..i + 1])) == Flatten(SectionLines(ss[..i])) + line
  {
    line := ImageLine(ss[i].kind, ss[i].path, ss[i].load, ss[i].base);
    assert ss[..i + 1][..i] == ss[..i];
    var lines := SectionLines(ss[..i + 1]);
    assert lines[..|lines| - 1] == SectionLines(ss[..i]);
  }

  lemma FlattenOne(line: string)
    ensures Flatten([line]) == line
  {
  }

  lemma {:induction false} FlattenConcat(a: seq<string>, b: seq<string>)
    ensures Flatten(a + b) == Flatten(a) + Flatten(b)
  {
    if b == [] {
      assert a + b == a;
    } else {
      assert (a + b)[..|a + b| - 1] == a + b[..|b| - 1];
      FlattenConcat(a, b[..|b| - 1]);
    }
  }

  // ----- `sscanf`

  function Literal(s: string, lit: string): Option<string> {
    if lit <= s then Some(s[|lit|..]) else None
  }

  /** `%<max>[^"]`: at least one character, none of them a quote. */
  function ScanSet(s: string, max: nat): Option<(string, string)> {
    var k := Find(s, '"');
    var n := if k < max then k else max;
    if n == 0 then None else Some((s[..n], s[n..]))
  }

  predicate IsSpace(c: char) {
    c == ' ' || '\t' <= c <= '\r'
  }

  function SkipSpaces(s: string): string {
    if s != "" && IsSpace(s[0]) then SkipSpaces(s[1..]) else s
  }

  /** `%lx`: optional blanks, sign and prefix, then digits; too large a value saturates. */
  function ScanHex(s: string): Option<(u64, string)> {
    var t := SkipSpaces(s);
    var minus := t != "" && t[0] == '-';
    var u := if t != "" && (t[0] == '-' || t[0] == '+') then t[1..] else t;
    var v := if |u| > 2 && u[0] == '0' && (u[1] == 'x' || u[1] == 'X') && IsDigit(u[2], Sixteen) then u[2..] else u;
    var n := DigitRun(v, Sixteen);
    if n == 0 then None
    else
      var x := Value(v[..n], Sixteen);
      var y: u64 := if x < 0x1_0000_0000_0000_0000 then x else 0xffff_ffff_ffff_ffff;
      var z: u64 := if minus && x < TWO64 then Wrap(TWO64 - y) else y;
      Some((z, v[n..]))
  }

  /** The four conversions of the reader; what follows the last one does not matter. */
  function ScanLine(line: string): Option<(string, string, u64, u64)> {
    var s1 :- Literal(line, "{\"type\":\"");
    var (word, s2) :- ScanSet(s1, 31);
    var s3 :- Literal(s2, "\",\"path\":\"");
    var (path, s4) :- ScanSet(s3, MAXPATHLEN - 1);
    var s5 :- Literal(s4, "\",\"addr\":\"0x");
    var (addr, s6) :- ScanHex(s5);
    var s7 :- Literal(s6, "\",\"base\":\"0x");
    var (base, _) :- ScanHex(s7);
    Some((word, path, addr, base))
  }

  /** The section that four scanned values make, if the word is one the reader knows. */
  function Scanned(word: string, path: string, addr: u64, base: u64): Option<Section> {
    if word == "exec" then Some(Section(path, addr, base, Executable))
    else if word == "kernel" then Some(Section(path, addr, base, Kernel))
    else if word == "mmap" then Some(Section(path, addr, base, Mmap))
    else None
  }

  function LineSection(line: string): Option<Section> {
    var (word, path, addr, base) :- ScanLine(line);
    Scanned(word, path, addr, base)
  }

  /** The reader's list after one more section: an executable discards what came before. */
  function Keep(acc: seq<Section>, s: Option<Section>): seq<Section> {
    match s
    case None => acc
    case Some(s) => if s.kind.Executable? then [s] else acc + [s]
  }

  function ApplyLine(acc: seq<Section>, line: string): seq<Section> {
    Keep(acc, LineSection(line))
  }

  // ----- The reader

  const LINE_BUFFER := 4096

  /** How much `fgets` reads into a buffer: through the first newline, but no more than fits before the terminator. */
  function LineLength(s: string, size: nat): (n: nat)
    requires s != "" && size > 1
    ensures 1 <= n <= |s| && n <= size - 1
    ensures '\n' !in s[..n - 1]
    ensures s[n - 1] == '\n' || n == |s| || n == size - 1
  {
    var k := Find(s, '\n');
    var n := if k < |s| then k + 1 else k;
    if n < size then n else size - 1
  }

  /** A longer line reaches the reader in pieces. */
  lemma {:induction false} LongLineCut(file: string)
    requires '\n' !in file && |file| > 4095
    ensures LineLength(file, LINE_BUFFER) == 4095
  {
  }

  function ReadAll(file: string, acc: seq<Section>): seq<Section>
    decreases |file|
  {
    if file == "" then acc
    else
      var n := LineLength(file, LINE_BUFFER);
      ReadAll(file[n..], ApplyLine(acc, file[..n]))
  }

  /** The body of the read loop once four values were scanned. */
  method KeepScanned(acc: seq<Section>, word: string, path: string, addr: u64, base: u64) returns (sections: seq<Section>)
    ensures sections == Keep(acc, Scanned(word, path, addr, base))
  {
    sections := acc;
    if word != "exec" && word != "mmap" && word != "kernel" {
      return;
    }
    if word == "exec" {
      sections := [];
    }
    sections := sections + [Section(path, addr, base,
                                    if word == "exec" then Executable else if word == "kernel" then Kernel else Mmap)];
  }

  /** `meta_read_sections`. */
  method ReadSections(file: string) returns (sections: seq<Section>)
    ensures sections == ReadAll(file, [])
  {
    var rest := file;
    sections := [];
    while rest != ""
      invariant ReadAll(rest, sections) == ReadAll(file, [])
      decreases |rest|
    {
      var n := LineLength(rest, LINE_BUFFER);
      var scanned := ScanLine(rest[..n]);
      if scanned.Some? {
        var (word, path, addr, base) := scanned.value;
        sections := KeepScanned(sections, word, path, addr, base);
      }
      rest := rest[n..];
    }
  }
}
