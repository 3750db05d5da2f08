/**
 Reading a sidecar back gives the live section list exactly when, since the last EXEC, every path was
 one that the line format carries and no section was added without being logged.
 */
module Replay {
  import opened Common
  import opened Sections
  import opened Text
  import opened Numerals
  import opened JsonText
  import opened Meta
  import opened MetaLines
  import opened TraceState

  // ----- One line

  /** The paths that come back from the sidecar as they were. */
  predicate Replayable(path: string) {
    Clean(path) || Saturated(path)
  }

  lemma WordScans(k: Kind)
    ensures Word(k) != "" && '"' !in Word(k) && |Word(k)| <= 31
  {
  }

  lemma WordBack(k: Kind, path: string, addr: u64, base: u64)
    requires HasImage(k)
    ensures Scanned(Word(k), path, addr, base) == Some(Section(path, addr, base, k))
  {
  }

  lemma {:induction false} QuoteOrigin(s: string)
    requires '"' in Escape(s)
    ensures '"' in s
  {
    var r, c := s[..|s| - 1], s[|s| - 1];
    if '"' in EscapeChar(c) {
      assert c == '"';
    } else {
      QuoteOrigin(r);
      assert forall d :: d in r ==> d in s;
    }
  }

  lemma BoundedNonEmpty(path: string)
    ensures Bounded(path, MAXPATHLEN) == "" <==> path == ""
  {
  }

  lemma BoundedSize(path: string)
    ensures |Bounded(path, MAXPATHLEN)| < MAXPATHLEN - 1
  {
    hide EscapeChar;
    var n := Consumed(path, MAXPATHLEN, 0);
    if n > 0 {
      assert path[..n][..n - 1] == path[..n - 1];
    }
  }

  lemma QuotedNotReplayable(path: string)
    requires '"' in path
    ensures !Replayable(path)
  {
  }

  /** What the reader makes of the line of a section. */
  function Replayed(s: Section): Option<Section> {
    var e := Bounded(s.path, MAXPATHLEN);
    if e == "" || '"' in e then None else Some(s.(path := e))
  }

  /** An image line gives back its section with the path as it was written, unless that is empty or holds a quote. */
  lemma {:induction false} ImageReads(s: Section)
    requires HasImage(s.kind)
    ensures LineSection(ImageLine(s.kind, s.path, s.load, s.base)) == Replayed(s)
  {
    hide Bounded, ScanLine, ImageText, Scanned, Word;
    var e := Bounded(s.path, MAXPATHLEN);
    WordScans(s.kind);
    BoundedSize(s.path);
    if e == "" {
      ScanEmptyPath(Word(s.kind), s.load, s.base);
    } else if '"' !in e {
      ScanImage(Word(s.kind), e, s.load, s.base);
      WordBack(s.kind, e, s.load, s.base);
    } else {
      BoundedQuotes(s.path);
      ScanQuotedPath(Word(s.kind), e, s.load, s.base);
    }
  }

  lemma BoundedQuotes(path: string)
    ensures QuotesEscaped(Bounded(path, MAXPATHLEN))
  {
    EscapeQuotes(path[..Consumed(path, MAXPATHLEN, 0)]);
  }

  /** A section survives its line exactly when its path is non-empty and replayable. */
  lemma {:induction false} LineReplays(s: Section)
    requires HasImage(s.kind)
    ensures LineSection(ImageLine(s.kind, s.path, s.load, s.base)) == Some(s) <==> s.path != "" && Replayable(s.path)
    ensures s.path == "" ==> LineSection(ImageLine(s.kind, s.path, s.load, s.base)).None?
  {
    hide Bounded, LineSection, ImageLine, Clean, Saturated;
    ImageReads(s);
    BoundedNonEmpty(s.path);
    BoundedIdentity(s.path);
    if '"' in s.path {
      QuotedNotReplayable(s.path);
    }
  }

  /** A path that does not survive comes back altered, or not at all and then because of a quote. */
  lemma Altered(s: Section)
    requires s.path != "" && !Replayable(s.path)
    ensures Replayed(s).Some? ==> Replayed(s).value.path != Truncate(s.path)
    ensures Replayed(s).None? ==> '"' in Truncate(s.path)
  {
    hide Clean, Saturated, Bounded;
    BoundedIdentity(s.path);
    BoundedSize(s.path);
    BoundedNonEmpty(s.path);
    if Replayed(s).None? {
      EscapedQuote(s.path);
    }
  }

  lemma EscapedQuote(path: string)
    requires '"' in Bounded(path, MAXPATHLEN)
    ensures '"' in Truncate(path)
  {
    var n := Consumed(path, MAXPATHLEN, 0);
    QuoteOrigin(path[..n]);
    BoundedSize(path);
    EscapeLength(path[..n]);
    assert forall c :: c in path[..n] ==> c in Truncate(path);
  }

  lemma {:induction false} EscapeLength(s: string)
    ensures |s| <= |Escape(s)|
  {
    hide EscapeChar;
    if s != "" {
      EscapeLength(s[..|s| - 1]);
    }
  }

  // ----- Many lines

  /** A line that `fgets` returns in one piece. */
  predicate WholeLine(line: string) {
    line != "" && |line| < LINE_BUFFER && line[|line| - 1] == '\n' && '\n' !in line[..|line| - 1]
  }

  function Fold(acc: seq<Section>, lines: seq<string>): seq<Section> {
    if lines == [] then acc else ApplyLine(Fold(acc, lines[..|lines| - 1]), lines[|lines| - 1])
  }

  lemma ReadLine(line: string, rest: string, acc: seq<Section>)
    requires WholeLine(line)
    ensures ReadAll(line + rest, acc) == ReadAll(rest, ApplyLine(acc, line))
  {
    hide ApplyLine;
    var body := line[..|line| - 1];
    assert line + rest == body + ['\n'] + rest;
    FindAfter(body, '\n', rest);
    assert (line + rest)[..|line|] == line && (line + rest)[|line|..] == rest;
  }

  lemma {:induction false} ReadLines(lines: seq<string>, rest: string, acc: seq<Section>)
    requires forall l :: l in lines ==> WholeLine(l)
    ensures ReadAll(Flatten(lines) + rest, acc) == ReadAll(rest, Fold(acc, lines))
  {
    if lines == [] {
      assert Flatten(lines) + rest == rest;
    } else {
      hide ApplyLine, WholeLine, ReadAll;
      var front, last := lines[..|lines| - 1], lines[|lines| - 1];
      assert forall l :: l in front ==> l in lines;
      assert last in lines;
      assert Flatten(lines) + rest == Flatten(front) + (last + rest);
      ReadLines(front, last + rest, acc);
      ReadLine(last, rest, Fold(acc, front));
    }
  }

  lemma {:induction false} FoldConcat(acc: seq<Section>, a: seq<string>, b: seq<string>)
    ensures Fold(acc, a + b) == Fold(Fold(acc, a), b)
  {
    hide ApplyLine;
    if b == [] {
      assert a + b == a;
    } else {
      assert (a + b)[..|a + b| - 1] == a + b[..|b| - 1];
      FoldConcat(acc, a, b[..|b| - 1]);
    }
  }

  // ----- Every line the writer produces is whole

  predicate NoNewline(s: string) {
    '\n' !in s
  }

  lemma DecimalText(n: i32)
    ensures NoNewline(Dec(n)) && |Dec(n)| <= 11
  {
    var x: int := n;
    var m := if x < 0 then -x else x;
    DigitsClean(Numeral(m, Ten), Ten);
    DecLength(m, 10);
  }

  function Pow10(k: nat): nat {
    if k == 0 then 1 else 10 * Pow10(k - 1)
  }

  lemma {:induction false} DecLength(n: nat, k: nat)
    requires 0 < k <= 10 && (k == 10 ==> n <= 0x8000_0000) && (k < 10 ==> n < Pow10(k))
    ensures |Numeral(n, Ten)| <= k
    decreases k
  {
    if n >= 10 {
      assert k > 1;
      if k == 10 {
        assert Pow10(3) == 1000 && Pow10(6) == 1000000 && Pow10(9) == 1000000000;
      }
      DecLength(n / 10, k - 1);
    }
  }

  lemma HexText(n: u64)
    ensures NoNewline(Hex(n)) && |Hex(n)| <= 16
  {
    DigitsClean(Hex(n), Sixteen);
    HexLength64(n);
  }

  lemma EndsLine(body: string)
    requires NoNewline(body) && |body| + 1 < LINE_BUFFER
    ensures WholeLine(body + "\n")
  {
  }

  lemma {:induction false} ImageLineWhole(k: Kind, path: string, addr: u64, base: u64)
    ensures WholeLine(ImageLine(k, path, addr, base))
  {
    hide Bounded, WholeLine;
    var e := Bounded(path, MAXPATHLEN);
    BoundedSize(path);
    BoundedNoNewline(path);
    HexText(addr);
    HexText(base);
    ImageBody(Word(k), e, Hex(addr), Hex(base));
    var body := "{\"type\":\"" + Word(k) + ("\",\"path\":\"" + e + ("\",\"addr\":\"0x" + Hex(addr) + ("\",\"base\":\"0x" + Hex(base) + "\"}")));
    assert body + "\n" == ImageLine(k, path, addr, base);
    EndsLine(body);
  }

  lemma BoundedNoNewline(path: string)
    ensures NoNewline(Bounded(path, MAXPATHLEN))
  {
    NoControl(path[..Consumed(path, MAXPATHLEN, 0)]);
  }

  lemma ImageBody(word: string, e: string, a: string, b: string)
    requires NoNewline(word) && |word| <= 13 && NoNewline(e) && |e| < MAXPATHLEN
    requires NoNewline(a) && |a| <= 16 && NoNewline(b) && |b| <= 16
    ensures var body := "{\"type\":\"" + word + ("\",\"path\":\"" + e + ("\",\"addr\":\"0x" + a + ("\",\"base\":\"0x" + b + "\"}")));
            NoNewline(body) && |body| + 1 < LINE_BUFFER
  {
  }

  lemma ShortBody(word: string, field: string, a: string, mid: string, b: string)
    requires NoNewline(word) && NoNewline(field) && NoNewline(a) && NoNewline(mid) && NoNewline(b)
    requires |word| + |field| + |a| + |mid| + |b| < 1000
    ensures WholeLine("{\"type\":\"" + word + (field + (a + mid + b + "}\n")))
    ensures WholeLine("{\"type\":\"" + word + (field + (a + "}\n")))
  {
  }

  lemma HeaderLineWhole(pid: i32, tid: i32)
    ensures WholeLine(HeaderLine(pid, tid))
  {
    hide WholeLine, Dec;
    DecimalText(pid);
    DecimalText(tid);
    ShortBody("header", "\",\"pid\":", Dec(pid), ",\"tid\":", Dec(tid));
  }

  lemma TimingLineWhole(mtc: bv8, cyc: bv8)
    ensures WholeLine(TimingLine(mtc, cyc))
  {
    hide WholeLine;
    var a, b := mtc as nat, cyc as nat;
    DigitsClean(Numeral(a, Ten), Ten);
    DigitsClean(Numeral(b, Ten), Ten);
    DecLength(a, 10);
    DecLength(b, 10);
    ShortBody("timing", "\",\"mtc_freq\":", Numeral(a, Ten), ",\"cyc_thresh\":", Numeral(b, Ten));
  }

  lemma ThreadLineWhole(word: string, tid: i32)
    requires NoNewline(word) && |word| <= 31
    ensures WholeLine(ThreadLine(word, tid))
  {
    hide WholeLine, Dec;
    DecimalText(tid);
    ShortBody(word, "\",\"tid\":", Dec(tid), "", "");
  }

  /** Whatever an operation logs, the reader gets it line by line. */
  lemma LoggedWhole(op: Op)
    ensures forall l :: l in Logged(op) ==> WholeLine(l)
  {
    hide ImageLine, HeaderLine, TimingLine, ThreadLine, WholeLine;
    match op
    case Start(pid, tid) => HeaderLineWhole(pid, tid);
    case Clock(mtc, cyc) => TimingLineWhole(mtc, cyc);
    case Seed(maps) => SectionsWhole(MappedAll(maps));
    case Process(r) =>
      ImageLineWhole(r.kind, r.path, r.addr, r.base);
      ThreadLineWhole("thread_create", r.tid);
      ThreadLineWhole("thread_set_name", r.tid);
    case EnsureKernel(_) =>
  }

  lemma {:induction false} SectionsWhole(ss: seq<Section>)
    ensures forall l :: l in SectionLines(ss) ==> WholeLine(l)
  {
    hide ImageLine, WholeLine;
    if ss != [] {
      var last := ss[|ss| - 1];
      SectionsWhole(ss[..|ss| - 1]);
      ImageLineWhole(last.kind, last.path, last.load, last.base);
    }
  }

  lemma FoldSnoc(acc: seq<Section>, lines: seq<string>, line: string)
    ensures Fold(acc, lines + [line]) == ApplyLine(Fold(acc, lines), line)
    ensures lines == [] ==> lines + [line] == [line]
  {
  }

  lemma FoldOne(acc: seq<Section>, line: string)
    ensures Fold(acc, [line]) == ApplyLine(acc, line)
  {
  }

  // ----- One section, live and replayed

  /** The two lists are equal, or the live one is not even the beginning of the other: appending never mends that. */
  predicate Agree(replayed: seq<Section>, live: seq<Section>, ok: bool) {
    && (if ok then replayed == live else !(live <= replayed))
    && forall i :: 0 <= i < |replayed| ==> '"' !in replayed[i].path
  }

  /** What the live state does with a recorded section. */
  function Recorded(live: seq<Section>, s: Section): seq<Section> {
    if s.path == "" then live else Add(if s.kind.Executable? then [] else live, s)
  }

  lemma PrefixSnoc(a: seq<Section>, b: seq<Section>, x: Section, y: Section)
    ensures a + [x] <= b + [y] ==> a <= b && (a == b ==> x == y)
    ensures a + [x] <= b ==> a <= b && a != b
  {
    if a + [x] <= b + [y] {
      assert a == (a + [x])[..|a|] == (b + [y])[..|a|] == b[..|a|];
      assert x == (a + [x])[|a|] == (b + [y])[|a|];
    }
    if a + [x] <= b {
      assert a == (a + [x])[..|a|] == b[..|a|];
    }
  }

  /** A section that comes back altered, or is lost, sets the lists apart. */
  lemma SetsApart(replayed: seq<Section>, live: seq<Section>, ok: bool, s: Section)
    requires Agree(replayed, live, ok) && s.path != "" && !Replayable(s.path)
    ensures !(Recorded(live, s) <= Keep(replayed, Replayed(s)))
  {
    hide Replayable, Bounded;
    Altered(s);
    var kept := s.(path := Truncate(s.path));
    var back := if Replayed(s).Some? then Replayed(s).value else s;
    PrefixSnoc(live, replayed, kept, back);
    PrefixSnoc([], [], kept, back);
    assert [] + [kept] == [kept] && [] + [back] == [back];
    if [kept] <= replayed {
      assert replayed[0] == kept;
    }
  }

  /** After a section the lists agree if they did before, or it is an EXEC, and its path is replayable. */
  lemma {:induction false} SectionAgrees(replayed: seq<Section>, live: seq<Section>, ok: bool, s: Section)
    requires HasImage(s.kind) && Agree(replayed, live, ok)
    ensures Agree(Keep(replayed, Replayed(s)), Recorded(live, s), (ok || (s.kind.Executable? && s.path != "")) && Replayable(s.path))
  {
    hide Replayable, Bounded;
    BoundedNonEmpty(s.path);
    EmptyReplayable();
    if s.path != "" && Replayable(s.path) {
      SurvivesLine(s);
      PrefixSnoc(live, replayed, s, s);
      assert s.(path := s.path) == s;
      SurvivorHasNoQuote(s);
    } else if s.path != "" {
      SetsApart(replayed, live, ok, s);
      if Replayed(s).Some? {
        assert '"' !in Replayed(s).value.path;
      }
    }
  }

  lemma EmptyReplayable()
    ensures Replayable("")
  {
  }

  lemma SurvivorHasNoQuote(s: Section)
    requires Replayed(s) == Some(s)
    ensures '"' !in s.path
  {
    hide Bounded;
  }

  lemma SurvivesLine(s: Section)
    requires s.path != "" && Replayable(s.path)
    ensures Replayed(s) == Some(s) && Truncate(s.path) == s.path
  {
    BoundedIdentity(s.path);
    BoundedSize(s.path);
    if '"' in s.path {
      QuotedNotReplayable(s.path);
    }
  }

  predicate AllReplayable(ss: seq<Section>) {
    forall i :: 0 <= i < |ss| ==> Replayable(ss[i].path)
  }

  predicate AllImages(ss: seq<Section>) {
    forall i :: 0 <= i < |ss| ==> HasImage(ss[i].kind)
  }

  predicate ExecFirst(ss: seq<Section>) {
    forall i :: 0 < i < |ss| ==> !ss[i].kind.Executable?
  }

  lemma RecordedAdd(live: seq<Section>, ss: seq<Section>)
    requires ss != [] && ExecFirst(ss) && (ss[0].kind.Executable? ==> live == [])
    ensures Recorded(AddAll(live, ss[..|ss| - 1]), ss[|ss| - 1]) == AddAll(live, ss)
  {
    assert ss[..|ss| - 1] == [] ==> AddAll(live, ss[..|ss| - 1]) == live;
  }

  lemma FoldLine(replayed: seq<Section>, ss: seq<Section>)
    requires ss != [] && HasImage(ss[|ss| - 1].kind)
    ensures Fold(replayed, SectionLines(ss)) == Keep(Fold(replayed, SectionLines(ss[..|ss| - 1])), Replayed(ss[|ss| - 1]))
  {
    hide LineSection, ImageLine, Replayed, Fold;
    var last := ss[|ss| - 1];
    ImageReads(last);
    FoldSnoc(replayed, SectionLines(ss[..|ss| - 1]), ImageLine(last.kind, last.path, last.load, last.base));
  }

  lemma NothingAdded(replayed: seq<Section>, live: seq<Section>)
    ensures Fold(replayed, SectionLines([])) == replayed && AddAll(live, []) == live
  {
  }

  /** A list of sections without an EXEC, or with one in front that is the first section of all. */
  lemma {:induction false} SectionsAgree(replayed: seq<Section>, live: seq<Section>, ok: bool, ss: seq<Section>)
    requires AllImages(ss) && ExecFirst(ss) && Agree(replayed, live, ok)
    requires ss != [] && ss[0].kind.Executable? ==> live == [] && ok
    ensures Agree(Fold(replayed, SectionLines(ss)), AddAll(live, ss), ok && AllReplayable(ss))
  {
    hide Fold, AddAll, SectionLines, Replayable, Agree, Replayed, Recorded, Keep;
    if ss == [] {
      NothingAdded(replayed, live);
    } else {
      var front, last := ss[..|ss| - 1], ss[|ss| - 1];
      SectionsAgree(replayed, live, ok, front);
      SectionAgrees(Fold(replayed, SectionLines(front)), AddAll(live, front), ok && AllReplayable(front), last);
      FoldLine(replayed, ss);
      RecordedAdd(live, ss);
      assert AllReplayable(ss) <==> AllReplayable(front) && Replayable(last.path);
      assert last.kind.Executable? ==> front == [];
    }
  }

  // ----- One operation

  /** A new process image: it discards whatever was recorded, and whatever went wrong, before it. */
  predicate Resets(op: Op) {
    op.Process? && op.rec.kind.Executable? && op.rec.path != ""
  }

  /** The paths it records survive the line format, and it adds nothing that is not logged. */
  predicate Faithful(live: seq<Section>, op: Op) {
    match op
    case Seed(maps) => AllReplayable(MappedAll(maps))
    case Process(r) => HasImage(r.kind) ==> Replayable(r.path)
    case EnsureKernel(kbase) => HasKernel(live) || kbase.None?
    case _ => true
  }

  lemma ImageAgrees(replayed: seq<Section>, live: seq<Section>, ok: bool, r: Record)
    requires HasImage(r.kind) && Agree(replayed, live, ok)
    ensures Agree(Fold(replayed, RecordLines(r)), AfterRecord(live, r), (ok || Resets(Process(r))) && Replayable(r.path))
  {
    hide LineSection, ImageLine, Replayable, Agree, Replayed;
    var s := Section(r.path, r.addr, r.base, r.kind);
    SectionAgrees(replayed, live, ok, s);
    ImageReads(s);
    FoldOne(replayed, ImageLine(r.kind, r.path, r.addr, r.base));
  }

  lemma ThreadIgnoredByFold(replayed: seq<Section>, r: Record)
    requires !HasImage(r.kind)
    ensures Fold(replayed, RecordLines(r)) == replayed
  {
    hide LineSection, ThreadLine;
    ThreadIgnored("thread_create", r.tid);
    ThreadIgnored("thread_set_name", r.tid);
    FoldOne(replayed, ThreadLine("thread_create", r.tid));
    FoldOne(replayed, ThreadLine("thread_set_name", r.tid));
  }

  lemma KernelAgrees(replayed: seq<Section>, live: seq<Section>, ok: bool, kbase: Option<u64>)
    requires Agree(replayed, live, ok)
    ensures Agree(replayed, Live(live, EnsureKernel(kbase)), ok && (HasKernel(live) || kbase.None?))
  {
    hide HasKernel;
  }

  /** After an operation the lists agree if they did before, or it resets them, and it is faithful. */
  lemma {:induction false} OpAgrees(replayed: seq<Section>, live: seq<Section>, ok: bool, op: Op)
    requires Agree(replayed, live, ok)
    ensures Agree(Fold(replayed, Logged(op)), Live(live, op), (ok || Resets(op)) && Faithful(live, op))
  {
    hide LineSection, HeaderLine, TimingLine, RecordLines, Agree, Replayable, HasKernel, SectionLines;
    match op
    case Start(pid, tid) =>
      HeaderIgnored(pid, tid);
      FoldOne(replayed, HeaderLine(pid, tid));
    case Clock(mtc, cyc) =>
      TimingIgnored(mtc, cyc);
      FoldOne(replayed, TimingLine(mtc, cyc));
    case Seed(maps) =>
      SectionsAgree(replayed, live, ok, MappedAll(maps));
    case Process(r) =>
      if HasImage(r.kind) {
        ImageAgrees(replayed, live, ok, r);
      } else {
        ThreadIgnoredByFold(replayed, r);
      }
    case EnsureKernel(kbase) =>
      KernelAgrees(replayed, live, ok, kbase);
  }

  // ----- Whole sessions

  // ----- What the live list is

  /** The sections an operation records. */
  function RecordedBy(op: Op): seq<Section> {
    match op
    case Seed(maps) => seq(|maps|, i requires 0 <= i < |maps| => Section(maps[i].path, maps[i].start, 0, Mmap))
    case Process(r) =>
      if r.kind == Executable || r.kind == Mmap || r.kind == Kernel then [Section(r.path, r.addr, r.base, r.kind)] else []
    case _ => []
  }

  function RecordedSince(ops: seq<Op>, k: nat): seq<Section> {
    if |ops| <= k then [] else RecordedSince(ops[..|ops| - 1], k) + RecordedBy(ops[|ops| - 1])
  }

  /** Those with a path, the path cut to its field. */
  function Stored(ss: seq<Section>): seq<Section> {
    if ss == [] then []
    else
      var last := ss[|ss| - 1];
      Stored(ss[..|ss| - 1])
      + if last.path == "" then [] else [last.(path := if |last.path| < 1024 then last.path else last.path[..1023])]
  }

  lemma {:induction false} StoredConcat(a: seq<Section>, b: seq<Section>)
    ensures Stored(a + b) == Stored(a) + Stored(b)
  {
    if b == [] {
      assert a + b == a;
    } else {
      assert (a + b)[..|a + b| - 1] == a + b[..|b| - 1];
      StoredConcat(a, b[..|b| - 1]);
    }
  }

  lemma {:induction false} AddAllStored(live: seq<Section>, ss: seq<Section>)
    ensures AddAll(live, ss) == live + Stored(ss)
  {
    if ss != [] {
      AddAllStored(live, ss[..|ss| - 1]);
    }
  }

  lemma StoredOne(s: Section)
    ensures Stored([s]) == Add([], s)
  {
    assert [s][..0] == [];
  }

  lemma LiveStored(live: seq<Section>, op: Op)
    requires !op.EnsureKernel?
    ensures Live(live, op) == if Resets(op) then Stored(RecordedBy(op)) else live + Stored(RecordedBy(op))
  {
    hide Stored;
    assert Stored([]) == [] by {
      NothingStored();
    }
    match op
    case Seed(maps) =>
      AddAllStored(live, MappedAll(maps));
      MappedStored(maps);
    case Process(r) =>
      StoredOne(Section(r.path, r.addr, r.base, r.kind));
    case _ =>
  }

  lemma NothingStored()
    ensures Stored([]) == []
  {
  }

  lemma {:induction false} MappedStored(maps: seq<Mapping>)
    ensures Stored(MappedAll(maps)) == Stored(RecordedBy(Seed(maps)))
  {
    if maps != [] {
      var front := maps[..|maps| - 1];
      MappedStored(front);
      assert RecordedBy(Seed(maps))[..|maps| - 1] == RecordedBy(Seed(front));
      assert MappedAll(maps)[..|maps| - 1] == MappedAll(front);
    }
  }

  /** The live list is what was recorded from the last new process image on, in order. */
  lemma {:induction false} LiveIsRecorded(ops: seq<Op>)
    requires forall i :: 0 <= i < |ops| ==> !ops[i].EnsureKernel?
    ensures LiveAll(ops) == Stored(RecordedSince(ops, Epoch(ops)))
  {
    hide Live, Resets, RecordedBy, Stored;
    NothingStored();
    if ops != [] {
      var front, op := ops[..|ops| - 1], ops[|ops| - 1];
      LiveIsRecorded(front);
      LiveStored(LiveAll(front), op);
      if Resets(op) {
        assert RecordedSince(front, |front|) == [];
        assert [] + RecordedBy(op) == RecordedBy(op);
      } else {
        StoredConcat(RecordedSince(front, Epoch(front)), RecordedBy(op));
      }
    }
  }

  /** The fallback appends the kernel's own file at the base the system reports. */
  lemma {:induction false} FallbackIsKernel(live: seq<Section>, kbase: u64)
    ensures Live(live, EnsureKernel(Some(kbase)))
         == if exists i :: 0 <= i < |live| && live[i].kind == Kernel then live else live + [Section("/boot/kernel/kernel", kbase, 0, Kernel)]
  {
  }

  /** The last operation that began a new process image, or the start of the session. */
  function Epoch(ops: seq<Op>): (k: nat)
    ensures k <= |ops| && (ops != [] ==> k < |ops|)
    ensures k == 0 || Resets(ops[k])
    ensures forall i :: k < i < |ops| ==> !Resets(ops[i])
  {
    if ops == [] then 0
    else if Resets(ops[|ops| - 1]) then |ops| - 1
    else Epoch(ops[..|ops| - 1])
  }

  /** From the last new process image on, every operation is faithful. */
  predicate Survives(ops: seq<Op>) {
    forall i :: Epoch(ops) <= i < |ops| ==> Faithful(LiveAll(ops[..i]), ops[i])
  }

  lemma SurvivesSnoc(ops: seq<Op>, op: Op)
    ensures Survives(ops + [op]) <==> (Survives(ops) || Resets(op)) && Faithful(LiveAll(ops), op)
  {
    hide Faithful, LiveAll, Resets;
    var more := ops + [op];
    assert more[..|ops|] == ops;
    assert more[|ops|] == op;
    assert forall i :: 0 <= i < |ops| ==> more[..i] == ops[..i] && more[i] == ops[i];
    assert Epoch(more) == if Resets(op) then |ops| else Epoch(ops);
    if Survives(more) {
      assert Faithful(LiveAll(more[..|ops|]), more[|ops|]);
      forall i | Epoch(more) <= i < |ops|
        ensures Faithful(LiveAll(ops[..i]), ops[i])
      {
        assert Faithful(LiveAll(more[..i]), more[i]);
      }
    }
  }

  lemma {:induction false} FoldAgrees(ops: seq<Op>)
    ensures Agree(Fold([], LoggedAll(ops)), LiveAll(ops), Survives(ops))
    ensures forall l :: l in LoggedAll(ops) ==> WholeLine(l)
  {
    if ops != [] {
      hide ApplyLine, WholeLine, Live, Logged, Faithful, Agree, Survives;
      var front, op := ops[..|ops| - 1], ops[|ops| - 1];
      assert ops == front + [op];
      FoldAgrees(front);
      OpAgrees(Fold([], LoggedAll(front)), LiveAll(front), Survives(front), op);
      FoldConcat([], LoggedAll(front), Logged(op));
      SurvivesSnoc(front, op);
      LoggedWhole(op);
    }
  }

  /**
   Offline replay of the sidecar gives the live section list, element by element, exactly when the
   session survives: from the last new process image on, every path recorded is replayable and the
   fallback kernel had nothing to add.
   */
  lemma {:induction false} LiveEqualsReplay(ops: seq<Op>)
    ensures ReadAll(Flatten(LoggedAll(ops)), []) == LiveAll(ops) <==> Survives(ops)
  {
    hide ReadAll, Survives, WholeLine;
    FoldAgrees(ops);
    ReadLines(LoggedAll(ops), "", []);
    assert Flatten(LoggedAll(ops)) + "" == Flatten(LoggedAll(ops));
    assert ReadAll("", Fold([], LoggedAll(ops))) == Fold([], LoggedAll(ops)) by {
      ReadNothing(Fold([], LoggedAll(ops)));
    }
  }

  lemma ReadNothing(acc: seq<Section>)
    ensures ReadAll("", acc) == acc
  {
  }

  /** The `-K` fallback is not in the primary sidecar: after it, replay also needs that it had nothing to add. */
  lemma {:induction false} FallbackNotReplayed(ops: seq<Op>, kbase: Option<u64>)
    ensures ReadAll(Flatten(LoggedAll(ops + [EnsureKernel(kbase)])), []) == LiveAll(ops + [EnsureKernel(kbase)])
       <==> Survives(ops) && (HasKernel(LiveAll(ops)) || kbase.None?)
  {
    hide Flatten, ReadAll, LiveAll, LoggedAll, HasKernel, Survives;
    LiveEqualsReplay(ops + [EnsureKernel(kbase)]);
    SurvivesSnoc(ops, EnsureKernel(kbase));
  }

  /** A session that records nothing and then falls back. */
  lemma {:induction false} FallbackLost(kbase: u64)
    ensures ReadAll(Flatten(LoggedAll([EnsureKernel(Some(kbase))])), []) != LiveAll([EnsureKernel(Some(kbase))])
  {
    FallbackNotReplayed([], Some(kbase));
    assert [] + [EnsureKernel(Some(kbase))] == [EnsureKernel(Some(kbase))];
  }

  lemma ThreeEscaped(a: char, b: char, c: char)
    ensures Bounded([a, b, c], MAXPATHLEN) == EscapeChar(a) + EscapeChar(b) + EscapeChar(c)
  {
    hide EscapeChar;
    var s := [a, b, c];
    assert s[..2] == [a, b] && s[..2][..1] == [a] && [a][..0] == [] && s[..3] == s;
    assert Escape([a]) == EscapeChar(a) && Escape([a, b]) == EscapeChar(a) + EscapeChar(b);
    assert s[..1] == [a] && s[..0] == [];
    assert Consumed(s, MAXPATHLEN, 2) == 3 && Consumed(s, MAXPATHLEN, 1) == 3;
  }

  /** A quote is enough to lose a mapping, and a backslash to alter it. */
  lemma {:induction false} QuoteLostBackslashDoubled()
    ensures LineSection(ImageLine(Mmap, "a\"b", 0x1000, 0)) == None
    ensures LineSection(ImageLine(Mmap, "a\\b", 0x1000, 0)) == Some(Section("a\\\\b", 0x1000, 0, Mmap))
  {
    hide LineSection, ImageLine, Bounded;
    ThreeEscaped('a', '"', 'b');
    ThreeEscaped('a', '\\', 'b');
    assert EscapeChar('a') + EscapeChar('\\') + EscapeChar('b') == "a\\\\b";
    ImageReads(Section("a\"b", 0x1000, 0, Mmap));
    ImageReads(Section("a\\b", 0x1000, 0, Mmap));
  }

  // ----- EXEC comes first, so a rewritten sidecar is faithful too

  /** A section as the live state keeps it. */
  predicate Kept(s: Section) {
    HasImage(s.kind) && s.path != "" && |s.path| < MAXPATHLEN
  }

  predicate AllKept(ss: seq<Section>) {
    forall i :: 0 <= i < |ss| ==> Kept(ss[i])
  }

  lemma {:induction false} AddAllMaps(acc: seq<Section>, ss: seq<Section>)
    requires ExecFirst(acc) && AllKept(acc) && forall i :: 0 <= i < |ss| ==> ss[i].kind.Mmap?
    ensures ExecFirst(AddAll(acc, ss)) && AllKept(AddAll(acc, ss))
  {
    if ss != [] {
      AddAllMaps(acc, ss[..|ss| - 1]);
    }
  }

  /** In every reachable state an executable can only be the first section, and no path is empty or too long. */
  lemma {:induction false} ExecComesFirst(ops: seq<Op>)
    ensures ExecFirst(LiveAll(ops)) && AllKept(LiveAll(ops))
  {
    if ops != [] {
      ExecComesFirst(ops[..|ops| - 1]);
      if ops[|ops| - 1].Seed? {
        AddAllMaps(LiveAll(ops[..|ops| - 1]), MappedAll(ops[|ops| - 1].maps));
      }
    }
  }

  lemma AddKept(ss: seq<Section>, s: Section)
    requires Kept(s)
    ensures Add(ss, s) == ss + [s]
  {
  }

  lemma {:induction false} AddAllSelf(ss: seq<Section>)
    requires AllKept(ss)
    ensures AddAll([], ss) == ss
  {
    hide Kept, Add;
    if ss != [] {
      AddAllSelf(ss[..|ss| - 1]);
      AddKept(ss[..|ss| - 1], ss[|ss| - 1]);
    }
  }

  /**
   A per-thread sidecar, written from the section list of any reachable state, the fallback kernel
   included, reads back to that list exactly when every path in it is replayable, although the reader
   discards what precedes an EXEC.
   */
  lemma {:induction false} RewriteReadsBack(ops: seq<Op>, pid: i32, tid: i32, mtc: bv8, cyc: bv8)
    ensures var lines := [HeaderLine(pid, tid)] + TimingLines(mtc, cyc) + SectionLines(LiveAll(ops));
            ReadAll(Flatten(lines), []) == LiveAll(ops) <==> AllReplayable(LiveAll(ops))
  {
    ExecComesFirst(ops);
    RewriteSections(LiveAll(ops), pid, tid, mtc, cyc);
  }

  lemma RewriteSections(ss: seq<Section>, pid: i32, tid: i32, mtc: bv8, cyc: bv8)
    requires ExecFirst(ss) && AllKept(ss)
    ensures ReadAll(Flatten([HeaderLine(pid, tid)] + TimingLines(mtc, cyc) + SectionLines(ss)), []) == ss <==> AllReplayable(ss)
  {
    hide ReadAll, ApplyLine, WholeLine, Replayable, HeaderLine, TimingLine, SectionLines;
    var head, clock, body := [HeaderLine(pid, tid)], TimingLines(mtc, cyc), SectionLines(ss);
    LoggedWhole(Start(pid, tid));
    LoggedWhole(Clock(mtc, cyc));
    SectionsWhole(ss);
    OpAgrees([], [], true, Start(pid, tid));
    OpAgrees([], [], true, Clock(mtc, cyc));
    assert AllImages(ss) by {
      assert forall i :: 0 <= i < |ss| ==> Kept(ss[i]);
    }
    SectionsAgree([], [], true, ss);
    AddAllSelf(ss);
    FoldConcat([], head, clock);
    FoldConcat([], head + clock, body);
    ReadLines(head + clock + body, "", []);
    ReadNothing(Fold([], head + clock + body));
    assert Flatten(head + clock + body) + "" == Flatten(head + clock + body);
  }

  // ----- A session with its objects

  /** One operation on a live state whose sidecar is open. */
  method Perform(ts: State, op: Op)
    requires ts.meta != null
    modifies ts, ts.meta
    ensures ts.sections == Live(old(ts.sections), op)
    ensures ts.meta.file == old(ts.meta.file) + Flatten(Logged(op))
  {
    hide HeaderLine;
    match op {
      case Start(pid, tid) =>
        FlattenOne(HeaderLine(pid, tid));
        ts.meta.Header(pid, tid);
      case Clock(mtc, cyc) =>
        ts.meta.Timing(mtc, cyc);
      case Seed(maps) =>
        ts.SeedMappings(maps);
      case Process(r) =>
        ts.ProcessRecord(r);
      case EnsureKernel(kbase) =>
        ts.AddKernel(kbase);
    }
  }

  /** A whole session and the offline reading of its sidecar. */
  method Session(ops: seq<Op>) returns (ts: State, replayed: seq<Section>)
    ensures ts.sections == LiveAll(ops) && ts.meta != null && ts.meta.file == Flatten(LoggedAll(ops))
    ensures replayed == ts.sections <==> Survives(ops)
  {
    var meta := new MetaWriter();
    ts := new State(meta);
    for k := 0 to |ops|
      invariant ts.meta == meta && fresh(ts) && fresh(meta)
      invariant ts.sections == LiveAll(ops[..k]) && meta.file == Flatten(LoggedAll(ops[..k]))
    {
      hide Live, Logged;
      Perform(ts, ops[k]);
      assert ops[..k + 1][..k] == ops[..k];
      FlattenConcat(LoggedAll(ops[..k]), Logged(ops[k]));
    }
    assert ops[..|ops|] == ops;
    replayed := ReadSections(meta.file);
    LiveEqualsReplay(ops);
  }
}
