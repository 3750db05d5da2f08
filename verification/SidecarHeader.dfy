/**
 The other readers of the sidecar (`meta_read_tid`, `meta_read_mtc_freq`, `meta_read_cyc_thresh` in
 `meta.c`): what the header and timing lines say comes back, whatever follows them.
 */
module SidecarHeader {
  import opened Common
  import opened Sections
  import opened Text
  import opened Numerals
  import opened JsonText
  import opened Meta
  import opened MetaLines
  import opened TraceState
  import opened Replay

  const SHORT_BUFFER := 256

  // ----- `sscanf` of decimal numbers

  /** Optional blanks and sign, then digits. */
  function ScanInt(s: string): Option<(int, string)> {
    var t := SkipSpaces(s);
    var minus := t != "" && t[0] == '-';
    var u := if t != "" && (t[0] == '-' || t[0] == '+') then t[1..] else t;
    var n := DigitRun(u, Ten);
    if n == 0 then None else Some((if minus then 0 - Value(u[..n], Ten) else Value(u[..n], Ten), u[n..]))
  }

  const TWO63: int := 0x8000_0000_0000_0000

  /** `%d`: the 64-bit conversion saturates, then the low 32 bits are kept. */
  function ToInt(x: int): i32 {
    var y := if x >= TWO63 then TWO63 - 1 else if x < -TWO63 then -TWO63 else x;
    var low := y % 0x1_0000_0000;
    if low >= 0x8000_0000 then low - 0x1_0000_0000 else low
  }

  /** `%u`, returned as an `int`. */
  function ToUnsigned(x: int): i32 {
    var y := if x >= TWO64 || x <= -TWO64 then TWO64 - 1 else x % TWO64;
    var low := y % 0x1_0000_0000;
    if low >= 0x8000_0000 then low - 0x1_0000_0000 else low
  }

  function ScanTid(line: string): Option<i32> {
    var s1 :- Literal(line, "{\"type\":\"header\",\"pid\":");
    var (_, s2) :- ScanInt(s1);
    var s3 :- Literal(s2, ",\"tid\":");
    var (tid, _) :- ScanInt(s3);
    Some(ToInt(tid))
  }

  const TIMING := "{\"type\":\"timing\",\"mtc_freq\":"

  function ScanMtc(line: string): Option<i32> {
    var s1 :- Literal(line, TIMING);
    var (mtc, _) :- ScanInt(s1);
    Some(ToUnsigned(mtc))
  }

  function ScanCyc(line: string): Option<i32> {
    var s1 :- Literal(line, TIMING);
    var (_, s2) :- ScanInt(s1);
    var s3 :- Literal(s2, ",\"cyc_thresh\":");
    var (cyc, _) :- ScanInt(s3);
    Some(ToUnsigned(cyc))
  }

  // ----- The readers

  /** `meta_read_tid`: the first line only. */
  method ReadTid(file: string) returns (tid: int)
    ensures tid == if file == "" then -1
                   else match ScanTid(file[..LineLength(file, SHORT_BUFFER)]) case Some(t) => t as int case None => -1
  {
    if file == "" {
      return -1;
    }
    var found := ScanTid(file[..LineLength(file, SHORT_BUFFER)]);
    return if found.Some? then found.value else -1;
  }

  /** The first line, as `fgets` cuts them, that scans. */
  function FirstScan(file: string, scan: string -> Option<i32>): Option<i32>
    decreases |file|
  {
    if file == "" then None
    else
      var n := LineLength(file, SHORT_BUFFER);
      match scan(file[..n])
      case Some(x) => Some(x)
      case None => FirstScan(file[n..], scan)
  }

  /** `meta_read_mtc_freq`. */
  method ReadMtcFreq(file: string) returns (mtc: int)
    ensures mtc == match FirstScan(file, ScanMtc) case Some(x) => x as int case None => 0
  {
    var rest := file;
    while rest != ""
      invariant FirstScan(rest, ScanMtc) == FirstScan(file, ScanMtc)
      decreases |rest|
    {
      var n := LineLength(rest, SHORT_BUFFER);
      var found := ScanMtc(rest[..n]);
      if found.Some? {
        return found.value;
      }
      rest := rest[n..];
    }
    return 0;
  }

  /** `meta_read_cyc_thresh`. */
  method ReadCycThresh(file: string) returns (cyc: int)
    ensures cyc == match FirstScan(file, ScanCyc) case Some(x) => x as int case None => 0
  {
    var rest := file;
    while rest != ""
      invariant FirstScan(rest, ScanCyc) == FirstScan(file, ScanCyc)
      decreases |rest|
    {
      var n := LineLength(rest, SHORT_BUFFER);
      var found := ScanCyc(rest[..n]);
      if found.Some? {
        return found.value;
      }
      rest := rest[n..];
    }
    return 0;
  }

  // ----- Scanning what was printed

  lemma DigitsScanned(x: nat, rest: string)
    requires Ends(rest, Ten)
    ensures var s, n := Numeral(x, Ten) + rest, |Numeral(x, Ten)|;
            n > 0 && DigitRun(s, Ten) == n && Value(s[..n], Ten) == x && s[n..] == rest
            && IsDigit(s[0], Ten)
  {
    var digits := Numeral(x, Ten);
    assert digits[0] in digits;
    DigitRunStops(digits, rest, Ten);
    assert (digits + rest)[..|digits|] == digits && (digits + rest)[|digits|..] == rest;
    ValueNumeral(x, Ten);
  }

  lemma NoSpace(s: string)
    requires s != "" && !IsSpace(s[0])
    ensures SkipSpaces(s) == s
  {
  }

  lemma DigitPlain(c: char)
    requires IsDigit(c, Ten)
    ensures c != '-' && c != '+' && !IsSpace(c)
  {
  }

  lemma Prefixed(head: string, body: string, rest: string)
    requires |head| == 1
    ensures (head + body + rest)[0] == head[0] && (head + body + rest)[1..] == body + rest
  {
  }

  lemma DecScanned(n: i32, rest: string)
    requires Ends(rest, Ten)
    ensures var s := Dec(n) + rest;
            && s != "" && !IsSpace(s[0])
            && if (n as int) < 0 then s[0] == '-' && s[1..] == Numeral(-(n as int), Ten) + rest
               else s[0] != '-' && s[0] != '+' && s == Numeral(n, Ten) + rest
  {
    hide Numeral, Value, DigitRun, Ends, IsDigit, AllDigits;
    if (n as int) < 0 {
      Prefixed("-", Numeral(-(n as int), Ten), rest);
    } else {
      DigitsScanned(n, rest);
      DigitPlain((Numeral(n, Ten) + rest)[0]);
    }
  }

  lemma ScanIntPrinted(n: i32, rest: string)
    requires Ends(rest, Ten)
    ensures ScanInt(Dec(n) + rest) == Some((n as int, rest))
  {
    hide Numeral, Value, DigitRun, SkipSpaces, Dec, IsSpace, IsDigit;
    DecScanned(n, rest);
    DigitsScanned(if (n as int) < 0 then -(n as int) else n, rest);
    NoSpace(Dec(n) + rest);
  }

  lemma ScanSmallPrinted(n: bv8, rest: string)
    requires Ends(rest, Ten)
    ensures ScanInt(Numeral(n as nat, Ten) + rest) == Some((n as int, rest))
  {
    hide ScanInt, Numeral;
    ScanIntPrinted(n as int, rest);
  }

  lemma IntKept(i: i32)
    ensures ToInt(i) == i
  {
  }

  lemma SmallKept(x: int)
    requires 0 <= x < 256
    ensures ToUnsigned(x) == x
  {
  }

  lemma TidScanned(pid: i32, tid: i32)
    ensures ScanTid(HeaderLine(pid, tid)) == Some(tid)
  {
    hide ScanInt, Dec, ToInt;
    var tail := ",\"tid\":" + Dec(tid) + "}\n";
    var head := "{\"type\":\"header\",\"pid\":";
    LiteralAfter(head, Dec(pid) + tail);
    assert head + (Dec(pid) + tail) == HeaderLine(pid, tid);
    ScanIntPrinted(pid, tail);
    LiteralAfter(",\"tid\":", Dec(tid) + "}\n");
    assert ",\"tid\":" + (Dec(tid) + "}\n") == tail;
    ScanIntPrinted(tid, "}\n");
    IntKept(tid);
  }

  lemma TimingScanned(mtc: bv8, cyc: bv8)
    ensures ScanMtc(TimingLine(mtc, cyc)) == Some(mtc as int)
    ensures ScanCyc(TimingLine(mtc, cyc)) == Some(cyc as int)
  {
    hide ScanInt, Numeral, ToUnsigned, Literal;
    var m, c := Numeral(mtc as nat, Ten), Numeral(cyc as nat, Ten);
    var tail := ",\"cyc_thresh\":" + c + "}\n";
    TimingPieces(m, c);
    LiteralAfter(TIMING, m + tail);
    ScanSmallPrinted(mtc, tail);
    LiteralAfter(",\"cyc_thresh\":", c + "}\n");
    ScanSmallPrinted(cyc, "}\n");
    SmallKept(mtc as int);
    SmallKept(cyc as int);
  }

  lemma TimingPieces(m: string, c: string)
    ensures TIMING + (m + (",\"cyc_thresh\":" + c + "}\n"))
         == "{\"type\":\"" + "timing" + ("\",\"mtc_freq\":" + (m + ",\"cyc_thresh\":" + c + "}\n"))
    ensures ",\"cyc_thresh\":" + (c + "}\n") == ",\"cyc_thresh\":" + c + "}\n"
  {
  }

  // ----- No other line looks like a timing line, wherever a short buffer cuts it

  /** Nowhere inside does the text of a timing line begin. */
  ghost predicate Quiet(line: string) {
    forall o :: 0 <= o < |line| ==> !TimingAt(line, o)
  }

  predicate TimingAt(line: string, o: nat)
    requires o < |line|
  {
    o + 10 < |line| && line[o] == '{' && line[o + 1] == '"' && line[o + 2] == 't' && line[o + 9] == 't' && line[o + 10] == 'i'
  }

  lemma QuietNoScan(line: string, o: nat, n: nat)
    requires Quiet(line) && o < o + n <= |line|
    ensures ScanMtc(line[o..o + n]).None? && ScanCyc(line[o..o + n]).None?
  {
    var piece := line[o..o + n];
    assert !TimingAt(line, o);
    assert forall i :: 0 <= i < n ==> piece[i] == line[o + i];
    assert TIMING[0] == '{' && TIMING[1] == '"' && TIMING[2] == 't' && TIMING[9] == 't' && TIMING[10] == 'i';
    if n > 10 {
      assert piece[0] == line[o] && piece[1] == line[o + 1] && piece[2] == line[o + 2] && piece[9] == line[o + 9] && piece[10] == line[o + 10];
    }
  }

  /** An image line: a brace and a quote stand together only at its start and perhaps where the path ends. */
  lemma ImageQuiet(k: Kind, path: string, addr: u64, base: u64)
    ensures Quiet(ImageLine(k, path, addr, base))
  {
    hide Bounded;
    var e := Bounded(path, MAXPATHLEN);
    var head, tail := "{\"type\":\"" + Word(k) + "\",\"path\":\"", AddrPart(addr, base);
    EscapeQuotes(path[..Consumed(path, MAXPATHLEN, 0)]);
    assert QuotesEscaped(e) by {
      BoundedIsEscape(path);
    }
    assert ImageLine(k, path, addr, base) == head + e + tail;
    HeadQuiet(k);
    TailQuiet(addr, base);
    PiecesQuiet(head, e, tail);
  }

  lemma BoundedIsEscape(path: string)
    ensures Bounded(path, MAXPATHLEN) == Escape(path[..Consumed(path, MAXPATHLEN, 0)])
  {
  }

  lemma HeadQuiet(k: Kind)
    ensures var head := "{\"type\":\"" + Word(k) + "\",\"path\":\"";
            |head| > 10 && head[9] != 't' && head[|head| - 1] != '{' && forall i :: 0 < i < |head| ==> head[i] != '{'
  {
  }

  lemma TailQuiet(addr: u64, base: u64)
    ensures var tail := AddrPart(addr, base); |tail| > 2 && tail[0] == '"' && tail[1] == ',' && '{' !in tail
  {
    hide Numeral;
    HexNoBrace(addr);
    HexNoBrace(base);
  }

  lemma HexNoBrace(n: u64)
    ensures '{' !in Hex(n)
  {
    assert forall c :: c in Hex(n) ==> IsDigit(c, Sixteen);
  }

  lemma PiecesQuiet(head: string, e: string, tail: string)
    requires |head| > 10 && head[9] != 't' && head[|head| - 1] != '{' && forall i :: 0 < i < |head| ==> head[i] != '{'
    requires QuotesEscaped(e)
    requires |tail| > 2 && tail[0] == '"' && tail[1] == ',' && '{' !in tail
    ensures Quiet(head + e + tail)
  {
    var line := head + e + tail;
    forall o | 0 <= o < |line|
      ensures !TimingAt(line, o)
    {
      if o == 0 {
        assert line[9] == head[9];
      } else if o < |head| {
        assert line[o] == head[o];
      } else if o < |head| + |e| {
        assert line[o] == e[o - |head|];
        if o + 1 < |head| + |e| {
          assert line[o + 1] == e[o + 1 - |head|];
        } else {
          assert line[o + 2] == tail[1];
        }
      } else {
        assert line[o] == tail[o - |head| - |e|] && tail[o - |head| - |e|] in tail;
      }
    }
  }

  /** The other lines have a brace at the start only, and another word after it. */
  lemma OneBraceQuiet(line: string)
    requires |line| > 10 && '{' !in line[1..] && (line[9] != 't' || line[10] != 'i')
    ensures Quiet(line)
  {
    assert forall o :: 0 < o < |line| ==> line[o] == line[1..][o - 1];
  }

  lemma DecNoBrace(n: i32)
    ensures '{' !in Dec(n)
  {
    var x: int := n;
    var digits := Numeral(if x < 0 then -x else x, Ten);
    assert forall c :: c in digits ==> IsDigit(c, Ten);
  }

  lemma HeaderQuiet(pid: i32, tid: i32)
    ensures Quiet(HeaderLine(pid, tid)) && |HeaderLine(pid, tid)| < SHORT_BUFFER
  {
    hide Dec, Quiet;
    DecNoBrace(pid);
    DecNoBrace(tid);
    DecimalText(pid);
    DecimalText(tid);
    OneBraceQuiet(HeaderLine(pid, tid));
  }

  lemma ThreadQuiet(word: string, tid: i32)
    requires word == "thread_create" || word == "thread_set_name"
    ensures Quiet(ThreadLine(word, tid))
  {
    hide Dec, Quiet;
    DecNoBrace(tid);
    OneBraceQuiet(ThreadLine(word, tid));
  }

  lemma TimingShort(mtc: bv8, cyc: bv8)
    ensures WholeLine(TimingLine(mtc, cyc)) && |TimingLine(mtc, cyc)| < SHORT_BUFFER
  {
    hide WholeLine, Numeral;
    TimingLineWhole(mtc, cyc);
    DecLength(mtc as nat, 10);
    DecLength(cyc as nat, 10);
  }

  // ----- Skipping lines

  ghost predicate Silent(line: string, scan: string -> Option<i32>) {
    forall o, e :: 0 <= o < e <= |line| ==> scan(line[o..e]).None?
  }

  lemma NewlineStops(file: string, k: nat)
    requires k < |file| && file[k] == '\n'
    ensures LineLength(file, SHORT_BUFFER) <= k + 1
  {
    var n := LineLength(file, SHORT_BUFFER);
    assert forall j :: 0 <= j < n - 1 ==> file[..n - 1][j] == file[j];
  }

  lemma Unscanned(file: string, scan: string -> Option<i32>)
    requires file != "" && scan(file[..LineLength(file, SHORT_BUFFER)]).None?
    ensures FirstScan(file, scan) == FirstScan(file[LineLength(file, SHORT_BUFFER)..], scan)
  {
  }

  /** A line that nothing in scans is skipped, in as many pieces as the buffer cuts it. */
  lemma {:induction false} LineSkipped(line: string, o: nat, rest: string, scan: string -> Option<i32>)
    requires WholeLine(line) && Silent(line, scan) && o <= |line|
    ensures FirstScan(line[o..] + rest, scan) == FirstScan(rest, scan)
    decreases |line| - o
  {
    hide FirstScan;
    var file := line[o..] + rest;
    if o < |line| {
      assert file[|line| - 1 - o] == '\n';
      NewlineStops(file, |line| - 1 - o);
      var n := LineLength(file, SHORT_BUFFER);
      assert file[..n] == line[o..o + n] && file[n..] == line[o + n..] + rest;
      Unscanned(file, scan);
      LineSkipped(line, o + n, rest, scan);
    } else {
      assert file == rest;
    }
  }

  lemma {:induction false} LinesSkipped(lines: seq<string>, rest: string, scan: string -> Option<i32>)
    requires forall l :: l in lines ==> WholeLine(l) && Silent(l, scan)
    ensures FirstScan(Flatten(lines) + rest, scan) == FirstScan(rest, scan)
  {
    hide WholeLine, Silent, FirstScan;
    if lines == [] {
      assert Flatten(lines) + rest == rest;
    } else {
      var front, last := lines[..|lines| - 1], lines[|lines| - 1];
      assert Flatten(lines) + rest == Flatten(front) + (last + rest);
      LinesSkipped(front, last + rest, scan);
      LineSkipped(last, 0, rest, scan);
      assert last[0..] == last;
    }
  }

  lemma QuietSilent(line: string)
    requires Quiet(line)
    ensures Silent(line, ScanMtc) && Silent(line, ScanCyc)
  {
    hide Quiet, ScanMtc, ScanCyc;
    forall o, e | 0 <= o < e <= |line|
      ensures ScanMtc(line[o..e]).None? && ScanCyc(line[o..e]).None?
    {
      QuietNoScan(line, o, e - o);
      assert line[o..o + (e - o)] == line[o..e];
    }
  }

  lemma WholeLineRead(line: string, rest: string)
    requires WholeLine(line) && |line| < SHORT_BUFFER
    ensures line + rest != "" && LineLength(line + rest, SHORT_BUFFER) == |line| && (line + rest)[..|line|] == line
  {
    var file := line + rest;
    assert file[|line| - 1] == '\n';
    NewlineStops(file, |line| - 1);
    assert forall i :: 0 <= i < |line| - 1 ==> file[i] == line[..|line| - 1][i];
  }

  /** What the writer puts after the timing line: images and threads. */
  ghost predicate Others(lines: seq<string>) {
    forall l :: l in lines ==> WholeLine(l) && Quiet(l)
  }

  lemma {:induction false} SectionsOthers(ss: seq<Section>)
    ensures Others(SectionLines(ss))
  {
    hide WholeLine, Quiet, ImageLine;
    if ss != [] {
      var last := ss[|ss| - 1];
      SectionsOthers(ss[..|ss| - 1]);
      ImageLineWhole(last.kind, last.path, last.load, last.base);
      ImageQuiet(last.kind, last.path, last.load, last.base);
    }
  }

  lemma OpOthers(op: Op)
    requires !op.Clock?
    ensures Others(Logged(op))
  {
    hide WholeLine, Quiet, ImageLine, HeaderLine, ThreadLine;
    LoggedWhole(op);
    match op
    case Start(pid, tid) => HeaderQuiet(pid, tid);
    case Seed(maps) => SectionsOthers(MappedAll(maps));
    case Process(r) =>
      ImageQuiet(r.kind, r.path, r.addr, r.base);
      ThreadQuiet("thread_create", r.tid);
      ThreadQuiet("thread_set_name", r.tid);
    case EnsureKernel(_) =>
  }

  lemma {:induction false} OpsOthers(ops: seq<Op>)
    requires forall i :: 0 <= i < |ops| ==> !ops[i].Clock?
    ensures Others(LoggedAll(ops))
  {
    hide Logged, WholeLine, Quiet;
    if ops != [] {
      OpsOthers(ops[..|ops| - 1]);
      OpOthers(ops[|ops| - 1]);
    }
  }

  // ----- What comes back

  lemma TimingFound(mtc: bv8, cyc: bv8, rest: string)
    ensures FirstScan(TimingLine(mtc, cyc) + rest, ScanMtc) == Some(mtc as int)
    ensures FirstScan(TimingLine(mtc, cyc) + rest, ScanCyc) == Some(cyc as int)
  {
    hide ScanMtc, ScanCyc, TimingLine, WholeLine;
    TimingShort(mtc, cyc);
    WholeLineRead(TimingLine(mtc, cyc), rest);
    TimingScanned(mtc, cyc);
  }

  lemma {:induction false} TimingReads(pid: i32, tid: i32, mtc: bv8, cyc: bv8, lines: seq<string>, scan: string -> Option<i32>, x: bv8)
    requires Others(lines)
    requires (scan == ScanMtc && x == mtc) || (scan == ScanCyc && x == cyc)
    ensures FirstScan(Flatten([HeaderLine(pid, tid)] + TimingLines(mtc, cyc) + lines), scan)
         == if mtc == 0 && cyc == 0 then None else Some(x as int)
  {
    hide WholeLine, Quiet, Silent, FirstScan, HeaderLine, TimingLine, ScanMtc, ScanCyc;
    var head, clock := [HeaderLine(pid, tid)], TimingLines(mtc, cyc);
    LoggedWhole(Start(pid, tid));
    HeaderQuiet(pid, tid);
    QuietSilent(HeaderLine(pid, tid));
    forall l | l in lines
      ensures WholeLine(l) && Silent(l, scan)
    {
      QuietSilent(l);
    }
    FlattenConcat(head, clock);
    FlattenConcat(head + clock, lines);
    assert Flatten(head + clock + lines) == Flatten(head) + (Flatten(clock) + Flatten(lines));
    LinesSkipped(head, Flatten(clock) + Flatten(lines), scan);
    if mtc == 0 && cyc == 0 {
      assert Flatten(clock) + Flatten(lines) == Flatten(lines) + "";
      LinesSkipped(lines, "", scan);
      NothingScanned(scan);
    } else {
      FlattenOne(TimingLine(mtc, cyc));
      TimingFound(mtc, cyc, Flatten(lines));
    }
  }

  lemma NothingScanned(scan: string -> Option<i32>)
    ensures FirstScan("", scan) == None
  {
  }

  /** The first line gives the thread back, whatever follows. */
  lemma {:induction false} TidReads(pid: i32, tid: i32, lines: seq<string>)
    ensures var file := Flatten([HeaderLine(pid, tid)] + lines);
            file != "" && ScanTid(file[..LineLength(file, SHORT_BUFFER)]) == Some(tid)
  {
    hide WholeLine, HeaderLine, ScanTid;
    FlattenConcat([HeaderLine(pid, tid)], lines);
    FlattenOne(HeaderLine(pid, tid));
    LoggedWhole(Start(pid, tid));
    HeaderQuiet(pid, tid);
    WholeLineRead(HeaderLine(pid, tid), Flatten(lines));
    TidScanned(pid, tid);
  }

  /**
   A per-thread sidecar with any sections: the three readers give back the thread and both timing
   values, zeros that were not written included.
   */
  method RewriteAndRead(pid: i32, tid: i32, mtc: bv8, cyc: bv8, ss: seq<Section>) returns (t: int, m: int, c: int)
    ensures t == tid && m == mtc as int && c == cyc as int
  {
    hide HeaderLine, TimingLine, TimingLines, SectionLines, Flatten, FirstScan, ScanTid, ScanMtc, ScanCyc;
    var meta := new MetaWriter();
    meta.Header(pid, tid);
    meta.Timing(mtc, cyc);
    meta.LogSections(ss);
    ghost var head, clock, lines := [HeaderLine(pid, tid)], TimingLines(mtc, cyc), SectionLines(ss);
    FlattenOne(HeaderLine(pid, tid));
    FlattenConcat(head, clock);
    FlattenConcat(head + clock, lines);
    assert meta.file == Flatten(head + clock + lines);
    assert head + clock + lines == head + (clock + lines);
    SectionsOthers(ss);
    TidReads(pid, tid, clock + lines);
    TimingReads(pid, tid, mtc, cyc, lines, ScanMtc, mtc);
    TimingReads(pid, tid, mtc, cyc, lines, ScanCyc, cyc);
    t := ReadTid(meta.file);
    m := ReadMtcFreq(meta.file);
    c := ReadCycThresh(meta.file);
  }

  /** The same of the primary sidecar: header, timing, and then whatever the session records. */
  lemma {:induction false} SessionReads(pid: i32, tid: i32, mtc: bv8, cyc: bv8, ops: seq<Op>)
    requires forall i :: 0 <= i < |ops| ==> !ops[i].Clock?
    ensures var file := Flatten([HeaderLine(pid, tid)] + TimingLines(mtc, cyc) + LoggedAll(ops));
            && file != "" && ScanTid(file[..LineLength(file, SHORT_BUFFER)]) == Some(tid)
            && FirstScan(file, ScanMtc) == (if mtc == 0 && cyc == 0 then None else Some(mtc as int))
            && FirstScan(file, ScanCyc) == (if mtc == 0 && cyc == 0 then None else Some(cyc as int))
  {
    hide HeaderLine, TimingLine, TimingLines, ScanTid, ScanMtc, ScanCyc, FirstScan, LoggedAll, Flatten, Others, LineLength;
    var head, clock, lines := [HeaderLine(pid, tid)], TimingLines(mtc, cyc), LoggedAll(ops);
    assert head + clock + lines == head + (clock + lines);
    OpsOthers(ops);
    TidReads(pid, tid, clock + lines);
    TimingReads(pid, tid, mtc, cyc, lines, ScanMtc, mtc);
    TimingReads(pid, tid, mtc, cyc, lines, ScanCyc, cyc);
  }

  /** Records of threads are kept, in a line of their own, with the thread's number. */
  lemma {:induction false} ThreadLines(r: Record)
    requires r.kind == ThreadCreate || r.kind == ThreadSetName
    ensures var word := if r.kind == ThreadCreate then "thread_create" else "thread_set_name";
            |RecordLines(r)| == 1 && ScanThread(RecordLines(r)[0], word) == Some(r.tid)
  {
    hide ScanInt, Dec, ToInt, Literal;
    var word := if r.kind == ThreadCreate then "thread_create" else "thread_set_name";
    var rest := "\",\"tid\":" + (Dec(r.tid) + "}\n");
    assert ThreadLine(word, r.tid) == "{\"type\":\"" + (word + rest);
    LiteralAfter("{\"type\":\"", word + rest);
    LiteralAfter(word, rest);
    LiteralAfter("\",\"tid\":", Dec(r.tid) + "}\n");
    ScanIntPrinted(r.tid, "}\n");
    IntKept(r.tid);
  }

  /** A line of this kind, read as the header is. */
  function ScanThread(line: string, word: string): Option<i32> {
    var s1 :- Literal(line, "{\"type\":\"");
    var s2 :- Literal(s1, word);
    var s3 :- Literal(s2, "\",\"tid\":");
    var (tid, _) :- ScanInt(s3);
    Some(ToInt(tid))
  }
}
