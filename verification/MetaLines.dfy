/** Each line the sidecar writer produces, read back by the sidecar reader. */
module MetaLines {
  import opened Common
  import opened Sections
  import opened Text
  import opened Numerals
  import opened JsonText
  import opened Meta

  // ----- Scanning what was printed

  lemma LiteralAfter(lit: string, rest: string)
    ensures Literal(lit + rest, lit) == Some(rest)
  {
  }

  lemma ScanSetStops(x: string, rest: string, max: nat)
    requires x != "" && '"' !in x && |x| <= max && rest != "" && rest[0] == '"'
    ensures ScanSet(x + rest, max) == Some((x, rest))
  {
    assert x + rest == x + ['"'] + rest[1..];
    FindAfter(x, '"', rest[1..]);
    assert (x + rest)[..|x|] == x && (x + rest)[|x|..] == rest;
  }

  lemma {:induction false} ScanHexPrinted(n: u64, rest: string)
    requires rest != "" && rest[0] == '"'
    ensures ScanHex(Hex(n) + rest) == Some((n, rest))
  {
    var x := Hex(n);
    var s := x + rest;
    NumeralHead(n, Sixteen);
    assert x[0] in x && IsDigit(x[0], Sixteen);
    assert SkipSpaces(s) == s;
    assert |x| > 1 ==> s[1] == x[1] && x[1] in x && IsDigit(x[1], Sixteen);
    DigitRunStops(x, rest, Sixteen);
    assert s[..|x|] == x && s[|x|..] == rest;
    ValueNumeral(n, Sixteen);
  }

  lemma ScanTail(addr: u64, base: u64)
    ensures ScanHex(Hex(addr) + BasePart(base)) == Some((addr, BasePart(base)))
    ensures Literal(BasePart(base), "\",\"base\":\"0x") == Some(Hex(base) + "\"}\n")
    ensures ScanHex(Hex(base) + "\"}\n") == Some((base, "\"}\n"))
  {
    assert BasePart(base)[0] == '"';
    ScanHexPrinted(addr, BasePart(base));
    LiteralAfter("\",\"base\":\"0x", Hex(base) + "\"}\n");
    assert "\",\"base\":\"0x" + Hex(base) + "\"}\n" == "\",\"base\":\"0x" + (Hex(base) + "\"}\n");
    ScanHexPrinted(base, "\"}\n");
  }

  lemma ScanAddr(addr: u64, base: u64)
    ensures Literal(AddrPart(addr, base), "\",\"addr\":\"0x") == Some(Hex(addr) + BasePart(base))
    ensures AddrPart(addr, base) != "" && AddrPart(addr, base)[0] == '"'
  {
    LiteralAfter("\",\"addr\":\"0x", Hex(addr) + BasePart(base));
    assert "\",\"addr\":\"0x" + Hex(addr) + BasePart(base) == "\",\"addr\":\"0x" + (Hex(addr) + BasePart(base));
  }

  /** Up to the path, every line with an image scans alike. */
  lemma ScanWord(word: string, tail: string)
    requires word != "" && '"' !in word && |word| <= 31 && tail != "" && tail[0] == '"'
    ensures Literal("{\"type\":\"" + word + tail, "{\"type\":\"") == Some(word + tail)
    ensures ScanSet(word + tail, 31) == Some((word, tail))
  {
    assert "{\"type\":\"" + word + tail == "{\"type\":\"" + (word + tail);
    LiteralAfter("{\"type\":\"", word + tail);
    ScanSetStops(word, tail, 31);
  }

  lemma ScanPath(epath: string, addr: u64, base: u64)
    ensures Literal(PathPart(epath, addr, base), "\",\"path\":\"") == Some(epath + AddrPart(addr, base))
    ensures PathPart(epath, addr, base) != "" && PathPart(epath, addr, base)[0] == '"'
  {
    LiteralAfter("\",\"path\":\"", epath + AddrPart(addr, base));
    assert "\",\"path\":\"" + epath + AddrPart(addr, base) == "\",\"path\":\"" + (epath + AddrPart(addr, base));
  }

  /** A path without quotes is read exactly as it was written. */
  lemma {:induction false} ScanImage(word: string, epath: string, addr: u64, base: u64)
    requires word != "" && '"' !in word && |word| <= 31
    requires epath != "" && '"' !in epath && |epath| < MAXPATHLEN
    ensures ScanLine(ImageText(word, epath, addr, base)) == Some((word, epath, addr, base))
  {
    var tail := PathPart(epath, addr, base);
    ScanPath(epath, addr, base);
    ScanWord(word, tail);
    ScanAddr(addr, base);
    ScanSetStops(epath, AddrPart(addr, base), MAXPATHLEN - 1);
    ScanTail(addr, base);
  }

  /** Every quote follows a backslash, as in all escaped text. */
  predicate QuotesEscaped(s: string) {
    forall p :: 0 <= p < |s| && s[p] == '"' ==> p > 0 && s[p - 1] == '\\'
  }

  lemma {:induction false} EscapeQuotes(s: string)
    ensures QuotesEscaped(Escape(s))
  {
    if s != "" {
      EscapeQuotes(s[..|s| - 1]);
    }
  }

  /** A path with a quote breaks the scan: no closing quote ever stands where the reader wants one. */
  lemma ScanQuotedPath(word: string, epath: string, addr: u64, base: u64)
    requires word != "" && '"' !in word && |word| <= 31
    requires '"' in epath && QuotesEscaped(epath) && |epath| < MAXPATHLEN
    ensures ScanLine(ImageText(word, epath, addr, base)).None?
  {
    hide ScanHex, Hex, BasePart;
    ScanPath(epath, addr, base);
    ScanWord(word, PathPart(epath, addr, base));
    QuotedTail(epath, AddrPart(addr, base));
  }

  lemma QuotedTail(epath: string, tail: string)
    requires '"' in epath && QuotesEscaped(epath) && |epath| < MAXPATHLEN
    requires "\",\"addr" <= tail
    ensures var found := ScanSet(epath + tail, MAXPATHLEN - 1);
            found.Some? && Literal(found.value.1, "\",\"addr\":\"0x").None?
  {
    var s := epath + tail;
    var k := Find(s, '"');
    assert forall j :: 0 <= j < k ==> s[..k][j] == s[j];
    assert forall p :: 0 <= p < |epath| ==> s[p] == epath[p];
    var rest, lit := s[k..], "\",\"addr\":\"0x";
    assert lit[1] == ',' && lit[2] == '"' && lit[3] == 'a';
    if k + 1 == |epath| {
      assert rest[1] == tail[0];
    } else if k + 2 == |epath| {
      assert rest[3] == tail[1];
    } else {
      assert rest[1] == epath[k + 1] && rest[2] == epath[k + 2];
    }
  }

  /** A word of more than 31 characters, or a path of more than 1023, leaves the scan short of the closing quote. */
  lemma {:induction false} ScanTooLong(word: string, epath: string, addr: u64, base: u64)
    requires word != "" && '"' !in word && epath != "" && '"' !in epath
    requires |word| > 31 || |epath| > 1023
    ensures ScanLine(ImageText(word, epath, addr, base)).None?
  {
    hide ScanHex, AddrPart;
    var tail := PathPart(epath, addr, base);
    ScanPath(epath, addr, base);
    assert "{\"type\":\"" + word + tail == "{\"type\":\"" + (word + tail);
    LiteralAfter("{\"type\":\"", word + tail);
    if |word| > 31 {
      SetCut(word, tail, 31, "\",\"path\":\"");
    } else {
      ScanWord(word, tail);
      SetCut(epath, AddrPart(addr, base), 1023, "\",\"addr\":\"0x");
    }
  }

  lemma SetCut(x: string, rest: string, max: nat, lit: string)
    requires '"' !in x && |x| > max > 0 && lit != "" && lit[0] == '"'
    ensures var r := ScanSet(x + rest, max); r.Some? && Literal(r.value.1, lit).None?
  {
    var s := x + rest;
    assert forall i :: 0 <= i < |x| ==> s[i] == x[i];
    assert Find(s, '"') >= |x|;
    assert s[max..][0] == x[max];
  }

  /** A line that goes on with another field than the path is not an image. */
  lemma ScanNoPath(word: string, field: string, rest: string, i: nat)
    requires word != "" && '"' !in word && |word| <= 31
    requires i < |field| && i < 10 && field[0] == '"' && field[i] != "\",\"path\":\""[i]
    ensures ScanLine("{\"type\":\"" + word + (field + rest)).None?
  {
    var tail := field + rest;
    assert tail[0] == field[0] && tail[i] == field[i];
    ScanWord(word, tail);
  }

  /** An empty path stops the scan. */
  lemma {:induction false} ScanEmptyPath(word: string, addr: u64, base: u64)
    requires word != "" && '"' !in word && |word| <= 31
    ensures ScanLine(ImageText(word, "", addr, base)).None?
  {
    ScanPath("", addr, base);
    ScanWord(word, PathPart("", addr, base));
    ScanAddr(addr, base);
    assert "" + AddrPart(addr, base) == AddrPart(addr, base);
    assert Find(AddrPart(addr, base), '"') == 0;
  }

  lemma {:induction false} HeaderIgnored(pid: i32, tid: i32)
    ensures LineSection(HeaderLine(pid, tid)).None?
  {
    ScanNoPath("header", "\",\"pid\":", Dec(pid) + ",\"tid\":" + Dec(tid) + "}\n", 4);
  }

  lemma {:induction false} TimingIgnored(mtc: bv8, cyc: bv8)
    ensures LineSection(TimingLine(mtc, cyc)).None?
  {
    ScanNoPath("timing", "\",\"mtc_freq\":", Numeral(mtc as nat, Ten) + ",\"cyc_thresh\":" + Numeral(cyc as nat, Ten) + "}\n", 3);
  }

  lemma {:induction false} ThreadIgnored(word: string, tid: i32)
    requires word != "" && '"' !in word && |word| <= 31
    ensures LineSection(ThreadLine(word, tid)).None?
  {
    ScanNoPath(word, "\",\"tid\":", Dec(tid) + "}\n", 3);
  }

  // ----- Which paths survive

  /** Short enough not to be cut, and nothing to escape. */
  predicate Clean(path: string) {
    AllPlain(path) && |path| <= 1017
  }

  /**
   The odd family: plain characters and then nothing but backslashes, of just the length at which
   the doubled backslashes fill the buffer.
   */
  predicate Saturated(path: string) {
    exists k :: 0 <= k < |path| && SaturatedAt(path, k)
  }

  predicate SaturatedAt(path: string, k: nat)
    requires k < |path|
  {
    && k < 1017 && AllPlain(path[..k]) && AllBackslashes(path[k..])
    && |path| == if k % 2 == 1 then 1017 else 1018
  }

  predicate AllBackslashes(s: string) {
    forall i :: 0 <= i < |s| ==> s[i] == '\\'
  }

  lemma {:induction false} EscapeBackslashes(s: string)
    requires AllBackslashes(s)
    ensures |Escape(s)| == 2 * |s| && AllBackslashes(Escape(s))
  {
    if s != "" {
      EscapeBackslashes(s[..|s| - 1]);
    }
  }

  /** A plain head of up to 1017 characters is always written. */
  lemma HeadConsumed(path: string, k: nat)
    requires k <= |path| && k <= 1017 && AllPlain(path[..k])
    ensures Consumed(path, MAXPATHLEN, 0) >= k
  {
    hide Consumed, Escape, Plain;
    var n := Consumed(path, MAXPATHLEN, 0);
    if n < k {
      assert path[..n] == path[..k][..n];
      EscapePlain(path[..n]);
    }
  }

  lemma CleanBounded(path: string)
    requires Clean(path)
    ensures Bounded(path, MAXPATHLEN) == path
  {
    assert path[..|path|] == path;
    HeadConsumed(path, |path|);
    EscapePlain(path);
  }

  /** The escape of a plain head followed by backslashes. */
  lemma EscapeMixed(path: string, k: nat, n: nat)
    requires k <= n <= |path| && AllPlain(path[..k]) && AllBackslashes(path[k..n])
    ensures |Escape(path[..n])| == k + 2 * (n - k)
    ensures Escape(path[..n])[..k] == path[..k]
    ensures AllBackslashes(Escape(path[..n])[k..])
  {
    assert path[..n] == path[..k] + path[k..n];
    EscapeConcat(path[..k], path[k..n]);
    EscapePlain(path[..k]);
    EscapeBackslashes(path[k..n]);
    var e := Escape(path[k..n]);
    assert (path[..k] + e)[k..] == e && (path[..k] + e)[..k] == path[..k];
  }

  lemma SaturatedBounded(path: string, k: nat)
    requires k < |path| && SaturatedAt(path, k)
    ensures Bounded(path, MAXPATHLEN) == path
  {
    var n := Consumed(path, MAXPATHLEN, 0);
    HeadConsumed(path, k);
    MixedLength(path, k, n);
    BackslashSlice(path, k, n);
    EscapeMixed(path, k, n);
    SameMixed(Escape(path[..n]), path, k);
  }

  lemma BackslashSlice(path: string, k: nat, n: nat)
    requires k <= n <= |path| && AllBackslashes(path[k..])
    ensures AllBackslashes(path[k..n])
  {
  }

  /** The writer stops at the first length of at least 1017. */
  lemma MixedLength(path: string, k: nat, n: nat)
    requires k <= n <= |path| && AllPlain(path[..k]) && AllBackslashes(path[k..])
    requires n == Consumed(path, MAXPATHLEN, 0)
    ensures n > k ==> k < 1017
    ensures k < 1017 && n < |path| ==> k + 2 * (n - k) == if k % 2 == 1 then 1017 else 1018
    ensures k < 1017 && |path| >= 1017 ==> n < |path| || |path| == 1017 == k + 1
  {
    hide Escape, Consumed, AllPlain, AllBackslashes;
    BackslashSlice(path, k, n);
    EscapeMixed(path, k, n);
    if n > k {
      BackslashSlice(path, k, n - 1);
      EscapeMixed(path, k, n - 1);
    }
  }

  lemma SameMixed(a: string, b: string, k: nat)
    requires |a| == |b| && k <= |a| && a[..k] == b[..k] && AllBackslashes(a[k..]) && AllBackslashes(b[k..])
    ensures a == b
  {
  }

  lemma {:induction false} NoControl(s: string)
    ensures forall c :: c in Escape(s) ==> c >= 0x20 as char
  {
    if s != "" {
      NoControl(s[..|s| - 1]);
    }
  }

  lemma DigitsClean(s: string, b: Base)
    requires AllDigits(s, b)
    ensures forall c :: c in s ==> c != '\n' && c != '"'
  {
  }

  // ----- The converse: a path that its escaped text equals is clean or saturated

  /** The first character that is not written as itself. */
  function FirstEscaped(s: string): (k: nat)
    ensures k <= |s| && AllPlain(s[..k])
    ensures k < |s| ==> !Plain(s[k])
  {
    if s == "" || !Plain(s[0]) then 0
    else
      var k := FirstEscaped(s[1..]);
      assert s[..1 + k] == [s[0]] + s[1..][..k];
      1 + k
  }

  lemma EscapeSplit(path: string, j: nat, n: nat)
    requires j < n <= |path|
    ensures Escape(path[..n]) == Escape(path[..j]) + (EscapeChar(path[j]) + Escape(path[j + 1..n]))
  {
    assert path[..n] == path[..j] + ([path[j]] + path[j + 1..n]);
    EscapeConcat(path[..j], [path[j]] + path[j + 1..n]);
    EscapeCons(path[j], path[j + 1..n]);
  }

  lemma BackslashSnoc(path: string, k: nat, j: nat)
    requires k <= j < |path| && AllBackslashes(path[k..j]) && path[j] == '\\'
    ensures AllBackslashes(path[k..j + 1])
  {
    assert path[k..j + 1] == path[k..j] + [path[j]];
  }

  lemma BackslashAt(s: string, k: nat, j: nat)
    requires k <= j < |s| && AllBackslashes(s[k..])
    ensures s[j] == '\\'
  {
  }

  lemma EscapedHead(c: char)
    requires !Plain(c)
    ensures EscapeChar(c)[0] == '\\'
  {
  }

  /** If escaping a prefix gives back the text itself, then from the first escape on there are only backslashes. */
  lemma {:induction false} OnlyBackslashes(path: string, k: nat, n: nat, m: nat)
    requires k < m <= n <= |path| && AllPlain(path[..k]) && !Plain(path[k]) && Escape(path[..n]) == path
    ensures AllBackslashes(path[k..m])
    decreases m
  {
    hide Escape, AllPlain, AllBackslashes, EscapeChar, Plain;
    var j := m - 1;
    if j > k {
      OnlyBackslashes(path, k, n, j);
    } else {
      NoBackslashes(path, k);
    }
    EscapeMixed(path, k, j);
    EscapeSplit(path, j, n);
    EscapedHead(path[k]);
    if j > k {
      BackslashAt(Escape(path[..j]), k, j);
    }
    BackslashSnoc(path, k, j);
  }

  lemma NoBackslashes(path: string, k: nat)
    requires k <= |path|
    ensures AllBackslashes(path[k..k])
  {
  }

  lemma PlainIdentity(path: string, n: nat)
    requires n <= |path| && n == Consumed(path, MAXPATHLEN, 0) && AllPlain(path[..n]) && Escape(path[..n]) == path
    ensures Clean(path)
  {
    EscapePlain(path[..n]);
    assert path[..n] == path;
    if n > 0 {
      assert path[..n - 1] == path[..n][..n - 1];
      EscapePlain(path[..n - 1]);
    }
  }

  lemma MixedIdentity(path: string, n: nat, k: nat)
    requires k < n <= |path| && n == Consumed(path, MAXPATHLEN, 0)
    requires AllPlain(path[..k]) && !Plain(path[k]) && Escape(path[..n]) == path
    ensures SaturatedAt(path, k)
  {
    hide Escape, Consumed, AllPlain, AllBackslashes, EscapeChar, Plain;
    OnlyBackslashes(path, k, n, n);
    EscapeMixed(path, k, n);
    assert AllBackslashes(path[k..]);
    MixedLength(path, k, n);
  }

  /** Only clean and saturated paths are written as themselves. */
  lemma {:induction false} BoundedIdentity(path: string)
    ensures Bounded(path, MAXPATHLEN) == path <==> Clean(path) || Saturated(path)
  {
    if Bounded(path, MAXPATHLEN) == path {
      var n := Consumed(path, MAXPATHLEN, 0);
      var k := FirstEscaped(path);
      if k >= n {
        assert path[..n] == path[..k][..n];
        PlainIdentity(path, n);
      } else {
        MixedIdentity(path, n, k);
      }
    } else if Clean(path) {
      CleanBounded(path);
    } else if Saturated(path) {
      var k :| 0 <= k < |path| && SaturatedAt(path, k);
      SaturatedBounded(path, k);
    }
  }
}
