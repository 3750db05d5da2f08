/** Stack frames: the printer of `Exporter.swift` and the parser of `WatchRunner.swift`. */
module StackFrames {
  import opened Common
  import opened Text
  import opened Numerals

  datatype Frame = Frame(address: u64, moduleName: Option<string>, symbol: Option<string>, offset: Option<u64>)

  // ----- Blanks

  /** `CharacterSet.whitespaces`: horizontal space. */
  predicate IsBlank(c: char) {
    c == ' ' || c == '\t' || c == '\U{00A0}' || c == '\U{1680}' || '\U{2000}' <= c <= '\U{200A}'
    || c == '\U{202F}' || c == '\U{205F}' || c == '\U{3000}'
  }

  /** What `CharacterSet.whitespacesAndNewlines` adds. */
  predicate IsNewline(c: char) {
    '\n' <= c <= '\r' || c == '\U{0085}' || c == '\U{2028}' || c == '\U{2029}'
  }

  predicate IsSpace(c: char, newlines: bool) {
    IsBlank(c) || (newlines && IsNewline(c))
  }

  function TrimLeft(s: string, newlines: bool): (r: string)
    ensures r != "" ==> !IsSpace(r[0], newlines)
    ensures |r| <= |s| && r == s[|s| - |r|..]
  {
    if s != "" && IsSpace(s[0], newlines) then TrimLeft(s[1..], newlines) else s
  }

  function TrimRight(s: string, newlines: bool): (r: string)
    ensures r != "" ==> !IsSpace(r[|r| - 1], newlines)
    ensures r <= s
  {
    if s != "" && IsSpace(s[|s| - 1], newlines) then TrimRight(s[..|s| - 1], newlines) else s
  }

  function Trim(s: string, newlines: bool): string {
    TrimRight(TrimLeft(s, newlines), newlines)
  }

  // ----- Printing

  /** `StackFrame.formatted`. */
  function Formatted(f: Frame): string {
    if f.symbol.Some? then
      if f.moduleName.Some? then
        if f.offset.Some? then f.moduleName.value + "`" + (f.symbol.value + "+0x" + Numeral(f.offset.value, Sixteen))
        else f.moduleName.value + "`" + f.symbol.value
      else f.symbol.value
    else "0x" + Padded(f.address, 16)
  }

  // ----- Parsing

  /** `UInt64(_, radix: 16)`: an optional sign, at least one digit, no overflow. */
  function ParseHex(s: string): Option<u64> {
    var minus := s != "" && s[0] == '-';
    var digits := if s != "" && (s[0] == '+' || s[0] == '-') then s[1..] else s;
    if digits == "" || !AllDigits(digits, Sixteen) then None
    else
      var x := Value(digits, Sixteen);
      if x >= TWO64 || (minus && x > 0) then None else Some(x)
  }

  /** The last occurrence of a character, or the length of the text. */
  function FindLast(s: string, c: char): (i: nat)
    ensures i <= |s|
    ensures i < |s| ==> s[i] == c && c !in s[i + 1..]
    ensures i == |s| ==> c !in s
  {
    if s == "" then 0
    else if s[|s| - 1] == c then |s| - 1
    else
      var k := FindLast(s[..|s| - 1], c);
      assert s == s[..|s| - 1] + [s[|s| - 1]];
      if k == |s| - 1 then |s|
      else
        assert s[k + 1..] == s[..|s| - 1][k + 1..] + [s[|s| - 1]];
        k
  }

  /** The symbol part ends in `+0x...`. */
  predicate HasOffset(rest: string) {
    var plus := FindLast(rest, '+');
    plus < |rest| && "0x" <= rest[plus + 1..]
  }

  function SymbolPart(moduleName: string, rest: string): Frame {
    if HasOffset(rest) then
      var plus := FindLast(rest, '+');
      var offset := match ParseHex(rest[plus + 3..]) case Some(x) => x case None => 0;
      Frame(0, Some(moduleName), Some(rest[..plus]), Some(offset))
    else Frame(0, Some(moduleName), Some(rest), None)
  }

  predicate IsAddress(s: string) {
    "0x" <= s && ParseHex(s[2..]).Some?
  }

  /** `parseStackFrame`. */
  function ParseFrame(line: string): Frame {
    var s := Trim(line, false);
    var bt := Find(s, '`');
    if bt < |s| then SymbolPart(s[..bt], s[bt + 1..])
    else if IsAddress(s) then Frame(ParseHex(s[2..]).value, None, None, None)
    else Frame(0, None, Some(s), None)
  }

  // ----- Round trip

  predicate NoLeadingBlank(s: string) {
    s == "" || !IsBlank(s[0])
  }

  predicate NoTrailingBlank(s: string) {
    s == "" || !IsBlank(s[|s| - 1])
  }

  /** The frames whose printed form carries all of them. */
  predicate Canonical(f: Frame) {
    match f.symbol
    case None => f.moduleName.None? && f.offset.None?
    case Some(symbol) =>
      f.address == 0
      && match f.moduleName
         case Some(m) => '`' !in m && NoLeadingBlank(m) && (f.offset.None? ==> NoTrailingBlank(symbol) && !HasOffset(symbol))
         case None => f.offset.None? && NoLeadingBlank(symbol) && NoTrailingBlank(symbol) && '`' !in symbol && !IsAddress(symbol)
  }

  lemma NothingToTrim(s: string, newlines: bool)
    requires s == "" || (!IsSpace(s[0], newlines) && !IsSpace(s[|s| - 1], newlines))
    ensures Trim(s, newlines) == s
  {
  }

  lemma HexHasNo(n: u64, c: char)
    requires !IsDigit(c, Sixteen)
    ensures c !in Numeral(n, Sixteen)
  {
  }

  lemma ParsePrinted(n: u64)
    ensures ParseHex(Numeral(n, Sixteen)) == Some(n)
  {
    var s := Numeral(n, Sixteen);
    assert s[0] in s && IsDigit(s[0], Sixteen);
    ValueNumeral(n, Sixteen);
  }

  lemma ParsePadded(n: u64)
    ensures ParseHex(Padded(n, 16)) == Some(n)
  {
    var s := Padded(n, 16);
    assert s[0] in s && IsDigit(s[0], Sixteen);
    ValuePadded(n, 16);
  }

  lemma {:induction false} FindLastAfter(a: string, c: char, b: string)
    requires c !in b
    ensures FindLast(a + [c] + b, c) == |a|
  {
    var s := a + [c] + b;
    if b != "" {
      assert b[|b| - 1] in b && s[..|s| - 1] == a + [c] + b[..|b| - 1];
      FindLastAfter(a, c, b[..|b| - 1]);
    }
  }

  /** A printed offset is found again. */
  lemma OffsetFound(symbol: string, offset: u64)
    ensures var rest := symbol + "+0x" + Numeral(offset, Sixteen);
            forall m :: SymbolPart(m, rest) == Frame(0, Some(m), Some(symbol), Some(offset))
  {
    var hex := Numeral(offset, Sixteen);
    var rest := symbol + "+0x" + hex;
    HexHasNo(offset, '+');
    assert rest == symbol + ['+'] + ("0x" + hex);
    FindLastAfter(symbol, '+', "0x" + hex);
    assert rest[|symbol| + 1..] == "0x" + hex;
    assert rest[|symbol| + 3..] == hex && rest[..|symbol|] == symbol;
    ParsePrinted(offset);
  }

  lemma BacktickNotTrimmed(m: string, rest: string)
    requires NoLeadingBlank(m) && NoTrailingBlank(rest)
    ensures Trim(m + "`" + rest, false) == m + "`" + rest
  {
    hide Trim;
    var s := m + "`" + rest;
    assert s[0] == (if m == "" then '`' else m[0]) && s[|s| - 1] == (if rest == "" then '`' else rest[|rest| - 1]);
    NothingToTrim(s, false);
  }

  lemma BacktickFound(m: string, rest: string)
    requires '`' !in m
    ensures var s := m + "`" + rest;
            Find(s, '`') == |m| && s[..|m|] == m && s[|m| + 1..] == rest
  {
    assert m + "`" + rest == m + ['`'] + rest;
    FindAfter(m, '`', rest);
  }

  /** A backtick text splits at its first backtick. */
  lemma ParseAtBacktick(m: string, rest: string)
    requires '`' !in m && NoLeadingBlank(m) && NoTrailingBlank(rest)
    ensures ParseFrame(m + "`" + rest) == SymbolPart(m, rest)
  {
    hide Trim, Find, SymbolPart, ParseHex, NoLeadingBlank, NoTrailingBlank;
    BacktickNotTrimmed(m, rest);
    BacktickFound(m, rest);
  }

  lemma TrimmedEnds(s: string)
    ensures var r := Trim(s, false); r == "" || (!IsBlank(r[0]) && !IsBlank(r[|r| - 1]))
  {
  }

  lemma SymbolShape(m: string, rest: string)
    ensures var f := SymbolPart(m, rest);
            && f.moduleName == Some(m) && f.symbol.Some? && f.address == 0
            && (f.offset.None? ==> f.symbol == Some(rest) && !HasOffset(rest))
  {
  }

  /** The module a parse reports has no backtick and no leading blank, and its symbol no trailing blank unless an offset followed. */
  lemma {:induction false} ParsedShape(line: string)
    ensures var f := ParseFrame(line);
            && (f.moduleName.Some? ==> '`' !in f.moduleName.value && NoLeadingBlank(f.moduleName.value))
            && (f.offset.None? && f.symbol.Some? ==> NoTrailingBlank(f.symbol.value))
            && (f.moduleName.Some? && f.offset.None? ==> f.symbol.Some? && !HasOffset(f.symbol.value))
            && (f.moduleName.None? && f.symbol.Some? ==>
                  NoLeadingBlank(f.symbol.value) && '`' !in f.symbol.value && !IsAddress(f.symbol.value))
            && (f.symbol.Some? ==> f.address == 0)
            && (f.symbol.None? ==> f.moduleName.None? && f.offset.None?)
            && (f.moduleName.None? ==> f.offset.None?)
  {
    hide SymbolPart, HasOffset, Trim, TrimLeft, TrimRight, IsAddress, IsBlank;
    var s := Trim(line, false);
    TrimmedEnds(line);
    var bt := Find(s, '`');
    if bt < |s| {
      SymbolShape(s[..bt], s[bt + 1..]);
      assert s[bt..] != "" && s[|s| - 1] == s[bt..][|s| - 1 - bt];
      var rest := s[bt + 1..];
      if rest != "" {
        assert rest[|rest| - 1] == s[|s| - 1];
      }
      if bt > 0 {
        assert s[..bt][0] == s[0];
      }
    } else {
      assert s[..bt] == s;
    }
  }

  /** Parsing a printed frame gives the frame back exactly when it is canonical. */
  lemma {:induction false} FrameRoundTrip(f: Frame)
    ensures ParseFrame(Formatted(f)) == f <==> Canonical(f)
  {
    if Canonical(f) {
      CanonicalBack(f);
    } else if ParseFrame(Formatted(f)) == f {
      ParsedShape(Formatted(f));
    }
  }

  /** What the printed form leaves out. */
  lemma {:induction false} NotPrinted(f: Frame, g: Frame)
    ensures f.symbol.None? ==> Formatted(f) == Formatted(Frame(f.address, None, None, None)) && |Formatted(f)| == 18
    ensures f.symbol.Some? && f.moduleName.None? ==> Formatted(f) == f.symbol.value
    ensures f.symbol.Some? ==> Formatted(f) == Formatted(f.(address := g.address))
  {
    HexLength64(f.address);
  }

  /** Hexadecimal digits after `0x` are an address when they fit in 64 bits, and otherwise a symbol. */
  lemma {:induction false} AddressLine(digits: string)
    requires digits != "" && AllDigits(digits, Sixteen)
    ensures ParseFrame("0x" + digits)
         == if Value(digits, Sixteen) < 0x1_0000_0000_0000_0000 then Frame(Value(digits, Sixteen), None, None, None)
            else Frame(0, None, Some("0x" + digits), None)
  {
    hide Value, SymbolPart, Trim, Find;
    var s := "0x" + digits;
    assert digits[0] in digits && digits[|digits| - 1] in digits;
    DigitNotBlank(digits[|digits| - 1]);
    assert s[0] == '0' && s[|s| - 1] == digits[|digits| - 1] && s[2..] == digits;
    NothingToTrim(s, false);
    NoBacktick(digits);
  }

  lemma TrimIgnoresBlank(c: char, text: string)
    requires c == ' ' || c == '\t'
    ensures Trim([c] + text, false) == Trim(text, false)
  {
    hide TrimRight;
    assert ([c] + text)[1..] == text;
  }

  /** Blanks before a frame do not matter. */
  lemma {:induction false} ParseIgnoresBlank(c: char, text: string)
    requires c == ' ' || c == '\t'
    ensures ParseFrame([c] + text) == ParseFrame(text)
  {
    hide Trim, Find, SymbolPart, IsAddress, ParseHex;
    TrimIgnoresBlank(c, text);
  }

  /** What follows `+0x` is read as an offset even when it is none, and then counts as 0. */
  lemma {:induction false} OffsetUnreadable(m: string, symbol: string, text: string)
    requires '`' !in m && NoLeadingBlank(m) && '+' !in text && NoTrailingBlank(text) && ParseHex(text).None?
    ensures ParseFrame(m + "`" + (symbol + "+0x" + text)) == Frame(0, Some(m), Some(symbol), Some(0))
  {
    hide ParseFrame, ParseHex, NoLeadingBlank, NoTrailingBlank, FindLast;
    var rest := symbol + "+0x" + text;
    UnreadableTail(symbol, text);
    ParseAtBacktick(m, rest);
    assert rest == symbol + ['+'] + ("0x" + text);
    FindLastAfter(symbol, '+', "0x" + text);
    assert rest[|symbol| + 1..] == "0x" + text && rest[|symbol| + 3..] == text && rest[..|symbol|] == symbol;
  }

  lemma UnreadableTail(symbol: string, text: string)
    requires NoTrailingBlank(text)
    ensures NoTrailingBlank(symbol + "+0x" + text)
  {
    var rest := symbol + "+0x" + text;
    assert rest[|rest| - 1] == if text == "" then 'x' else text[|text| - 1];
  }

  /** An address next to a symbol is not printed, and an offset without a module is not either. */
  lemma {:induction false} AddressAndOffsetLost()
    ensures ParseFrame(Formatted(Frame(1, None, Some("f"), None))) != Frame(1, None, Some("f"), None)
    ensures ParseFrame(Formatted(Frame(0, None, Some("f"), Some(2)))) != Frame(0, None, Some("f"), Some(2))
  {
    hide ParseFrame;
    FrameRoundTrip(Frame(1, None, Some("f"), None));
    FrameRoundTrip(Frame(0, None, Some("f"), Some(2)));
  }

  lemma AddressBack(address: u64)
    ensures ParseFrame("0x" + Padded(address, 16)) == Frame(address, None, None, None)
  {
    hide Padded, Value, ParseHex, SymbolPart, Trim;
    var hex := Padded(address, 16);
    var s := "0x" + hex;
    assert s[0] == '0' && s[|s| - 1] == hex[|hex| - 1] && hex[|hex| - 1] in hex;
    DigitNotBlank(hex[|hex| - 1]);
    NothingToTrim(s, false);
    NoBacktick(hex);
    assert Find(s, '`') == |s| && s[2..] == hex && "0x" <= s;
    ParsePadded(address);
  }

  lemma NoBacktick(hex: string)
    requires AllDigits(hex, Sixteen)
    ensures '`' !in "0x" + hex
  {
  }

  lemma DigitNotBlank(c: char)
    requires IsDigit(c, Sixteen)
    ensures !IsBlank(c)
  {
  }

  lemma OffsetBack(m: string, symbol: string, offset: u64)
    requires '`' !in m && NoLeadingBlank(m)
    ensures ParseFrame(m + "`" + (symbol + "+0x" + Numeral(offset, Sixteen))) == Frame(0, Some(m), Some(symbol), Some(offset))
  {
    hide ParseFrame, SymbolPart;
    var hex := Numeral(offset, Sixteen);
    var rest := symbol + "+0x" + hex;
    assert rest[|rest| - 1] == hex[|hex| - 1] && hex[|hex| - 1] in hex;
    DigitNotBlank(hex[|hex| - 1]);
    ParseAtBacktick(m, rest);
    OffsetFound(symbol, offset);
  }

  lemma BareBack(symbol: string)
    requires NoLeadingBlank(symbol) && NoTrailingBlank(symbol) && '`' !in symbol && !IsAddress(symbol)
    ensures ParseFrame(symbol) == Frame(0, None, Some(symbol), None)
  {
    hide IsAddress, Trim, ParseHex, SymbolPart, Find;
    NothingToTrim(symbol, false);
    assert Find(symbol, '`') == |symbol|;
  }

  lemma {:induction false} CanonicalBack(f: Frame)
    requires Canonical(f)
    ensures ParseFrame(Formatted(f)) == f
  {
    hide ParseFrame, NoLeadingBlank, NoTrailingBlank;
    if f.symbol.None? {
      AddressBack(f.address);
    } else if f.moduleName.None? {
      BareBack(f.symbol.value);
    } else if f.offset.Some? {
      OffsetBack(f.moduleName.value, f.symbol.value, f.offset.value);
    } else {
      ParseAtBacktick(f.moduleName.value, f.symbol.value);
    }
  }
}
