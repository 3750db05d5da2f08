/**
 String escaping for JSON: the bounded `json_escape` of `format.c`, the unbounded `escapeJSON`
 of `Exporter.swift`, and the reading of escapes given by section 7 of RFC 8259.
 */
module JsonText {
  import opened Common
  import opened Numerals
  import opened Text

  function EscapeChar(c: char): (e: string)
    ensures 1 <= |e| <= 6
  {
    if c == '"' then "\\\""
    else if c == '\\' then "\\\\"
    else if c == 8 as char then "\\b"
    else if c == 12 as char then "\\f"
    else if c == '\n' then "\\n"
    else if c == '\r' then "\\r"
    else if c == '\t' then "\\t"
    else if c < 0x20 as char then ['\\', 'u', '0', '0', Digit(c as nat / 16), Digit(c as nat % 16)]
    else [c]
  }

  function Escape(s: string): string {
    if s == "" then "" else Escape(s[..|s| - 1]) + EscapeChar(s[|s| - 1])
  }

  // ----- Reading

  function SimpleEscape(c: char): Option<char> {
    if c == '"' || c == '\\' || c == '/' then Some(c)
    else if c == 'b' then Some(8 as char)
    else if c == 'f' then Some(12 as char)
    else if c == 'n' then Some('\n')
    else if c == 'r' then Some('\r')
    else if c == 't' then Some('\t')
    else None
  }

  /** One character of a JSON string body and how much text it took; None where the grammar has none. */
  function ReadChar(s: string): (r: Option<(char, nat)>)
    ensures r.Some? ==> 1 <= r.value.1 <= |s|
  {
    if s == "" || s[0] < 0x20 as char || s[0] == '"' then None
    else if s[0] != '\\' then Some((s[0], 1))
    else if |s| < 2 then None
    else if s[1] == 'u' then
      if |s| >= 6 && AllDigits(s[2..6], Sixteen) && Value(s[2..6], Sixteen) < 0xD800
      then Some((Value(s[2..6], Sixteen) as char, 6)) else None
    else match SimpleEscape(s[1])
         case Some(c) => Some((c, 2))
         case None => None
  }

  /** The text that a whole string body stands for. */
  function Unescape(s: string): Option<string>
    decreases |s|
  {
    if s == "" then Some("")
    else match ReadChar(s)
         case None => None
         case Some((c, k)) =>
           match Unescape(s[k..])
           case None => None
           case Some(rest) => Some([c] + rest)
  }

  // ----- Round trip

  lemma ReadEscaped(c: char, rest: string)
    ensures ReadChar(EscapeChar(c) + rest) == Some((c, |EscapeChar(c)|))
    ensures (EscapeChar(c) + rest)[|EscapeChar(c)|..] == rest
  {
    var e := EscapeChar(c);
    if |e| == 6 {
      var h := (e + rest)[2..6];
      assert h == ['0', '0', e[4], e[5]];
      HexFour(h);
    }
  }

  lemma HexFour(h: string)
    requires |h| == 4 && h[0] == '0' && h[1] == '0' && IsDigit(h[2], Sixteen) && IsDigit(h[3], Sixteen)
    ensures AllDigits(h, Sixteen) && Value(h, Sixteen) == 16 * DigitValue(h[2]) + DigitValue(h[3])
  {
    assert h == Zeros(2) + h[2..] by {
      assert Zeros(2) == "00";
    }
    ValueZeros(2, h[2..]);
    assert h[2..][..1] == [h[2]] && [h[2]][..0] == "";
    assert Value([h[2]], Sixteen) == DigitValue(h[2]);
  }

  lemma {:induction false} EscapeCons(c: char, s: string)
    ensures Escape([c] + s) == EscapeChar(c) + Escape(s)
  {
    hide EscapeChar;
    var t := [c] + s;
    if s == "" {
      assert t[..0] == "";
    } else {
      assert t[..|t| - 1] == [c] + s[..|s| - 1];
      EscapeCons(c, s[..|s| - 1]);
    }
  }

  /** Unescaping undoes escaping, on every text. */
  lemma {:induction false} UnescapeEscape(s: string)
    ensures Unescape(Escape(s)) == Some(s)
  {
    hide EscapeChar, ReadChar;
    if s != "" {
      assert s == [s[0]] + s[1..];
      EscapeCons(s[0], s[1..]);
      ReadEscaped(s[0], Escape(s[1..]));
      UnescapeEscape(s[1..]);
    }
  }

  lemma {:induction false} EscapeConcat(a: string, b: string)
    ensures Escape(a + b) == Escape(a) + Escape(b)
  {
    hide EscapeChar;
    if b == "" {
      assert a + b == a;
    } else {
      assert (a + b)[..|a + b| - 1] == a + b[..|b| - 1];
      EscapeConcat(a, b[..|b| - 1]);
    }
  }

  // ----- Text that needs no escape

  /** A character that is written as itself. */
  predicate Plain(c: char) {
    c >= 0x20 as char && c != '"' && c != '\\'
  }

  predicate AllPlain(s: string) {
    forall i :: 0 <= i < |s| ==> Plain(s[i])
  }

  lemma PlainChar(c: char)
    requires Plain(c)
    ensures EscapeChar(c) == [c]
  {
  }

  lemma {:induction false} EscapePlain(s: string)
    requires AllPlain(s)
    ensures Escape(s) == s
  {
    hide EscapeChar, Plain;
    if s != "" {
      var r, c := s[..|s| - 1], s[|s| - 1];
      assert AllPlain(r) && Plain(c);
      EscapePlain(r);
      PlainChar(c);
      assert Escape(s) == r + [c];
    }
  }

  // ----- The bounded writer

  /** How many characters are escaped before fewer than eight bytes of the buffer are left. */
  function Consumed(src: string, dstlen: nat, i: nat): (n: nat)
    requires i <= |src|
    ensures i <= n <= |src|
    ensures n == |src| || |Escape(src[..n])| + 7 >= dstlen
    ensures n > i ==> |Escape(src[..n - 1])| + 7 < dstlen
    decreases |src| - i
  {
    if i < |src| && |Escape(src[..i])| + 7 < dstlen then Consumed(src, dstlen, i + 1) else i
  }

  /** What `json_escape` leaves in a buffer of `dstlen` bytes. */
  function Bounded(src: string, dstlen: nat): string {
    Escape(src[..Consumed(src, dstlen, 0)])
  }

  /** The switch of `json_escape`: one character, written where at least seven bytes and a terminator fit. */
  method PutEscaped(dst: array<char>, pos: nat, c: char) returns (next: nat)
    requires pos + 7 < dst.Length
    modifies dst
    ensures next == pos + |EscapeChar(c)| && dst[..next] == old(dst[..pos]) + EscapeChar(c)
  {
    var e: string;
    if c == '"' {
      e := "\\\"";
    } else if c == '\\' {
      e := "\\\\";
    } else if c == 8 as char {
      e := "\\b";
    } else if c == 12 as char {
      e := "\\f";
    } else if c == '\n' {
      e := "\\n";
    } else if c == '\r' {
      e := "\\r";
    } else if c == '\t' {
      e := "\\t";
    } else if c < 0x20 as char {
      e := ['\\', 'u', '0', '0', Digit(c as nat / 16), Digit(c as nat % 16)];
    } else {
      e := [c];
    }
    Append(dst, pos, e);
    next := pos + |e|;
  }

  /** `json_escape`, on a source without a zero byte. */
  method JsonEscape(dst: array<char>, src: string) returns (pos: nat)
    requires dst.Length >= 1
    modifies dst
    ensures pos < dst.Length && dst[pos] == '\0'
    ensures dst[..pos] == Bounded(src, dst.Length)
  {
    hide EscapeChar;
    pos := 0;
    var i := 0;
    while i < |src| && pos + 7 < dst.Length
      invariant i <= |src| && pos < dst.Length
      invariant dst[..pos] == Escape(src[..i])
      invariant Consumed(src, dst.Length, 0) == Consumed(src, dst.Length, i)
    {
      pos := PutEscaped(dst, pos, src[i]);
      assert src[..i + 1][..i] == src[..i];
      i := i + 1;
    }
    dst[pos] := '\0';
  }

  lemma {:induction false} EscapeGrows(s: string, k: nat)
    requires k <= |s|
    ensures |Escape(s[..k])| <= |Escape(s)|
  {
    hide EscapeChar;
    assert s == s[..k] + s[k..];
    EscapeConcat(s[..k], s[k..]);
  }

  /**
   The bounded output is always whole escapes that read back to a prefix of the source, and to
   the whole source exactly when eight bytes are still free before its last character.
   */
  lemma {:induction false} BoundedReadsBack(src: string, dstlen: nat)
    requires dstlen >= 1
    ensures |Bounded(src, dstlen)| < dstlen
    ensures Unescape(Bounded(src, dstlen)) == Some(src[..Consumed(src, dstlen, 0)])
    ensures Unescape(Bounded(src, dstlen)) == Some(src) <==> src == "" || |Escape(src[..|src| - 1])| + 7 < dstlen
  {
    hide EscapeChar, Unescape;
    var n := Consumed(src, dstlen, 0);
    UnescapeEscape(src[..n]);
    if n > 0 {
      assert src[..n][..n - 1] == src[..n - 1];
    }
    if n < |src| {
      EscapeGrows(src[..|src| - 1], n);
      assert src[..|src| - 1][..n] == src[..n];
    } else {
      assert src[..n] == src;
    }
  }

  /** `escapeJSON`. */
  method EscapeJSON(s: string) returns (out: string)
    ensures out == Escape(s) && Unescape(out) == Some(s)
  {
    out := "";
    for i := 0 to |s|
      invariant out == Escape(s[..i])
    {
      var c := s[i];
      assert s[..i + 1][..i] == s[..i];
      if c == '"' { out := out + "\\\""; }
      else if c == '\\' { out := out + "\\\\"; }
      else if c == 8 as char { out := out + "\\b"; }
      else if c == 12 as char { out := out + "\\f"; }
      else if c == '\n' { out := out + "\\n"; }
      else if c == '\r' { out := out + "\\r"; }
      else if c == '\t' { out := out + "\\t"; }
      else if c < 0x20 as char { out := out + "\\u" + ['0', '0', Digit(c as nat / 16), Digit(c as nat % 16)]; }
      else { out := out + [c]; }
    }
    assert s[..|s|] == s;
    UnescapeEscape(s);
  }
}
