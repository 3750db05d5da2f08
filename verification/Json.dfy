/**
 JSON values made of strings, integers, arrays and objects: a compact printer, and a reader that
 follows the grammar of RFC 8259 for these values without optional white space.
 */
module Json {
  import opened Common
  import opened Numerals
  import opened JsonText

  datatype Json = Str(text: string) | Num(n: int) | Arr(items: seq<Json>) | Obj(fields: seq<Field>)

  datatype Field = Field(key: string, value: Json)

  // ----- Printing

  function Quoted(s: string): string {
    "\"" + (Escape(s) + "\"")
  }

  function Decimal(n: int): string {
    if n < 0 then "-" + Numeral(-n, Ten) else Numeral(n, Ten)
  }

  function Print(j: Json): string
    decreases j, 0
  {
    match j
    case Str(s) => Quoted(s)
    case Num(n) => Decimal(n)
    case Arr(items) => "[" + (PrintItems(j, 0) + "]")
    case Obj(fields) => "{" + (PrintFields(j, 0) + "}")
  }

  /** The items from `i` on, separated by commas. */
  function PrintItems(j: Json, i: nat): string
    requires j.Arr? && i <= |j.items|
    decreases j, 0, |j.items| - i, 0
  {
    if i == |j.items| then "" else Print(j.items[i]) + ItemsTail(j, i + 1)
  }

  function ItemsTail(j: Json, i: nat): string
    requires j.Arr? && 0 < i <= |j.items|
    decreases j, 0, |j.items| - i, 1
  {
    if i == |j.items| then "" else "," + PrintItems(j, i)
  }

  function PrintFields(j: Json, i: nat): string
    requires j.Obj? && i <= |j.fields|
    decreases j, 0, |j.fields| - i, 0
  {
    if i == |j.fields| then ""
    else Quoted(j.fields[i].key) + (":" + (Print(j.fields[i].value) + FieldsTail(j, i + 1)))
  }

  function FieldsTail(j: Json, i: nat): string
    requires j.Obj? && 0 < i <= |j.fields|
    decreases j, 0, |j.fields| - i, 1
  {
    if i == |j.fields| then "" else "," + PrintFields(j, i)
  }

  // ----- Reading

  type Read<T> = Option<(T, string)>

  /** A string body up to its closing quote. */
  function ReadString(s: string): (r: Read<string>)
    ensures r.Some? ==> |r.value.1| < |s|
    decreases |s|
  {
    if s == "" then None
    else if s[0] == '"' then Some(("", s[1..]))
    else
      var (c, k) :- ReadChar(s);
      var (text, rest) :- ReadString(s[k..]);
      Some(([c] + text, rest))
  }

  /** An integer without leading zeros. */
  function ReadNatural(s: string): (r: Read<nat>)
    ensures r.Some? ==> |r.value.1| < |s|
  {
    var n := DigitRun(s, Ten);
    if n == 0 || (n > 1 && s[0] == '0') then None else Some((Value(s[..n], Ten), s[n..]))
  }

  function ReadNumber(s: string): (r: Read<int>)
    ensures r.Some? ==> |r.value.1| < |s|
  {
    if s != "" && s[0] == '-' then
      var (n, rest) :- ReadNatural(s[1..]);
      Some((0 - n, rest))
    else
      var (n, rest) :- ReadNatural(s);
      Some((n as int, rest))
  }

  function ReadJson(s: string): (r: Read<Json>)
    ensures r.Some? ==> |r.value.1| < |s|
    decreases |s|, 0
  {
    if s == "" then None
    else if s[0] == '"' then
      var (text, rest) :- ReadString(s[1..]);
      Some((Str(text), rest))
    else if s[0] == '[' then
      if |s| > 1 && s[1] == ']' then Some((Arr([]), s[2..]))
      else
        var (items, rest) :- ReadItems(s[1..]);
        Some((Arr(items), rest))
    else if s[0] == '{' then
      if |s| > 1 && s[1] == '}' then Some((Obj([]), s[2..]))
      else
        var (fields, rest) :- ReadFields(s[1..]);
        Some((Obj(fields), rest))
    else
      var (n, rest) :- ReadNumber(s);
      Some((Num(n), rest))
  }

  function ReadItems(s: string): (r: Read<seq<Json>>)
    ensures r.Some? ==> |r.value.1| < |s|
    decreases |s|, 1
  {
    var (j, rest) :- ReadJson(s);
    if rest == "" then None
    else if rest[0] == ']' then Some(([j], rest[1..]))
    else if rest[0] == ',' then
      var (more, rest2) :- ReadItems(rest[1..]);
      Some(([j] + more, rest2))
    else None
  }

  function ReadField(s: string): (r: Read<Field>)
    ensures r.Some? ==> |r.value.1| < |s|
    decreases |s|, 1
  {
    if s == "" || s[0] != '"' then None
    else
      var (key, rest) :- ReadString(s[1..]);
      if rest == "" || rest[0] != ':' then None
      else
        var (value, rest2) :- ReadJson(rest[1..]);
        Some((Field(key, value), rest2))
  }

  function ReadFields(s: string): (r: Read<seq<Field>>)
    ensures r.Some? ==> |r.value.1| < |s|
    decreases |s|, 2
  {
    var (f, rest) :- ReadField(s);
    if rest == "" then None
    else if rest[0] == '}' then Some(([f], rest[1..]))
    else if rest[0] == ',' then
      var (more, rest2) :- ReadFields(rest[1..]);
      Some(([f] + more, rest2))
    else None
  }

  /** A whole text. */
  function Parse(s: string): Option<Json> {
    var (j, rest) :- ReadJson(s);
    if rest == "" then Some(j) else None
  }

  // ----- Round trip

  lemma {:induction false} StringBack(s: string, rest: string)
    ensures ReadString(Escape(s) + ("\"" + rest)) == Some((s, rest))
  {
    if s == "" {
      assert Escape(s) + ("\"" + rest) == "\"" + rest;
      assert ("\"" + rest)[1..] == rest;
    } else {
      var tail := Escape(s[1..]) + ("\"" + rest);
      assert s == [s[0]] + s[1..];
      EscapeCons(s[0], s[1..]);
      assert Escape(s) + ("\"" + rest) == EscapeChar(s[0]) + tail;
      StringStep(s[0], tail);
      StringBack(s[1..], rest);
    }
  }

  lemma StringStep(c: char, tail: string)
    ensures ReadString(EscapeChar(c) + tail)
         == match ReadString(tail) case None => None case Some((text, rest)) => Some(([c] + text, rest))
  {
    var s := EscapeChar(c) + tail;
    ReadEscaped(c, tail);
    assert s[0] == EscapeChar(c)[0] && s[0] != '"';
  }

  lemma NaturalBack(n: nat, rest: string)
    requires Ends(rest, Ten)
    ensures ReadNatural(Numeral(n, Ten) + rest) == Some((n, rest))
  {
    var x := Numeral(n, Ten);
    NumeralHead(n, Ten);
    DigitRunStops(x, rest, Ten);
    assert (x + rest)[..|x|] == x && (x + rest)[|x|..] == rest;
    ValueNumeral(n, Ten);
  }

  lemma NumberBack(n: int, rest: string)
    requires Ends(rest, Ten)
    ensures ReadNumber(Decimal(n) + rest) == Some((n, rest))
    ensures Decimal(n)[0] != '"' && Decimal(n)[0] != '[' && Decimal(n)[0] != '{' && Decimal(n)[0] != ']'
  {
    hide ReadNatural, Numeral, Value;
    if n < 0 {
      var x := Numeral(-n, Ten);
      assert (Decimal(n) + rest)[0] == '-' && (Decimal(n) + rest)[1..] == x + rest;
      NaturalBack(-n, rest);
    } else {
      var x := Numeral(n, Ten);
      assert x[0] in x && IsDigit(x[0], Ten);
      NaturalBack(n, rest);
    }
  }

  lemma PrintHead(j: Json)
    ensures Print(j) != "" && Print(j)[0] != ']' && Print(j)[0] != '}'
  {
    if j.Num? {
      var x := Decimal(j.n);
      if j.n >= 0 {
        assert x[0] in x && IsDigit(x[0], Ten);
      }
    }
  }

  /** Reading back what was printed, whatever follows it. */
  lemma {:induction false} ReadPrinted(j: Json, rest: string)
    requires Ends(rest, Ten)
    ensures ReadJson(Print(j) + rest) == Some((j, rest))
    decreases j, 0
  {
    match j
    case Str(s) => StringRead(s, rest);
    case Num(n) => NumberBack(n, rest);
    case Arr(items) =>
      if items != [] {
        ReadPrintedItems(j, 0, rest);
      }
      ArrayRead(j, rest);
    case Obj(fields) =>
      if fields != [] {
        ReadPrintedFields(j, 0, rest);
      }
      ObjectRead(j, rest);
  }

  lemma StringRead(s: string, rest: string)
    ensures ReadJson(Quoted(s) + rest) == Some((Str(s), rest))
  {
    hide Escape, ReadString;
    StringBack(s, rest);
    assert (Quoted(s) + rest)[1..] == Escape(s) + ("\"" + rest);
  }

  lemma ArrayRead(j: Json, rest: string)
    requires j.Arr?
    requires j.items != [] ==> ReadItems(PrintItems(j, 0) + ("]" + rest)) == Some((j.items, rest))
    ensures ReadJson(Print(j) + rest) == Some((j, rest))
  {
    hide ReadItems, PrintItems;
    var s := Print(j) + rest;
    if j.items == [] {
      EmptyItems(j);
      assert s == "[]" + rest && s[2..] == rest;
    } else {
      ItemsHead(j);
      assert s[1..] == PrintItems(j, 0) + ("]" + rest);
      assert s[1] == PrintItems(j, 0)[0];
    }
  }

  lemma EmptyItems(j: Json)
    ensures j.Arr? && j.items == [] ==> PrintItems(j, 0) == ""
    ensures j.Obj? && j.fields == [] ==> PrintFields(j, 0) == ""
  {
  }

  lemma ItemsHead(j: Json)
    ensures j.Arr? && j.items != [] ==> PrintItems(j, 0) != "" && PrintItems(j, 0)[0] != ']'
    ensures j.Obj? && j.fields != [] ==> PrintFields(j, 0) != "" && PrintFields(j, 0)[0] == '"'
  {
    if j.Arr? && j.items != [] {
      PrintHead(j.items[0]);
    }
  }

  lemma ObjectRead(j: Json, rest: string)
    requires j.Obj?
    requires j.fields != [] ==> ReadFields(PrintFields(j, 0) + ("}" + rest)) == Some((j.fields, rest))
    ensures ReadJson(Print(j) + rest) == Some((j, rest))
  {
    hide ReadFields, PrintFields;
    var s := Print(j) + rest;
    if j.fields == [] {
      EmptyItems(j);
      assert s == "{}" + rest && s[2..] == rest;
    } else {
      ItemsHead(j);
      assert s[1..] == PrintFields(j, 0) + ("}" + rest);
      assert s[1] == PrintFields(j, 0)[0];
    }
  }

  lemma {:induction false} ReadPrintedItems(j: Json, i: nat, rest: string)
    requires j.Arr? && i < |j.items|
    ensures ReadItems(PrintItems(j, i) + ("]" + rest)) == Some((j.items[i..], rest))
    decreases j, 0, |j.items| - i
  {
    hide ReadJson, Print;
    var tail := ItemsTail(j, i + 1) + ("]" + rest);
    assert PrintItems(j, i) + ("]" + rest) == Print(j.items[i]) + tail;
    ReadPrinted(j.items[i], tail);
    if i + 1 == |j.items| {
      assert tail == "]" + rest && tail[1..] == rest;
      assert j.items[i..] == [j.items[i]];
    } else {
      ReadPrintedItems(j, i + 1, rest);
      assert tail == "," + (PrintItems(j, i + 1) + ("]" + rest));
      assert tail[1..] == PrintItems(j, i + 1) + ("]" + rest);
      assert j.items[i..] == [j.items[i]] + j.items[i + 1..];
    }
  }

  lemma FieldRead(key: string, value: Json, tail: string)
    requires ReadJson(Print(value) + tail) == Some((value, tail))
    ensures ReadField(Quoted(key) + (":" + (Print(value) + tail))) == Some((Field(key, value), tail))
  {
    hide ReadJson, Print, Escape, ReadString;
    var rest := ":" + (Print(value) + tail);
    var s := Quoted(key) + rest;
    StringBack(key, rest);
    assert s[1..] == Escape(key) + ("\"" + rest);
    assert rest[1..] == Print(value) + tail;
  }

  lemma {:induction false} ReadPrintedFields(j: Json, i: nat, rest: string)
    requires j.Obj? && i < |j.fields|
    ensures ReadFields(PrintFields(j, i) + ("}" + rest)) == Some((j.fields[i..], rest))
    decreases j, 0, |j.fields| - i
  {
    hide ReadField, Print, Quoted;
    var f := j.fields[i];
    var tail := FieldsTail(j, i + 1) + ("}" + rest);
    assert PrintFields(j, i) + ("}" + rest) == Quoted(f.key) + (":" + (Print(f.value) + tail));
    ReadPrinted(f.value, tail);
    FieldRead(f.key, f.value, tail);
    if i + 1 == |j.fields| {
      assert tail == "}" + rest && tail[1..] == rest;
      assert j.fields[i..] == [f];
    } else {
      ReadPrintedFields(j, i + 1, rest);
      assert tail == "," + (PrintFields(j, i + 1) + ("}" + rest));
      assert tail[1..] == PrintFields(j, i + 1) + ("}" + rest);
      assert j.fields[i..] == [f] + j.fields[i + 1..];
    }
  }

  /** Parsing undoes printing, on every value. */
  lemma {:induction false} ParsePrinted(j: Json)
    ensures Parse(Print(j)) == Some(j)
  {
    ReadPrinted(j, "");
    assert Print(j) + "" == Print(j);
  }
}
