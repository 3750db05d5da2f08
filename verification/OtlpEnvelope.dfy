/**
 The logs envelope of `OTLPHTTPJSONExporter`: the text that `buildEnvelope` appends piece by piece
 is the printed form of a JSON value, so it parses, and the records come back from it.
 */
module OtlpEnvelope {
  import opened Common
  import opened Numerals
  import opened JsonText
  import opened Json
  import opened Text

  datatype Value = StringValue(s: string) | IntValue(n: int)

  datatype Attribute = Attribute(key: string, value: Value)

  datatype LogRecord = LogRecord(time: u64, severity: int, body: string, attributes: seq<Attribute>)

  /** `ResourceAttributes`; the custom dictionary in the order it is enumerated. */
  datatype Resource = Resource(serviceName: string, serviceVersion: string, hostName: string, hostArch: string,
                               osName: string, osVersion: string, instanceId: Option<string>, custom: seq<(string, string)>)

  datatype Config = Config(scopeName: string, resource: Resource)

  // ----- The value that the envelope denotes

  function TextAttr(key: string, s: string): Json {
    Obj([Field("key", Str(key)), Field("value", Obj([Field("stringValue", Str(s))]))])
  }

  function IntAttr(key: string, n: int): Json {
    Obj([Field("key", Str(key)), Field("value", Obj([Field("intValue", Str(Decimal(n)))]))])
  }

  function AttrJson(a: Attribute): Json {
    match a.value
    case StringValue(s) => TextAttr(a.key, s)
    case IntValue(n) => IntAttr(a.key, n)
  }

  function AttrJsons(attrs: seq<Attribute>): (r: seq<Json>)
    ensures |r| == |attrs| && forall i :: 0 <= i < |r| ==> r[i] == AttrJson(attrs[i])
  {
    if attrs == [] then [] else AttrJsons(attrs[..|attrs| - 1]) + [AttrJson(attrs[|attrs| - 1])]
  }

  /** The attributes of a record, with the drop count appended when there is one to report. */
  function AllAttributes(cfg: Config, r: LogRecord, drops: nat): seq<Attribute> {
    r.attributes + if drops > 0 then [Attribute(cfg.scopeName + ".drops", IntValue(drops))] else []
  }

  function RecordJson(cfg: Config, r: LogRecord, drops: nat): Json {
    Obj([Field("timeUnixNano", Str(Decimal(r.time))),
         Field("observedTimeUnixNano", Str(Decimal(r.time))),
         Field("severityNumber", Num(r.severity)),
         Field("body", Obj([Field("stringValue", Str(r.body))])),
         Field("attributes", Arr(AttrJsons(AllAttributes(cfg, r, drops))))])
  }

  /** Only the first record carries the drop count. */
  function RecordJsons(cfg: Config, records: seq<LogRecord>, drops: nat): (js: seq<Json>)
    ensures |js| == |records| && forall i :: 0 <= i < |js| ==> js[i] == RecordJson(cfg, records[i], if i == 0 then drops else 0)
  {
    if records == [] then []
    else RecordJsons(cfg, records[..|records| - 1], drops)
         + [RecordJson(cfg, records[|records| - 1], if |records| == 1 then drops else 0)]
  }

  function ResourceTexts(r: Resource): seq<(string, string)> {
    [("service.name", r.serviceName), ("service.version", r.serviceVersion), ("host.name", r.hostName),
     ("host.arch", r.hostArch), ("os.type", r.osName), ("os.version", r.osVersion),
     ("telemetry.sdk.name", "observablebsd"), ("telemetry.sdk.language", "swift"),
     ("telemetry.sdk.version", r.serviceVersion)]
    + (if r.instanceId.Some? then [("service.instance.id", r.instanceId.value)] else [])
    + r.custom
  }

  function TextAttrs(texts: seq<(string, string)>): (r: seq<Json>)
    ensures |r| == |texts| && forall i :: 0 <= i < |r| ==> r[i] == TextAttr(texts[i].0, texts[i].1)
  {
    if texts == [] then [] else TextAttrs(texts[..|texts| - 1]) + [TextAttr(texts[|texts| - 1].0, texts[|texts| - 1].1)]
  }

  function EnvelopeJson(cfg: Config, records: seq<LogRecord>, drops: nat): Json {
    var scope := Obj([Field("name", Str(cfg.scopeName)), Field("version", Str(cfg.resource.serviceVersion))]);
    var scopeLogs := Obj([Field("scope", scope), Field("logRecords", Arr(RecordJsons(cfg, records, drops)))]);
    var resource := Obj([Field("attributes", Arr(TextAttrs(ResourceTexts(cfg.resource))))]);
    Obj([Field("resourceLogs", Arr([Obj([Field("resource", resource), Field("scopeLogs", Arr([scopeLogs]))])]))])
  }

  // ----- Printed objects with plain keys

  function Entry(key: string, text: string): string {
    "\"" + key + "\":" + text
  }

  lemma PrintEntry(key: string, text: string)
    requires AllPlain(key)
    ensures Quoted(key) + (":" + text) == Entry(key, text)
  {
    EscapePlain(key);
  }

  lemma PrintObj1(k: string, v: Json)
    requires AllPlain(k)
    ensures Print(Obj([Field(k, v)])) == "{" + Entry(k, Print(v)) + "}"
  {
    hide Quoted, Entry, Print, PrintFields, AllPlain;
    var j := Obj([Field(k, v)]);
    PrintField(j, 0);
    PrintObject(j);
    assert "{" + (Entry(k, Print(v)) + "" + "}") == "{" + Entry(k, Print(v)) + "}";
  }

  lemma PrintObj2(k: string, v: Json, k2: string, v2: Json)
    requires AllPlain(k) && AllPlain(k2)
    ensures Print(Obj([Field(k, v), Field(k2, v2)])) == "{" + Entry(k, Print(v)) + "," + Entry(k2, Print(v2)) + "}"
  {
    hide Quoted, Entry, Print, PrintFields, AllPlain;
    var j := Obj([Field(k, v), Field(k2, v2)]);
    PrintField(j, 0);
    PrintField(j, 1);
    PrintObject(j);
    TwoEntries(Entry(k, Print(v)), Entry(k2, Print(v2)));
  }

  lemma TwoEntries(a: string, b: string)
    ensures "{" + ((a + ("," + (b + ""))) + "}") == "{" + a + "," + b + "}"
  {
  }

  lemma PrintObject(j: Json)
    requires j.Obj?
    ensures Print(j) == "{" + (PrintFields(j, 0) + "}")
  {
  }

  lemma PrintField(j: Json, i: nat)
    requires j.Obj? && i < |j.fields| && AllPlain(j.fields[i].key)
    ensures PrintFields(j, i) == Entry(j.fields[i].key, Print(j.fields[i].value)) + if i + 1 == |j.fields| then "" else "," + PrintFields(j, i + 1)
  {
    hide Quoted, Entry, Print;
    var k, v := j.fields[i].key, Print(j.fields[i].value);
    PrintEntry(k, v);
    var tail := FieldsTail(j, i + 1);
    assert PrintFields(j, i) == Quoted(k) + (":" + (v + tail));
    assert PrintFields(j, i) == Quoted(k) + (":" + v) + tail;
  }

  // ----- Builders

  lemma PlainKeys()
    ensures AllPlain("key") && AllPlain("value") && AllPlain("stringValue") && AllPlain("intValue")
    ensures AllPlain("name") && AllPlain("version") && AllPlain("scope") && AllPlain("logRecords")
    ensures AllPlain("attributes") && AllPlain("resource") && AllPlain("scopeLogs") && AllPlain("resourceLogs")
    ensures AllPlain("body") && AllPlain("severityNumber") && AllPlain("timeUnixNano") && AllPlain("observedTimeUnixNano")
    ensures AllPlain(".drops")
  {
  }

  /** The text of one attribute, from the escaped key and the kind and text of its value. */
  function AttrText(ekey: string, kind: string, evalue: string): string {
    "{\"key\":\"" + ekey + "\",\"value\":{\"" + kind + "\":\"" + evalue + "\"}}"
  }

  lemma AttrPieces(ekey: string, kind: string, evalue: string)
    ensures AttrText(ekey, kind, evalue)
         == "{" + Entry("key", "\"" + (ekey + "\"")) + "," + Entry("value", "{" + Entry(kind, "\"" + (evalue + "\"")) + "}") + "}"
  {
  }

  lemma TextAttrPrinted(key: string, s: string)
    ensures Print(TextAttr(key, s)) == AttrText(Escape(key), "stringValue", Escape(s))
  {
    hide Entry, AttrText, AllPlain;
    PlainKeys();
    PrintObj1("stringValue", Str(s));
    PrintObj2("key", Str(key), "value", Obj([Field("stringValue", Str(s))]));
    AttrPieces(Escape(key), "stringValue", Escape(s));
  }

  lemma IntAttrPrinted(key: string, n: int)
    ensures Print(IntAttr(key, n)) == AttrText(Escape(key), "intValue", Decimal(n))
  {
    hide Entry, AttrText, AllPlain;
    PlainKeys();
    DecimalPlain(n);
    PrintObj1("intValue", Str(Decimal(n)));
    PrintObj2("key", Str(key), "value", Obj([Field("intValue", Str(Decimal(n)))]));
    AttrPieces(Escape(key), "intValue", Decimal(n));
  }

  lemma DecimalPlain(n: int)
    ensures AllPlain(Decimal(n)) && Escape(Decimal(n)) == Decimal(n)
  {
    var x := Numeral(if n < 0 then -n else n, Ten);
    assert forall i :: 0 <= i < |x| ==> x[i] in x;
    EscapePlain(Decimal(n));
  }

  /** What is still to be printed of an array after `i` items are out. */
  function Rest(js: seq<Json>, i: nat): string
    requires i <= |js|
  {
    if i == 0 then PrintItems(Arr(js), 0) else ItemsTail(Arr(js), i)
  }

  lemma RestStep(js: seq<Json>, i: nat)
    requires i < |js|
    ensures Rest(js, i) == (if i > 0 then "," else "") + Print(js[i]) + Rest(js, i + 1)
    ensures Rest(js, |js|) == ""
  {
    hide Print;
    if i + 1 < |js| {
      assert Rest(js, i + 1) == "," + PrintItems(Arr(js), i + 1);
    }
    assert PrintItems(Arr(js), i) == Print(js[i]) + ItemsTail(Arr(js), i + 1);
    assert "" + Print(js[i]) == Print(js[i]);
    assert "," + (Print(js[i]) + ItemsTail(Arr(js), i + 1)) == "," + Print(js[i]) + ItemsTail(Arr(js), i + 1);
  }

  /** The `value` switch of `buildRecordJSON`, with its frame. */
  method BuildAttribute(a: Attribute) returns (json: string)
    ensures json == Print(AttrJson(a))
  {
    var key := EscapeJSON(a.key);
    match a.value {
      case StringValue(s) =>
        var text := EscapeJSON(s);
        json := AttrText(key, "stringValue", text);
        TextAttrPrinted(a.key, s);
      case IntValue(n) =>
        json := AttrText(key, "intValue", Decimal(n));
        IntAttrPrinted(a.key, n);
    }
  }

  /** The attribute loop of `buildRecordJSON` and the drop count after it. */
  method BuildAttributes(cfg: Config, r: LogRecord, drops: nat) returns (json: string)
    ensures json == PrintItems(Arr(AttrJsons(AllAttributes(cfg, r, drops))), 0)
  {
    hide Print, PrintItems, Escape, AttrJson, Rest;
    ghost var js := AttrJsons(AllAttributes(cfg, r, drops));
    json := "";
    for i := 0 to |r.attributes|
      invariant json + Rest(js, i) == Rest(js, 0)
    {
      RestStep(js, i);
      assert js[i] == AttrJson(r.attributes[i]);
      var text := BuildAttribute(r.attributes[i]);
      if i > 0 {
        json := json + ",";
      }
      json := json + text;
    }
    RestEnd(js);
    if drops > 0 {
      RestStep(js, |r.attributes|);
      if r.attributes != [] {
        json := json + ",";
      }
      var text := BuildDrops(cfg, drops);
      json := json + text;
    }
    assert json + "" == json;
  }

  /** The drop count as one more attribute. */
  method BuildDrops(cfg: Config, drops: nat) returns (json: string)
    ensures json == Print(AttrJson(Attribute(cfg.scopeName + ".drops", IntValue(drops))))
  {
    hide Print, Escape, Unescape, AttrText, Decimal;
    var scope := EscapeJSON(cfg.scopeName);
    DropsKey(cfg.scopeName);
    IntAttrPrinted(cfg.scopeName + ".drops", drops);
    json := AttrText(scope + ".drops", "intValue", Decimal(drops));
  }

  lemma RestEnd(js: seq<Json>)
    ensures Rest(js, |js|) == "" && Rest(js, 0) == PrintItems(Arr(js), 0)
  {
  }

  lemma DropsKey(scope: string)
    ensures Escape(scope + ".drops") == Escape(scope) + ".drops"
  {
    PlainKeys();
    EscapePlain(".drops");
    EscapeConcat(scope, ".drops");
  }

  // The shapes that the string templates repeat.

  function StrEntry(key: string, e: string): string {
    "\"" + key + "\":\"" + e + "\""
  }

  function ObjEntry(key: string, inner: string): string {
    "\"" + key + "\":{" + inner + "}"
  }

  function ArrEntry(key: string, inner: string): string {
    "\"" + key + "\":[" + inner + "]"
  }

  lemma Entries(key: string, e: string)
    ensures StrEntry(key, e) == Entry(key, "\"" + (e + "\""))
    ensures ObjEntry(key, e) == Entry(key, "{" + e + "}")
    ensures ArrEntry(key, e) == Entry(key, "[" + (e + "]"))
  {
  }

  function RecordText(time: string, severity: string, ebody: string, attributes: string): string {
    "{" + StrEntry("timeUnixNano", time) + "," + StrEntry("observedTimeUnixNano", time) + ","
    + Entry("severityNumber", severity) + "," + ObjEntry("body", StrEntry("stringValue", ebody)) + ","
    + ArrEntry("attributes", attributes) + "}"
  }

  lemma FiveEntries(a: string, b: string, c: string, d: string, e: string)
    ensures "{" + a + "," + b + "," + c + "," + d + "," + e + "}"
         == "{" + ((a + ("," + (b + ("," + (c + ("," + (d + ("," + e)))))))) + "}")
  {
  }

  lemma RecordPieces(time: string, severity: string, ebody: string, attributes: string)
    ensures RecordText(time, severity, ebody, attributes)
         == "{" + ((Entry("timeUnixNano", "\"" + (time + "\"")) + ("," + (Entry("observedTimeUnixNano", "\"" + (time + "\""))
            + ("," + (Entry("severityNumber", severity) + ("," + (Entry("body", "{" + Entry("stringValue", "\"" + (ebody + "\"")) + "}")
            + ("," + Entry("attributes", "[" + (attributes + "]")))))))))) + "}")
  {
    hide StrEntry, ObjEntry, ArrEntry, Entry;
    Entries("timeUnixNano", time);
    Entries("observedTimeUnixNano", time);
    Entries("stringValue", ebody);
    Entries("body", StrEntry("stringValue", ebody));
    Entries("attributes", attributes);
    FiveEntries(StrEntry("timeUnixNano", time), StrEntry("observedTimeUnixNano", time), Entry("severityNumber", severity),
                ObjEntry("body", StrEntry("stringValue", ebody)), ArrEntry("attributes", attributes));
  }

  lemma RecordPrinted(cfg: Config, r: LogRecord, drops: nat)
    ensures Print(RecordJson(cfg, r, drops))
         == RecordText(Decimal(r.time), Decimal(r.severity), Escape(r.body), PrintItems(Arr(AttrJsons(AllAttributes(cfg, r, drops))), 0))
  {
    hide Entry, RecordText, AllPlain, Decimal, AttrJsons, PrintFields;
    var j := RecordJson(cfg, r, drops);
    PlainKeys();
    DecimalPlain(r.time);
    PrintObj1("stringValue", Str(r.body));
    PrintField(j, 0);
    PrintField(j, 1);
    PrintField(j, 2);
    PrintField(j, 3);
    PrintField(j, 4);
    RecordPieces(Decimal(r.time), Decimal(r.severity), Escape(r.body), PrintItems(Arr(AttrJsons(AllAttributes(cfg, r, drops))), 0));
  }

  /** `buildRecordJSON`. */
  method BuildRecordJSON(cfg: Config, r: LogRecord, drops: nat) returns (json: string)
    ensures json == Print(RecordJson(cfg, r, drops))
  {
    hide Print, PrintItems, RecordText;
    var body := EscapeJSON(r.body);
    var attributes := BuildAttributes(cfg, r, drops);
    json := RecordText(Decimal(r.time), Decimal(r.severity), body, attributes);
    RecordPrinted(cfg, r, drops);
  }

  // ----- Resource attributes: map and join

  function ResourceParts(texts: seq<(string, string)>): (r: seq<string>)
    ensures |r| == |texts| && forall i :: 0 <= i < |r| ==> r[i] == AttrText(Escape(texts[i].0), "stringValue", Escape(texts[i].1))
  {
    if texts == [] then []
    else ResourceParts(texts[..|texts| - 1]) + [AttrText(Escape(texts[|texts| - 1].0), "stringValue", Escape(texts[|texts| - 1].1))]
  }

  /** `resourceAttributesJSON`. */
  function ResourceText(r: Resource): string {
    Join(ResourceParts(ResourceTexts(r)), ',')
  }

  lemma {:induction false} JoinedItems(js: seq<Json>, parts: seq<string>, i: nat)
    requires |js| == |parts| && i <= |js| && forall k :: 0 <= k < |js| ==> parts[k] == Print(js[k])
    ensures PrintItems(Arr(js), i) == Join(parts[i..], ',')
    decreases |js| - i
  {
    hide Print;
    if i < |js| {
      JoinedItems(js, parts, i + 1);
      assert parts[i..][1..] == parts[i + 1..];
      if i + 1 == |js| {
        assert parts[i..] == [parts[i]];
        assert Print(js[i]) + "" == Print(js[i]);
      }
    }
  }

  lemma {:induction false} ResourcePrinted(r: Resource)
    ensures ResourceText(r) == PrintItems(Arr(TextAttrs(ResourceTexts(r))), 0)
  {
    hide Print, PrintItems, AttrText, ResourceTexts, Escape, TextAttr;
    var texts := ResourceTexts(r);
    var js, parts := TextAttrs(texts), ResourceParts(texts);
    forall k | 0 <= k < |js|
      ensures parts[k] == Print(js[k])
    {
      TextAttrPrinted(texts[k].0, texts[k].1);
    }
    JoinedItems(js, parts, 0);
    assert parts[0..] == parts;
  }

  // ----- The envelope

  function EnvelopeText(resource: string, name: string, version: string, records: string): string {
    "{" + ArrEntry("resourceLogs",
                   "{" + ObjEntry("resource", ArrEntry("attributes", resource)) + ","
                   + ArrEntry("scopeLogs",
                              "{" + ObjEntry("scope", StrEntry("name", name) + "," + StrEntry("version", version)) + ","
                              + ArrEntry("logRecords", records) + "}")
                   + "}")
    + "}"
  }

  lemma EnvelopePieces(resource: string, name: string, version: string, records: string)
    ensures var scope := "{" + Entry("name", "\"" + (name + "\"")) + "," + Entry("version", "\"" + (version + "\"")) + "}";
            var scopeLogs := "{" + Entry("scope", scope) + "," + Entry("logRecords", "[" + (records + "]")) + "}";
            var res := "{" + Entry("attributes", "[" + (resource + "]")) + "}";
            EnvelopeText(resource, name, version, records)
              == "{" + Entry("resourceLogs", "[" + ("{" + Entry("resource", res) + "," + Entry("scopeLogs", "[" + (scopeLogs + "]")) + "}" + "]")) + "}"
  {
    hide StrEntry, ObjEntry, ArrEntry, Entry;
    Entries("name", name);
    Entries("version", version);
    var both := StrEntry("name", name) + "," + StrEntry("version", version);
    Entries("scope", both);
    assert "{" + both + "}" == "{" + StrEntry("name", name) + "," + StrEntry("version", version) + "}";
    Entries("logRecords", records);
    Entries("attributes", resource);
    Entries("resource", ArrEntry("attributes", resource));
    var scopeLogs := "{" + ObjEntry("scope", both) + "," + ArrEntry("logRecords", records) + "}";
    Entries("scopeLogs", scopeLogs);
    Entries("resourceLogs", "{" + ObjEntry("resource", ArrEntry("attributes", resource)) + "," + ArrEntry("scopeLogs", scopeLogs) + "}");
  }

  lemma PrintOne(j: Json)
    ensures Print(Arr([j])) == "[" + (Print(j) + "]")
  {
    hide Print;
    assert PrintItems(Arr([j]), 0) == Print(j) + ItemsTail(Arr([j]), 1);
    assert Print(j) + "" == Print(j);
    PrintArr(Arr([j]));
  }

  lemma PrintArr(j: Json)
    requires j.Arr?
    ensures Print(j) == "[" + (PrintItems(j, 0) + "]")
  {
  }

  lemma EnvelopePrinted(cfg: Config, records: seq<LogRecord>, drops: nat)
    ensures Print(EnvelopeJson(cfg, records, drops))
         == EnvelopeText(ResourceText(cfg.resource), Escape(cfg.scopeName), Escape(cfg.resource.serviceVersion),
                         PrintItems(Arr(RecordJsons(cfg, records, drops)), 0))
  {
    hide Entry, EnvelopeText, AllPlain, PrintFields, PrintItems, RecordJsons, TextAttrs, ResourceTexts, ResourceText;
    PlainKeys();
    ResourcePrinted(cfg.resource);
    var name, version := Str(cfg.scopeName), Str(cfg.resource.serviceVersion);
    var scope := Obj([Field("name", name), Field("version", version)]);
    var list := Arr(RecordJsons(cfg, records, drops));
    var scopeLogs := Obj([Field("scope", scope), Field("logRecords", list)]);
    var attributes := Arr(TextAttrs(ResourceTexts(cfg.resource)));
    var resource := Obj([Field("attributes", attributes)]);
    var one := Obj([Field("resource", resource), Field("scopeLogs", Arr([scopeLogs]))]);
    PrintObj2("name", name, "version", version);
    PrintObj2("scope", scope, "logRecords", list);
    PrintArr(list);
    PrintObj1("attributes", attributes);
    PrintArr(attributes);
    PrintOne(scopeLogs);
    PrintObj2("resource", resource, "scopeLogs", Arr([scopeLogs]));
    PrintOne(one);
    PrintObj1("resourceLogs", Arr([one]));
    EnvelopePieces(ResourceText(cfg.resource), Escape(cfg.scopeName), Escape(cfg.resource.serviceVersion), PrintItems(list, 0));
  }

  /** The record loop of `buildEnvelope`. */
  method BuildRecords(cfg: Config, records: seq<LogRecord>, drops: nat) returns (list: string)
    ensures list == PrintItems(Arr(RecordJsons(cfg, records, drops)), 0)
  {
    hide Print, PrintItems, RecordJson;
    ghost var js := RecordJsons(cfg, records, drops);
    list := "";
    for i := 0 to |records|
      invariant list + Rest(js, i) == Rest(js, 0)
    {
      RestStep(js, i);
      if i > 0 {
        list := list + ",";
      }
      var recordDrops := if i == 0 && drops > 0 then drops else 0;
      var text := BuildRecordJSON(cfg, records[i], recordDrops);
      list := list + text;
    }
    RestEnd(js);
    assert list + "" == list;
  }

  /** `buildEnvelope`: the text parses, to the envelope of exactly these records and drops. */
  method BuildEnvelope(cfg: Config, records: seq<LogRecord>, drops: nat) returns (json: string)
    ensures json == Print(EnvelopeJson(cfg, records, drops))
    ensures Parse(json) == Some(EnvelopeJson(cfg, records, drops))
  {
    hide Print, PrintItems, EnvelopeText, EnvelopeJson, ResourceText, Parse, Unescape, Escape;
    var name := EscapeJSON(cfg.scopeName);
    var version := EscapeJSON(cfg.resource.serviceVersion);
    var list := BuildRecords(cfg, records, drops);
    json := EnvelopeText(ResourceText(cfg.resource), name, version, list);
    EnvelopePrinted(cfg, records, drops);
    ParsePrinted(EnvelopeJson(cfg, records, drops));
  }
}
