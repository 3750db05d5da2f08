/** What a collector reads from the text of an envelope: everything that was put in, each under its own name. */
module Collector {
  import opened Common
  import opened Numerals
  import opened JsonText
  import opened Json
  import opened OtlpEnvelope

  datatype Received = Received(time: int, observed: int, severity: int, body: string, attributes: seq<Attribute>)

  datatype Export = Export(resource: seq<Attribute>, scopeName: string, scopeVersion: string, records: seq<Received>)

  function Get(j: Json, key: string): Option<Json> {
    if !j.Obj? then None else GetField(j.fields, key)
  }

  function GetField(fields: seq<Field>, key: string): Option<Json> {
    if fields == [] then None
    else if fields[0].key == key then Some(fields[0].value)
    else GetField(fields[1..], key)
  }

  function GetItems(j: Json, key: string): Option<seq<Json>> {
    var v :- Get(j, key);
    if v.Arr? then Some(v.items) else None
  }

  function GetText(j: Json, key: string): Option<string> {
    var v :- Get(j, key);
    if v.Str? then Some(v.text) else None
  }

  function ReadDecimal(s: string): Option<int> {
    var (n, rest) :- ReadNumber(s);
    if rest == "" then Some(n) else None
  }

  function DecodeAttr(j: Json): Option<Attribute> {
    var key :- GetText(j, "key");
    var v :- Get(j, "value");
    match GetText(v, "stringValue")
    case Some(s) => Some(Attribute(key, StringValue(s)))
    case None =>
      var text :- GetText(v, "intValue");
      var n :- ReadDecimal(text);
      Some(Attribute(key, IntValue(n)))
  }

  function DecodeAttrs(js: seq<Json>): Option<seq<Attribute>> {
    if js == [] then Some([])
    else
      var front :- DecodeAttrs(js[..|js| - 1]);
      var last :- DecodeAttr(js[|js| - 1]);
      Some(front + [last])
  }

  function GetDecimal(j: Json, key: string): Option<int> {
    var text :- GetText(j, key);
    ReadDecimal(text)
  }

  function GetNumber(j: Json, key: string): Option<int> {
    var v :- Get(j, key);
    if v.Num? then Some(v.n) else None
  }

  function DecodeRecord(j: Json): Option<Received> {
    var time :- GetDecimal(j, "timeUnixNano");
    var observed :- GetDecimal(j, "observedTimeUnixNano");
    var severity :- GetNumber(j, "severityNumber");
    var b :- Get(j, "body");
    var body :- GetText(b, "stringValue");
    var attrs :- GetItems(j, "attributes");
    var attributes :- DecodeAttrs(attrs);
    Some(Received(time, observed, severity, body, attributes))
  }

  function DecodeRecords(js: seq<Json>): Option<seq<Received>> {
    if js == [] then Some([])
    else
      var front :- DecodeRecords(js[..|js| - 1]);
      var last :- DecodeRecord(js[|js| - 1]);
      Some(front + [last])
  }

  function Only(js: seq<Json>): Option<Json> {
    if |js| == 1 then Some(js[0]) else None
  }

  function Decode(j: Json): Option<Export> {
    var logs :- GetItems(j, "resourceLogs");
    var log :- Only(logs);
    var res :- Get(log, "resource");
    var resAttrs :- GetItems(res, "attributes");
    var resource :- DecodeAttrs(resAttrs);
    var scopes :- GetItems(log, "scopeLogs");
    var scopeLog :- Only(scopes);
    var scope :- Get(scopeLog, "scope");
    var name :- GetText(scope, "name");
    var version :- GetText(scope, "version");
    var items :- GetItems(scopeLog, "logRecords");
    var records :- DecodeRecords(items);
    Some(Export(resource, name, version, records))
  }

  /** The records as sent: the drop count last on the first one only, and only when there is one. */
  function Sent(cfg: Config, records: seq<LogRecord>, drops: nat): (r: seq<Received>)
    ensures |r| == |records|
    ensures forall i :: 0 <= i < |r| ==>
              r[i] == Received(records[i].time, records[i].time, records[i].severity, records[i].body,
                               records[i].attributes + if i == 0 && drops > 0 then [Attribute(cfg.scopeName + ".drops", IntValue(drops))] else [])
  {
    if records == [] then []
    else
      var last := records[|records| - 1];
      Sent(cfg, records[..|records| - 1], drops)
      + [Received(last.time, last.time, last.severity, last.body,
                  last.attributes + if |records| == 1 && drops > 0 then [Attribute(cfg.scopeName + ".drops", IntValue(drops))] else [])]
  }

  function TextAttributes(texts: seq<(string, string)>): (r: seq<Attribute>)
    ensures |r| == |texts| && forall i :: 0 <= i < |r| ==> r[i] == Attribute(texts[i].0, StringValue(texts[i].1))
  {
    seq(|texts|, i requires 0 <= i < |texts| => Attribute(texts[i].0, StringValue(texts[i].1)))
  }

  lemma DifferentKeys()
    ensures "key" != "value" && "stringValue" != "intValue" && "scope" != "logRecords" && "resource" != "scopeLogs"
    ensures "timeUnixNano" != "body" && "observedTimeUnixNano" != "body" && "severityNumber" != "body"
    ensures "timeUnixNano" != "attributes" && "observedTimeUnixNano" != "attributes" && "severityNumber" != "attributes"
    ensures "body" != "attributes" && "timeUnixNano" != "observedTimeUnixNano" && "timeUnixNano" != "severityNumber"
    ensures "observedTimeUnixNano" != "severityNumber" && "name" != "version"
  {
  }

  lemma GetFirst(k: string, v: Json, rest: seq<Field>, key: string)
    ensures GetField([Field(k, v)] + rest, key) == if k == key then Some(v) else GetField(rest, key)
  {
  }

  lemma GetOne(k: string, v: Json, key: string)
    ensures GetField([Field(k, v)], key) == if k == key then Some(v) else None
  {
  }

  lemma GetTwo(k: string, v: Json, k2: string, v2: Json, key: string)
    ensures GetField([Field(k, v), Field(k2, v2)], key) == if k == key then Some(v) else if k2 == key then Some(v2) else None
  {
    assert [Field(k, v), Field(k2, v2)][1..] == [Field(k2, v2)];
    GetOne(k2, v2, key);
  }

  lemma DecimalBack(n: int)
    ensures ReadDecimal(Decimal(n)) == Some(n)
  {
    NumberBack(n, "");
    assert Decimal(n) + "" == Decimal(n);
  }

  lemma {:induction false} AttrBack(a: Attribute)
    ensures DecodeAttr(AttrJson(a)) == Some(a)
  {
    hide ReadDecimal, Decimal, GetField;
    DifferentKeys();
    var kind := if a.value.StringValue? then "stringValue" else "intValue";
    var text := Str(if a.value.StringValue? then a.value.s else Decimal(a.value.n));
    var v := Obj([Field(kind, text)]);
    assert AttrJson(a) == Obj([Field("key", Str(a.key)), Field("value", v)]);
    GetTwo("key", Str(a.key), "value", v, "key");
    GetTwo("key", Str(a.key), "value", v, "value");
    GetOne(kind, text, "stringValue");
    GetOne(kind, text, "intValue");
    if a.value.IntValue? {
      DecimalBack(a.value.n);
    }
  }

  lemma {:induction false} AttrsBack(attrs: seq<Attribute>)
    ensures DecodeAttrs(AttrJsons(attrs)) == Some(attrs)
  {
    hide DecodeAttr, AttrJson;
    if attrs != [] {
      var front, last := attrs[..|attrs| - 1], attrs[|attrs| - 1];
      AttrsBack(front);
      AttrBack(last);
      var js := AttrJsons(attrs);
      assert js[..|js| - 1] == AttrJsons(front);
      assert attrs == front + [last];
    }
  }

  lemma {:induction false} RecordBack(cfg: Config, r: LogRecord, drops: nat)
    ensures DecodeRecord(RecordJson(cfg, r, drops))
         == Some(Received(r.time, r.time, r.severity, r.body,
                          r.attributes + if drops > 0 then [Attribute(cfg.scopeName + ".drops", IntValue(drops))] else []))
  {
    hide GetField, DecodeAttrs, AttrJsons, Decimal, ReadDecimal;
    var attrs := AllAttributes(cfg, r, drops);
    var time := Str(Decimal(r.time));
    var body := Obj([Field("stringValue", Str(r.body))]);
    var list := Arr(AttrJsons(attrs));
    assert RecordJson(cfg, r, drops) == Obj(FiveFields(time, Num(r.severity), body, list));
    FiveGets(time, Num(r.severity), body, list);
    GetOne("stringValue", Str(r.body), "stringValue");
    DecimalBack(r.time);
    AttrsBack(attrs);
  }

  function FiveFields(time: Json, severity: Json, body: Json, list: Json): seq<Field> {
    [Field("timeUnixNano", time)] + ([Field("observedTimeUnixNano", time)] + ([Field("severityNumber", severity)]
      + ([Field("body", body)] + [Field("attributes", list)])))
  }

  lemma FiveGets(time: Json, severity: Json, body: Json, list: Json)
    ensures var fs := FiveFields(time, severity, body, list);
            && GetField(fs, "timeUnixNano") == Some(time) && GetField(fs, "observedTimeUnixNano") == Some(time)
            && GetField(fs, "severityNumber") == Some(severity)
            && GetField(fs, "body") == Some(body) && GetField(fs, "attributes") == Some(list)
  {
    hide GetField;
    DifferentKeys();
    GetsFrom(time, severity, body, list, "timeUnixNano");
    GetsFrom(time, severity, body, list, "observedTimeUnixNano");
    GetsFrom(time, severity, body, list, "severityNumber");
    GetsFrom(time, severity, body, list, "body");
    GetsFrom(time, severity, body, list, "attributes");
  }

  lemma GetsFrom(time: Json, severity: Json, body: Json, list: Json, key: string)
    ensures GetField(FiveFields(time, severity, body, list), key)
         == if key == "timeUnixNano" || key == "observedTimeUnixNano" then Some(time)
            else if key == "severityNumber" then Some(severity)
            else if key == "body" then Some(body)
            else if key == "attributes" then Some(list) else None
  {
    hide GetField;
    var f4 := [Field("attributes", list)];
    var f3 := [Field("body", body)] + f4;
    var f2 := [Field("severityNumber", severity)] + f3;
    var f1 := [Field("observedTimeUnixNano", time)] + f2;
    GetFirst("timeUnixNano", time, f1, key);
    GetFirst("observedTimeUnixNano", time, f2, key);
    GetFirst("severityNumber", severity, f3, key);
    GetFirst("body", body, f4, key);
    GetOne("attributes", list, key);
  }

  lemma {:induction false} RecordsBack(cfg: Config, records: seq<LogRecord>, drops: nat)
    ensures DecodeRecords(RecordJsons(cfg, records, drops)) == Some(Sent(cfg, records, drops))
  {
    hide DecodeRecord, RecordJson;
    if records != [] {
      var front, last := records[..|records| - 1], records[|records| - 1];
      RecordsBack(cfg, front, drops);
      RecordBack(cfg, last, if |records| == 1 then drops else 0);
      var js := RecordJsons(cfg, records, drops);
      assert js[..|js| - 1] == RecordJsons(cfg, front, drops);
    }
  }

  lemma ResourceBack(r: Resource)
    ensures DecodeAttrs(TextAttrs(ResourceTexts(r))) == Some(TextAttributes(ResourceTexts(r)))
  {
    hide ResourceTexts, DecodeAttrs;
    var attrs := TextAttributes(ResourceTexts(r));
    AttrsBack(attrs);
    assert TextAttrs(ResourceTexts(r)) == AttrJsons(attrs);
  }

  /**
   For any configuration and any records with string and integer attributes, what a collector reads from
   the envelope text is the resource, the scope, and in order the records with their times, severities,
   bodies and attributes, the drop count last on the first record.
   */
  lemma {:induction false} EnvelopeRoundTrip(cfg: Config, records: seq<LogRecord>, drops: nat)
    ensures Parse(Print(EnvelopeJson(cfg, records, drops))) == Some(EnvelopeJson(cfg, records, drops))
    ensures Decode(EnvelopeJson(cfg, records, drops))
         == Some(Export(TextAttributes(ResourceTexts(cfg.resource)), cfg.scopeName, cfg.resource.serviceVersion, Sent(cfg, records, drops)))
  {
    hide GetField, DecodeRecords, DecodeAttrs, RecordJsons, TextAttrs, ResourceTexts, Sent, Print;
    DifferentKeys();
    ParsePrinted(EnvelopeJson(cfg, records, drops));
    var name, version := Str(cfg.scopeName), Str(cfg.resource.serviceVersion);
    var scope := Obj([Field("name", name), Field("version", version)]);
    var list := Arr(RecordJsons(cfg, records, drops));
    var scopeLogs := Obj([Field("scope", scope), Field("logRecords", list)]);
    var attributes := Arr(TextAttrs(ResourceTexts(cfg.resource)));
    var resource := Obj([Field("attributes", attributes)]);
    var one := Obj([Field("resource", resource), Field("scopeLogs", Arr([scopeLogs]))]);
    GetOne("resourceLogs", Arr([one]), "resourceLogs");
    GetTwo("resource", resource, "scopeLogs", Arr([scopeLogs]), "resource");
    GetTwo("resource", resource, "scopeLogs", Arr([scopeLogs]), "scopeLogs");
    GetOne("attributes", attributes, "attributes");
    GetTwo("scope", scope, "logRecords", list, "scope");
    GetTwo("scope", scope, "logRecords", list, "logRecords");
    GetTwo("name", name, "version", version, "name");
    GetTwo("name", name, "version", version, "version");
    ResourceBack(cfg.resource);
    RecordsBack(cfg, records, drops);
  }

  // ----- Looking up the resource

  /** The first attribute with this key. */
  function LookUp(attrs: seq<Attribute>, key: string): Option<Value> {
    var i := FirstMatch(attrs, KeyIs(key));
    if i < |attrs| then Some(attrs[i].value) else None
  }

  function KeyIs(key: string): Attribute -> bool {
    (a: Attribute) => a.key == key
  }

  function LookUpText(attrs: seq<Attribute>, key: string): Option<string> {
    match LookUp(attrs, key)
    case Some(StringValue(s)) => Some(s)
    case _ => None
  }

  lemma FoundAt(attrs: seq<Attribute>, i: nat)
    requires i < |attrs| && attrs[i].value.StringValue? && forall j :: 0 <= j < i ==> attrs[j].key != attrs[i].key
    ensures LookUpText(attrs, attrs[i].key) == Some(attrs[i].value.s)
  {
  }

  lemma LookUpAfter(a: seq<Attribute>, b: seq<Attribute>, key: string)
    requires forall j :: 0 <= j < |a| ==> a[j].key != key
    ensures LookUpText(a + b, key) == LookUpText(b, key)
  {
    FirstMatchAfter(a, b, KeyIs(key));
  }

  lemma HostKeysDiffer()
    ensures "host.name" != "host.arch"
  {
    assert "host.name"[5] == 'n' && "host.arch"[5] == 'a';
  }

  /** The first nine attributes have keys of their own. */
  lemma FixedKeysDiffer(r: Resource, i: nat)
    requires i < 9
    ensures var attrs := TextAttributes(ResourceTexts(r));
            |attrs| >= 9 && forall j :: 0 <= j < i ==> attrs[j].key != attrs[i].key
  {
    HostKeysDiffer();
  }

  lemma FixedFound(r: Resource, i: nat)
    requires i < 9
    ensures var texts := ResourceTexts(r);
            |texts| >= 9 && LookUpText(TextAttributes(texts), texts[i].0) == Some(texts[i].1)
  {
    hide LookUpText, ResourceTexts;
    FixedKeysDiffer(r, i);
    FoundAt(TextAttributes(ResourceTexts(r)), i);
  }

  /** Each name leads to its own field, whatever the custom entries are. */
  lemma {:induction false} ResourceLookups(r: Resource)
    ensures var attrs := TextAttributes(ResourceTexts(r));
            && LookUpText(attrs, "service.name") == Some(r.serviceName)
            && LookUpText(attrs, "service.version") == Some(r.serviceVersion)
            && LookUpText(attrs, "host.name") == Some(r.hostName)
            && LookUpText(attrs, "host.arch") == Some(r.hostArch)
            && LookUpText(attrs, "os.type") == Some(r.osName)
            && LookUpText(attrs, "os.version") == Some(r.osVersion)
            && LookUpText(attrs, "telemetry.sdk.name") == Some("observablebsd")
            && LookUpText(attrs, "telemetry.sdk.language") == Some("swift")
            && LookUpText(attrs, "telemetry.sdk.version") == Some(r.serviceVersion)
  {
    hide LookUpText, TextAttributes;
    FixedFound(r, 0);
    FixedFound(r, 1);
    FixedFound(r, 2);
    FixedFound(r, 3);
    FixedFound(r, 4);
    FixedFound(r, 5);
    FixedFound(r, 6);
    FixedFound(r, 7);
    FixedFound(r, 8);
  }

  lemma FixedKeys(r: Resource)
    ensures var attrs := TextAttributes(ResourceTexts(r));
            |attrs| >= 9 && forall j :: 0 <= j < 9 ==> attrs[j].key != "service.instance.id"
  {
    var attrs := TextAttributes(ResourceTexts(r));
    assert forall j :: 0 <= j < 9 ==> |attrs[j].key| != 19;
  }

  lemma RestOfResource(r: Resource)
    ensures var attrs := TextAttributes(ResourceTexts(r));
            && (r.instanceId.Some? ==> |attrs| > 9 && attrs[9] == Attribute("service.instance.id", StringValue(r.instanceId.value)))
            && (r.instanceId.None? ==> |attrs| >= 9 && attrs[9..] == TextAttributes(r.custom))
  {
  }

  /** The instance identifier is there when it is set, and otherwise only if a custom entry gives it. */
  lemma {:induction false} InstanceLookup(r: Resource)
    ensures LookUpText(TextAttributes(ResourceTexts(r)), "service.instance.id")
         == if r.instanceId.Some? then r.instanceId else LookUpText(TextAttributes(r.custom), "service.instance.id")
  {
    hide ResourceTexts, LookUpText, TextAttributes;
    var attrs := TextAttributes(ResourceTexts(r));
    FixedKeys(r);
    RestOfResource(r);
    if r.instanceId.Some? {
      FoundAt(attrs, 9);
    } else {
      assert attrs == attrs[..9] + TextAttributes(r.custom);
      LookUpAfter(attrs[..9], TextAttributes(r.custom), "service.instance.id");
    }
  }

  /** The custom entries come last, in the order of the dictionary. */
  lemma {:induction false} CustomLast(r: Resource)
    ensures var attrs := TextAttributes(ResourceTexts(r));
            |attrs| == 9 + (if r.instanceId.Some? then 1 else 0) + |r.custom| && attrs[|attrs| - |r.custom|..] == TextAttributes(r.custom)
  {
  }
}
