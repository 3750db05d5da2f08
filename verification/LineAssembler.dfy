/**
 Grouping of DTrace output lines into events (`runStructuredBackend` in `WatchRunner.swift`):
 a body line followed by kernel frames, a marker, and user frames.
 */
module LineAssembler {
  import opened Common
  import opened Text
  import opened Numerals
  import opened StackFrames

  datatype Event = Event(body: string, stack: Option<seq<Frame>>, ustack: Option<seq<Frame>>)

  /** What a line is to the handler. */
  datatype Item = Nothing | FrameItem(frame: Frame) | Marker | Body(text: string)

  const USTACK_MARKER := "__BSDINSTRUMENTS_USTACK__"

  predicate LooksLikeFrame(raw: string, trimmed: string) {
    raw != "" && IsSpace(raw[0], true) && ('`' in trimmed || "0x" <= trimmed)
  }

  function Classify(raw: string): Item {
    var trimmed := Trim(raw, true);
    if trimmed == "" then Nothing
    else if LooksLikeFrame(raw, trimmed) then FrameItem(ParseFrame(trimmed))
    else if trimmed == USTACK_MARKER then Marker
    else Body(trimmed)
  }

  function ClassifyAll(lines: seq<string>): seq<Item> {
    if lines == [] then [] else ClassifyAll(lines[..|lines| - 1]) + [Classify(lines[|lines| - 1])]
  }

  /** The items of one callback's text. */
  function Items(text: string): seq<Item> {
    ClassifyAll(Split(text, '\n'))
  }

  // ----- Which line is what

  /** Blanks that can stand before a frame. */
  predicate Indent(w: string) {
    w != "" && forall i :: 0 <= i < |w| ==> w[i] == ' ' || w[i] == '\t'
  }

  /** No white space at either end. */
  predicate Tight(text: string) {
    text != "" && !IsSpace(text[0], true) && !IsSpace(text[|text| - 1], true)
  }

  lemma {:induction false} TrimIndent(w: string, text: string)
    requires Tight(text) && forall i :: 0 <= i < |w| ==> w[i] == ' ' || w[i] == '\t'
    ensures Trim(w + text, true) == text
  {
    if w == "" {
      assert w + text == text;
    } else {
      assert (w + text)[1..] == w[1..] + text;
      TrimIndent(w[1..], text);
    }
  }

  /** An indented frame with a module, or an indented address, is that frame. */
  lemma {:induction false} FrameLine(w: string, f: Frame)
    requires Indent(w) && Canonical(f) && (f.moduleName.Some? || f.symbol.None?) && Tight(Formatted(f))
    ensures Classify(w + Formatted(f)) == FrameItem(f)
  {
    hide ParseFrame, Canonical, Trim;
    var text := Formatted(f);
    TrimIndent(w, text);
    FrameRoundTrip(f);
    FormattedMark(f);
    assert (w + text)[0] == w[0];
  }

  /** So is any other indented line with a backtick or a leading `0x`, as far as it parses. */
  lemma {:induction false} IndentedLine(raw: string)
    requires raw != "" && (raw[0] == ' ' || raw[0] == '\t')
    requires var text := Trim(raw, true); '`' in text || "0x" <= text
    ensures Classify(raw) == FrameItem(ParseFrame(Trim(raw, true)))
  {
    hide ParseFrame, Trim;
  }

  /** Blank lines are skipped. */
  lemma {:induction false} BlankLine(raw: string)
    requires forall i :: 0 <= i < |raw| ==> raw[i] == ' ' || raw[i] == '\t'
    ensures Classify(raw) == Nothing
  {
    AllTrimmed(raw);
  }

  lemma {:induction false} AllTrimmed(raw: string)
    requires forall i :: 0 <= i < |raw| ==> raw[i] == ' ' || raw[i] == '\t'
    ensures TrimLeft(raw, true) == ""
  {
    if raw != "" {
      AllTrimmed(raw[1..]);
    }
  }

  lemma FormattedMark(f: Frame)
    requires Canonical(f) && (f.moduleName.Some? || f.symbol.None?)
    ensures '`' in Formatted(f) || "0x" <= Formatted(f)
  {
    if f.symbol.None? {
      assert Formatted(f)[..2] == "0x";
    } else {
      assert Formatted(f)[|f.moduleName.value|] == '`';
    }
  }

  /** A line that is not indented is a body, or the marker when it is exactly that text. */
  lemma {:induction false} BodyLine(raw: string)
    requires raw != "" && !IsSpace(raw[0], true)
    ensures Classify(raw) == if Trim(raw, true) == "__BSDINSTRUMENTS_USTACK__" then Marker else Body(Trim(raw, true))
  {
    assert Trim(raw, true) != "" by {
      TightHead(raw);
    }
  }

  lemma {:induction false} TightHead(raw: string)
    requires raw != "" && !IsSpace(raw[0], true)
    ensures TrimRight(raw, true) != ""
  {
    if |raw| > 1 && IsSpace(raw[|raw| - 1], true) {
      TightHead(raw[..|raw| - 1]);
    }
  }

  /** A line without a backtick that does not begin with `0x`, white space aside, is never a frame. */
  lemma {:induction false} NeverFrame(raw: string)
    requires '`' !in raw && !("0x" <= Trim(raw, true))
    ensures !Classify(raw).FrameItem?
  {
    assert forall c :: c in Trim(raw, true) ==> c in raw by {
      TrimWithin(raw);
    }
  }

  lemma TrimWithin(raw: string)
    ensures forall c :: c in Trim(raw, true) ==> c in raw
  {
    var l := TrimLeft(raw, true);
    assert Trim(raw, true) <= l && l == raw[|raw| - |l|..];
  }

  // ----- The state machine

  datatype State = State(body: Option<string>, kernel: seq<Frame>, user: seq<Frame>, inUser: bool, events: seq<Event>)

  const START := State(None, [], [], false, [])

  function OrNil(fs: seq<Frame>): Option<seq<Frame>> {
    if fs == [] then None else Some(fs)
  }

  /** `flushPending`. */
  function Flush(s: State): State {
    if s.body.None? then s
    else State(None, [], [], false, s.events + [Event(s.body.value, OrNil(s.kernel), OrNil(s.user))])
  }

  function Feed(s: State, item: Item): State {
    match item
    case Nothing => s
    case FrameItem(f) => if s.inUser then s.(user := s.user + [f]) else s.(kernel := s.kernel + [f])
    case Marker => s.(inUser := true)
    case Body(text) => Flush(s).(body := Some(text))
  }

  function FeedAll(s: State, items: seq<Item>): State {
    if items == [] then s else Feed(FeedAll(s, items[..|items| - 1]), items[|items| - 1])
  }

  // ----- The object

  class Handler {
    var pendingBody: Option<string>
    var pendingKStack: seq<Frame>
    var pendingUStack: seq<Frame>
    var inUStack: bool
    var emitted: seq<Event>

    ghost function Contents(): State
      reads this
    {
      State(pendingBody, pendingKStack, pendingUStack, inUStack, emitted)
    }

    constructor ()
      ensures Contents() == START
    {
      pendingBody, pendingKStack, pendingUStack, inUStack, emitted := None, [], [], false, [];
    }

    /** `flushPending`; the exporter is the list of emitted events. */
    method FlushPending()
      modifies this
      ensures Contents() == Flush(old(Contents()))
    {
      if pendingBody.None? {
        return;
      }
      var event := Event(pendingBody.value,
                         if pendingKStack == [] then None else Some(pendingKStack),
                         if pendingUStack == [] then None else Some(pendingUStack));
      pendingBody := None;
      pendingKStack := [];
      pendingUStack := [];
      inUStack := false;
      emitted := emitted + [event];
    }

    /** One line of a callback. */
    method OnLine(raw: string)
      modifies this
      ensures Contents() == Feed(old(Contents()), Classify(raw))
    {
      hide ParseFrame, Trim, LooksLikeFrame;
      var trimmed := Trim(raw, true);
      if trimmed == "" {
        return;
      }
      if LooksLikeFrame(raw, trimmed) {
        var frame := ParseFrame(trimmed);
        if inUStack {
          pendingUStack := pendingUStack + [frame];
        } else {
          pendingKStack := pendingKStack + [frame];
        }
      } else if trimmed == USTACK_MARKER {
        inUStack := true;
      } else {
        FlushPending();
        pendingBody := Some(trimmed);
      }
    }

    /** The loop over the lines of one callback. */
    method OnLines(lines: seq<string>)
      modifies this
      ensures Contents() == FeedAll(old(Contents()), ClassifyAll(lines))
    {
      hide Classify, Feed;
      for i := 0 to |lines|
        invariant Contents() == FeedAll(old(Contents()), ClassifyAll(lines[..i]))
      {
        ClassifySnoc(lines, i);
        FeedSnoc(old(Contents()), ClassifyAll(lines[..i]), Classify(lines[i]));
        OnLine(lines[i]);
      }
      assert lines[..|lines|] == lines;
    }

    /** The buffered-output handler; aggregation fragments are skipped. */
    method OnOutput(text: string, aggregation: bool)
      modifies this
      ensures Contents() == if aggregation then old(Contents()) else FeedAll(old(Contents()), Items(text))
    {
      if !aggregation {
        OnLines(Split(text, '\n'));
      }
    }
  }

  lemma ClassifySnoc(lines: seq<string>, i: nat)
    requires i < |lines|
    ensures ClassifyAll(lines[..i + 1]) == ClassifyAll(lines[..i]) + [Classify(lines[i])]
  {
    hide Classify;
    assert lines[..i + 1][..i] == lines[..i];
  }

  lemma FeedSnoc(s: State, items: seq<Item>, item: Item)
    ensures FeedAll(s, items + [item]) == Feed(FeedAll(s, items), item)
  {
  }

  // ----- Nothing is lost

  function Bodies(items: seq<Item>): seq<string> {
    if items == [] then []
    else Bodies(items[..|items| - 1]) + BodyOf(items[|items| - 1])
  }

  function Frames(items: seq<Item>): seq<Frame> {
    if items == [] then []
    else Frames(items[..|items| - 1]) + FrameOf(items[|items| - 1])
  }

  function OrEmpty(fs: Option<seq<Frame>>): seq<Frame> {
    if fs.Some? then fs.value else []
  }

  function EventBodies(es: seq<Event>): seq<string> {
    if es == [] then [] else EventBodies(es[..|es| - 1]) + [es[|es| - 1].body]
  }

  function EventFrames(es: seq<Event>): seq<Frame> {
    if es == [] then [] else EventFrames(es[..|es| - 1]) + (OrEmpty(es[|es| - 1].stack) + OrEmpty(es[|es| - 1].ustack))
  }

  function PendingBodies(s: State): seq<string> {
    if s.body.Some? then [s.body.value] else []
  }

  lemma FlushKeeps(s: State)
    ensures EventBodies(Flush(s).events) + PendingBodies(Flush(s)) == EventBodies(s.events) + PendingBodies(s)
    ensures EventFrames(Flush(s).events) + Flush(s).kernel + Flush(s).user == EventFrames(s.events) + s.kernel + s.user
  {
  }

  /** Emitted and pending together are what came in, in order. */
  lemma {:induction false} FedSoFar(items: seq<Item>)
    ensures var s := FeedAll(START, items);
            && EventBodies(s.events) + PendingBodies(s) == Bodies(items)
            && EventFrames(s.events) + s.kernel + s.user == Frames(items)
            && (!s.inUser ==> s.user == [])
            && (s.body.None? <==> Bodies(items) == [])
            && (s.body.None? ==> s.events == [])
  {
    if items != [] {
      hide Feed, EventBodies, EventFrames, PendingBodies;
      var front, last := items[..|items| - 1], items[|items| - 1];
      FedSoFar(front);
      FeedKeeps(FeedAll(START, front), last);
    } else {
      assert EventFrames(START.events) + [] + [] == [];
    }
  }

  function BodyOf(item: Item): seq<string> {
    if item.Body? then [item.text] else []
  }

  function FrameOf(item: Item): seq<Frame> {
    if item.FrameItem? then [item.frame] else []
  }

  /** One item adds its body, or its frame, and nothing else. */
  lemma FeedKeeps(s: State, item: Item)
    requires !s.inUser ==> s.user == []
    ensures var t := Feed(s, item);
            && EventBodies(t.events) + PendingBodies(t) == EventBodies(s.events) + PendingBodies(s) + BodyOf(item)
            && EventFrames(t.events) + t.kernel + t.user == EventFrames(s.events) + s.kernel + s.user + FrameOf(item)
            && (!t.inUser ==> t.user == [])
            && (t.body.None? <==> s.body.None? && !item.Body?)
            && (s.body.None? ==> t.events == s.events)
  {
    hide EventBodies, EventFrames;
    if item.Body? {
      FlushKeeps(s);
      assert PendingBodies(Flush(s)) == [];
    }
  }

  /** Everything the handler has emitted once the last pending event is flushed. */
  function Output(items: seq<Item>): seq<Event> {
    Flush(FeedAll(START, items)).events
  }

  /**
   The emitted bodies are exactly the body lines in order.  The emitted frames are exactly the frame
   lines in order, frames before the first body included, unless no body ever came: then every frame
   is lost.
   */
  lemma {:induction false} NothingLost(items: seq<Item>)
    ensures EventBodies(Output(items)) == Bodies(items)
    ensures EventFrames(Output(items)) == Frames(items) <==> Bodies(items) != [] || Frames(items) == []
    ensures Bodies(items) == [] ==> Output(items) == []
  {
    var s := FeedAll(START, items);
    FedSoFar(items);
    FlushKeeps(s);
    if s.body.Some? {
      assert EventFrames(Flush(s).events) + [] + [] == EventFrames(Flush(s).events);
      assert EventBodies(Flush(s).events) + [] == EventBodies(Flush(s).events);
    } else {
      assert EventBodies(s.events) == [] && EventFrames(s.events) == [];
    }
  }

  /** A frame and never a body. */
  lemma {:induction false} LoneFrameLost(f: Frame)
    ensures Output([FrameItem(f)]) == [] && Frames([FrameItem(f)]) == [f]
  {
    assert [FrameItem(f)][..0] == [];
    assert FeedAll(START, [FrameItem(f)]) == Feed(START, FrameItem(f));
    assert Frames([FrameItem(f)]) == Frames([]) + [f];
  }

  // ----- Frames go to the body before them

  predicate NoBody(items: seq<Item>) {
    forall i :: 0 <= i < |items| ==> !items[i].Body?
  }

  /** The frames before the first marker. */
  function KernelFrames(items: seq<Item>): seq<Frame> {
    if items == [] || items[0].Marker? then []
    else (if items[0].FrameItem? then [items[0].frame] else []) + KernelFrames(items[1..])
  }

  /** The frames after it. */
  function UserFrames(items: seq<Item>): seq<Frame> {
    if items == [] then []
    else if items[0].Marker? then FrontFrames(items[1..])
    else UserFrames(items[1..])
  }

  function FrontFrames(items: seq<Item>): seq<Frame> {
    if items == [] then [] else (if items[0].FrameItem? then [items[0].frame] else []) + FrontFrames(items[1..])
  }

  lemma {:induction false} FeedConcat(s: State, a: seq<Item>, b: seq<Item>)
    ensures FeedAll(s, a + b) == FeedAll(FeedAll(s, a), b)
  {
    hide Feed;
    if b == [] {
      assert a + b == a;
    } else {
      assert (a + b)[..|a + b| - 1] == a + b[..|b| - 1];
      FeedConcat(s, a, b[..|b| - 1]);
    }
  }

  lemma {:induction false} FeedFront(s: State, items: seq<Item>)
    requires items != []
    ensures FeedAll(s, items) == FeedAll(Feed(s, items[0]), items[1..])
  {
    hide Feed;
    assert items == [items[0]] + items[1..];
    FeedConcat(s, [items[0]], items[1..]);
    assert [items[0]][..0] == [];
  }

  lemma {:induction false} FeedFrames(s: State, items: seq<Item>)
    requires NoBody(items)
    ensures FeedAll(s, items)
         == if s.inUser then s.(user := s.user + FrontFrames(items))
            else s.(kernel := s.kernel + KernelFrames(items), user := s.user + UserFrames(items),
                    inUser := FeedAll(s, items).inUser)
    decreases |items|
  {
    if items != [] {
      FeedFront(s, items);
      FeedFrames(Feed(s, items[0]), items[1..]);
    } else {
      assert s.user + [] == s.user && s.kernel + [] == s.kernel;
    }
  }

  /** Frames and markers do not look at the pending body. */
  lemma {:induction false} BodyAside(s: State, body: Option<string>, items: seq<Item>)
    requires NoBody(items)
    ensures FeedAll(s.(body := body), items) == FeedAll(s, items).(body := body)
  {
    if items != [] {
      BodyAside(s, body, items[..|items| - 1]);
    }
  }

  /**
   The first body takes the frames before it as well.  A marker among them counts: it is not reset
   until the first event is complete, so what follows it is filed as user frames.
   */
  lemma {:induction false} FirstEventTakesAll(before: seq<Item>, body: string, after: seq<Item>)
    requires NoBody(before) && NoBody(after)
    ensures Output(before + [Body(body)] + after)
         == [Event(body, OrNil(KernelFrames(before + after)), OrNil(UserFrames(before + after)))]
  {
    var s := FeedAll(START, before);
    FeedFrames(START, before);
    FeedConcat(START, before + [Body(body)], after);
    FeedConcat(START, before, [Body(body)]);
    assert [Body(body)][..0] == [];
    assert FeedAll(s, [Body(body)]) == s.(body := Some(body));
    BodyAside(s, Some(body), after);
    FeedConcat(START, before, after);
    FeedFrames(START, before + after);
    assert [] + KernelFrames(before + after) == KernelFrames(before + after);
    assert [] + UserFrames(before + after) == UserFrames(before + after);
  }

  /** A marker, a body, and a frame that the body's own kernel stack should have had. */
  lemma {:induction false} EarlyMarkerMisfiles(body: string, f: Frame)
    ensures Output([Marker] + [Body(body)] + [FrameItem(f)]) == [Event(body, None, Some([f]))]
  {
    FirstEventTakesAll([Marker], body, [FrameItem(f)]);
    var all := [Marker] + [FrameItem(f)];
    assert all[1..] == [FrameItem(f)] && [FrameItem(f)][1..] == [];
    assert FrontFrames([FrameItem(f)]) == [f] + FrontFrames([]) == [f];
    assert all[0] == Marker && KernelFrames(all) == [] && UserFrames(all) == [f];
  }

  /**
   Once a body has been seen, a further body opens an event of its own that takes all frames up to
   the next body: kernel frames before the marker, user frames after it.
   */
  lemma {:induction false} EventTakesItsFrames(before: seq<Item>, body: string, after: seq<Item>)
    requires Bodies(before) != [] && NoBody(after)
    ensures Output(before + [Body(body)] + after)
         == Output(before) + [Event(body, OrNil(KernelFrames(after)), OrNil(UserFrames(after)))]
  {
    var s := FeedAll(START, before);
    FedSoFar(before);
    FeedConcat(START, before + [Body(body)], after);
    FeedConcat(START, before, [Body(body)]);
    assert [Body(body)][..0] == [];
    assert FeedAll(s, [Body(body)]) == Feed(s, Body(body));
    var t := Feed(s, Body(body));
    FeedFrames(t, after);
    assert [] + KernelFrames(after) == KernelFrames(after) && [] + UserFrames(after) == UserFrames(after);
  }

  /** A body line and an indented frame, as text. */
  lemma {:induction false} HitWithFrame()
    ensures Output(Items("hit\n  kernel`foo+0x10\n"))
         == [Event("hit", Some([Frame(0, Some("kernel"), Some("foo"), Some(16))]), None)]
  {
    hide ClassifyAll, Output, Split;
    var frame := Frame(0, Some("kernel"), Some("foo"), Some(16));
    HitSplit();
    HitItems("  kernel`foo+0x10", frame);
    NothingFed([Body("hit"), FrameItem(frame)]);
    HitEvent("hit", frame);
  }

  lemma HitSplit()
    ensures Split("hit\n  kernel`foo+0x10\n", '\n') == ["hit", "  kernel`foo+0x10", ""]
  {
    hide Split;
    var line := "  kernel`foo+0x10";
    SplitAfter("hit", '\n', line + "\n");
    assert "hit" + ['\n'] + (line + "\n") == "hit\n  kernel`foo+0x10\n";
    SplitAfter(line, '\n', "");
    assert line + ['\n'] + "" == line + "\n";
    SplitAfter("", '\n', "");
  }

  lemma HitEvent(body: string, frame: Frame)
    ensures Output([Body(body), FrameItem(frame)]) == [Event(body, Some([frame]), None)]
  {
    hide Output;
    FirstEventTakesAll([], body, [FrameItem(frame)]);
    assert [] + [Body(body)] + [FrameItem(frame)] == [Body(body), FrameItem(frame)];
    assert [] + [FrameItem(frame)] == [FrameItem(frame)] && [FrameItem(frame)][1..] == [];
    assert KernelFrames([FrameItem(frame)]) == [frame] + KernelFrames([]) == [frame];
    assert UserFrames([FrameItem(frame)]) == UserFrames([]) == [];
  }

  lemma NothingFed(items: seq<Item>)
    ensures Output(items + [Nothing]) == Output(items)
  {
    assert (items + [Nothing])[..|items|] == items;
  }

  lemma HitItems(line: string, frame: Frame)
    requires line == "  kernel`foo+0x10" && frame == Frame(0, Some("kernel"), Some("foo"), Some(16))
    ensures ClassifyAll(["hit", line, ""]) == [Body("hit"), FrameItem(frame)] + [Nothing]
  {
    hide Classify;
    var lines := ["hit", line, ""];
    assert lines[..2] == ["hit", line] && lines[..2][..1] == ["hit"] && ["hit"][..0] == [];
    BodyLine("hit");
    NothingToTrim("hit", true);
    assert "hit"[0] == 'h' && USTACK_MARKER[0] == '_';
    KernelFoo(line, frame);
    assert Classify("") == Nothing by {
      EmptyLine();
    }
    assert ClassifyAll(["hit"]) == [Body("hit")];
    assert ClassifyAll(["hit", line]) == [Body("hit"), FrameItem(frame)];
  }

  lemma EmptyLine()
    ensures Classify("") == Nothing
  {
  }

  lemma KernelFoo(line: string, frame: Frame)
    requires line == "  kernel`foo+0x10" && frame == Frame(0, Some("kernel"), Some("foo"), Some(16))
    ensures Classify(line) == FrameItem(frame)
  {
    hide Classify;
    assert Numeral(16, Sixteen) == Numeral(1, Sixteen) + "0" == "10";
    assert Formatted(frame) == "kernel`foo+0x10";
    assert line == "  " + Formatted(frame);
    FrameLine("  ", frame);
  }

  // ----- Callback boundaries

  lemma {:induction false} ClassifyConcat(a: seq<string>, b: seq<string>)
    ensures ClassifyAll(a + b) == ClassifyAll(a) + ClassifyAll(b)
  {
    hide Classify;
    if b == [] {
      assert a + b == a;
    } else {
      assert (a + b)[..|a + b| - 1] == a + b[..|b| - 1];
      ClassifyConcat(a, b[..|b| - 1]);
    }
  }

  /** Delivering text in one callback or in two, cut at any line boundary, is the same. */
  lemma {:induction false} SplitCallbacks(s: State, a: string, b: string)
    ensures FeedAll(s, Items(a + "\n" + b)) == FeedAll(FeedAll(s, Items(a)), Items(b))
    ensures FeedAll(s, Items(a + "\n")) == FeedAll(s, Items(a))
  {
    hide Classify, Feed;
    SplitConcat(a, '\n', b);
    ClassifyConcat(Split(a, '\n'), Split(b, '\n'));
    FeedConcat(s, Items(a), Items(b));
    SplitConcat(a, '\n', "");
    assert a + ['\n'] + "" == a + "\n";
    ClassifyConcat(Split(a, '\n'), Split("", '\n'));
    FeedConcat(s, Items(a), Items(""));
    EmptyText(FeedAll(s, Items(a)));
  }

  lemma EmptyText(s: State)
    ensures FeedAll(s, Items("")) == s
  {
  }
}
