/** The Speedscope export (`speedscope_print` in `decode.c`): shared frames, samples of indices, weights. */
module Speedscope {
  import opened Common
  import opened Instructions
  import opened Text
  import opened JsonText
  import Folded
  import Conservation

  const ESCAPE_BUFFER := 256

  ghost predicate Distinct(frames: seq<string>) {
    forall i, j :: 0 <= i < j < |frames| ==> frames[i] != frames[j]
  }

  /** The indices name the tokens. */
  ghost predicate Spells(sample: seq<nat>, frames: seq<string>, tokens: seq<string>) {
    |sample| == |tokens| && forall j :: 0 <= j < |sample| ==> sample[j] < |frames| && frames[sample[j]] == tokens[j]
  }

  function StackTokens(e: Folded.Entry): seq<string> {
    Tokens(e.stack, ';')
  }

  /** `speedscope_frame_idx`: the index of a name, added at the end when it is new. */
  method FrameIndex(frames: seq<string>, name: string) returns (idx: nat, frames': seq<string>)
    requires Distinct(frames)
    ensures Distinct(frames') && idx < |frames'| && frames'[idx] == name
    ensures frames' == if name in frames then frames else frames + [name]
  {
    idx := 0;
    while idx < |frames|
      invariant idx <= |frames|
      invariant forall j :: 0 <= j < idx ==> frames[j] != name
    {
      if frames[idx] == name {
        return idx, frames;
      }
      idx := idx + 1;
    }
    frames' := frames + [name];
  }

  /** One stack of either pass: look up every token in turn. */
  method IndexStack(frames: seq<string>, tokens: seq<string>) returns (sample: seq<nat>, frames': seq<string>)
    requires Distinct(frames)
    ensures Distinct(frames') && frames <= frames' && Spells(sample, frames', tokens)
    ensures forall name :: name in frames' <==> name in frames || name in tokens
    ensures (forall name :: name in tokens ==> name in frames) ==> frames' == frames
  {
    frames', sample := frames, [];
    for k := 0 to |tokens|
      invariant Distinct(frames') && frames <= frames'
      invariant Spells(sample, frames', tokens[..k])
      invariant forall name :: name in frames' <==> name in frames || name in tokens[..k]
      invariant (forall name :: name in tokens ==> name in frames) ==> frames' == frames
    {
      var idx, next := FrameIndex(frames', tokens[k]);
      assert tokens[..k + 1] == tokens[..k] + [tokens[k]];
      assert tokens[k] in tokens;
      frames', sample := next, sample + [idx];
    }
    assert tokens[..|tokens|] == tokens;
  }

  /**
   The frames collected by the first pass and how they are shown, the frame table left by the second
   pass, and the samples and weights.  The second pass adds nothing, frames are distinct and all used, every
   sample index is in range and spells its stack, and the weights add up to `endValue`.
   */
  method Export(entries: seq<Folded.Entry>)
    returns (frames: seq<string>, shown: seq<string>, table: seq<string>, samples: seq<seq<nat>>, weights: seq<int>, endValue: int)
    ensures table == frames && Distinct(frames)
    ensures forall name :: name in frames <==> exists i :: 0 <= i < |entries| && name in StackTokens(entries[i])
    ensures |shown| == |frames| && forall i :: 0 <= i < |frames| ==> shown[i] == Bounded(frames[i], ESCAPE_BUFFER)
    ensures |samples| == |weights| == |entries|
    ensures forall i :: 0 <= i < |entries| ==> Spells(samples[i], frames, StackTokens(entries[i]))
    ensures forall i :: 0 <= i < |entries| ==> weights[i] == entries[i].count
    ensures endValue == Sum(weights)
  {
    hide Bounded, StackTokens;
    frames := [];
    for i := 0 to |entries|
      invariant Distinct(frames)
      invariant forall name :: name in frames <==> exists k :: 0 <= k < i && name in StackTokens(entries[k])
    {
      ghost var before := frames;
      var sample, next := IndexStack(frames, StackTokens(entries[i]));
      forall name
        ensures name in next <==> exists k :: 0 <= k < i + 1 && name in StackTokens(entries[k])
      {
        if name in before {
          var k :| 0 <= k < i && name in StackTokens(entries[k]);
          assert 0 <= k < i + 1;
        }
      }
      frames := next;
    }
    shown := ShowFrames(frames);
    endValue, weights := 0, [];
    for i := 0 to |entries|
      invariant |weights| == i && endValue == Sum(weights)
      invariant forall k :: 0 <= k < i ==> weights[k] == entries[k].count
    {
      SumSnoc(weights, entries[i].count);
      endValue := endValue + entries[i].count;
      weights := weights + [entries[i].count];
    }
    table, samples := frames, [];
    for i := 0 to |entries|
      invariant table == frames && |samples| == i
      invariant forall k :: 0 <= k < i ==> Spells(samples[k], frames, StackTokens(entries[k]))
    {
      assert forall name :: name in StackTokens(entries[i]) ==> name in frames;
      var sample, next := IndexStack(table, StackTokens(entries[i]));
      table, samples := next, samples + [sample];
    }
  }

  /** The frame list, each name escaped through one small buffer. */
  method ShowFrames(frames: seq<string>) returns (shown: seq<string>)
    ensures |shown| == |frames| && forall i :: 0 <= i < |frames| ==> shown[i] == Bounded(frames[i], ESCAPE_BUFFER)
  {
    hide Bounded;
    var escaped := new char[ESCAPE_BUFFER](_ => '\0');
    shown := [];
    for i := 0 to |frames|
      invariant |shown| == i && forall k :: 0 <= k < i ==> shown[k] == Bounded(frames[k], ESCAPE_BUFFER)
    {
      var n := JsonEscape(escaped, frames[i]);
      shown := shown + [escaped[..n]];
    }
  }

  /** The two names agree up to where the buffer is full. */
  predicate AlikeTo(a: string, b: string, k: nat)
    requires k <= |a| && k <= |b|
  {
    a[..k] == b[..k] && |Escape(a[..k])| >= ESCAPE_BUFFER - 7
  }

  /**
   Two frames are shown alike exactly when they are equal or agree in a first part whose escape is at
   least 249 long; and one is shown whole exactly when its escape, last character aside, is shorter.
   */
  lemma {:induction false} ShownAlike(a: string, b: string)
    ensures Bounded(a, ESCAPE_BUFFER) == Bounded(b, ESCAPE_BUFFER)
       <==> a == b || exists k :: 0 <= k <= |a| && k <= |b| && AlikeTo(a, b, k)
    ensures Unescape(Bounded(a, ESCAPE_BUFFER)) == Some(a) <==> a == "" || |Escape(a[..|a| - 1])| < ESCAPE_BUFFER - 7
  {
    hide Escape, Unescape, Consumed;
    BoundedReadsBack(a, ESCAPE_BUFFER);
    BoundedReadsBack(b, ESCAPE_BUFFER);
    var n, m := Consumed(a, ESCAPE_BUFFER, 0), Consumed(b, ESCAPE_BUFFER, 0);
    if Bounded(a, ESCAPE_BUFFER) == Bounded(b, ESCAPE_BUFFER) {
      assert a[..n] == b[..m] && n == m;
      if n == |a| && m == |b| {
        assert a == a[..n] && b == b[..m];
      } else {
        assert AlikeTo(a, b, n);
      }
    } else if k :| 0 <= k <= |a| && k <= |b| && AlikeTo(a, b, k) {
      StopsBy(a, k);
      StopsBy(b, k);
      StopsTogether(a, b, k);
    }
  }

  /** The writer stops at the latest where the buffer is full. */
  lemma StopsBy(a: string, k: nat)
    requires k <= |a| && |Escape(a[..k])| >= ESCAPE_BUFFER - 7
    ensures Consumed(a, ESCAPE_BUFFER, 0) <= k
  {
    hide Escape, Consumed;
    var n := Consumed(a, ESCAPE_BUFFER, 0);
    if k < n {
      PrefixGrows(a, k, n - 1);
    }
  }

  lemma PrefixGrows(a: string, k: nat, n: nat)
    requires k <= n <= |a|
    ensures |Escape(a[..k])| <= |Escape(a[..n])|
  {
    hide Escape;
    EscapeGrows(a[..n], k);
    assert a[..n][..k] == a[..k];
  }

  lemma StopsTogether(a: string, b: string, k: nat)
    requires k <= |a| && k <= |b| && AlikeTo(a, b, k)
    requires Consumed(a, ESCAPE_BUFFER, 0) <= k && Consumed(b, ESCAPE_BUFFER, 0) <= k
    ensures a[..Consumed(a, ESCAPE_BUFFER, 0)] == b[..Consumed(b, ESCAPE_BUFFER, 0)]
  {
    hide Escape, Consumed;
    var n, m := Consumed(a, ESCAPE_BUFFER, 0), Consumed(b, ESCAPE_BUFFER, 0);
    assert a[..n] == a[..k][..n] == b[..n] && a[..m] == b[..k][..m] == b[..m];
    if n < k {
      StopsBy(b, n);
    }
    if m < k {
      StopsBy(a, m);
    }
  }

  /** Two names with 249 plain characters in common are shown alike, whatever follows. */
  lemma {:induction false} LongNamesShownAlike(common: string, x: char, y: char)
    requires |common| == 249 && AllPlain(common) && x != y
    ensures common + [x] != common + [y]
    ensures Bounded(common + [x], ESCAPE_BUFFER) == Bounded(common + [y], ESCAPE_BUFFER)
  {
    var a, b := common + [x], common + [y];
    assert a[249] == x && b[249] == y && a[..249] == common && b[..249] == common;
    EscapePlain(common);
    assert AlikeTo(a, b, 249);
    ShownAlike(a, b);
  }

  // ----- Rebuilding the stacks

  function Names(sample: seq<nat>, frames: seq<string>): seq<string>
    requires forall j :: 0 <= j < |sample| ==> sample[j] < |frames|
  {
    seq(|sample|, j requires 0 <= j < |sample| => frames[sample[j]])
  }

  /** A table entry is the join of its own tokens. */
  ghost predicate Rejoins(e: Folded.Entry) {
    Separable(StackTokens(e), ';') && StackTokens(e) != [] && Join(StackTokens(e), ';') == e.stack
  }

  lemma {:induction false} NamesSeparable(s: seq<Insn>)
    requires Conservation.GoodNames(s)
    ensures Separable(Folded.FoldRun(s).names, ';')
    ensures s != [] ==> Separable(Folded.NamesAfterCall(Folded.FoldRun(s[..|s| - 1]), s[|s| - 1]), ';')
  {
    if s != [] {
      var r, i := s[..|s| - 1], s[|s| - 1];
      NamesSeparable(r);
      var names := Folded.NamesAfterCall(Folded.FoldRun(r), i);
      assert Conservation.GoodNames(s) && i == s[|s| - 1];
      if IsReturn(i.cls) && names != [] {
        Conservation.SeparableSlice(names, |names| - 1);
      }
    }
  }

  /** Even a stack that was cut by the buffer is the join of whole names. */
  lemma TextRejoins(names: seq<string>, count: nat)
    requires names != [] && Separable(names, ';')
    ensures Rejoins(Folded.Entry(Folded.StackText(names), count))
  {
    var shown := names[..Folded.Reach(names, 1)];
    Conservation.SeparableSlice(names, |shown|);
    TokensJoin(shown, ';');
  }

  lemma {:induction false} RunRejoins(s: seq<Insn>)
    requires Conservation.GoodNames(s)
    ensures forall e :: e in Folded.FoldRun(s).entries ==> Rejoins(e)
  {
    if s != [] {
      var r, i := s[..|s| - 1], s[|s| - 1];
      RunRejoins(r);
      NamesSeparable(s);
      var names := Folded.NamesAfterCall(Folded.FoldRun(r), i);
      if IsReturn(i.cls) && names != [] {
        hide Rejoins, Folded.StackText;
        var entries, text := Folded.FoldRun(r).entries, Folded.StackText(names);
        var k := Folded.FindStack(entries, text);
        forall e | e in Folded.Bump(entries, text)
          ensures Rejoins(e)
        {
          if e !in entries {
            TextRejoins(names, e.count);
          }
        }
      }
    }
  }

  /** Mapping a sample through the frames gives back the recorded stack, frame by frame and as text. */
  lemma {:induction false} SampleRebuildsStack(s: seq<Insn>, i: nat, sample: seq<nat>, frames: seq<string>)
    requires Conservation.GoodNames(s)
    requires i < |Folded.FoldRun(s).entries|
    requires Spells(sample, frames, StackTokens(Folded.FoldRun(s).entries[i]))
    ensures Join(Names(sample, frames), ';') == Folded.FoldRun(s).entries[i].stack
    ensures Separable(Names(sample, frames), ';') && sample != []
  {
    RunRejoins(s);
    var e := Folded.FoldRun(s).entries[i];
    assert e in Folded.FoldRun(s).entries;
    assert Names(sample, frames) == StackTokens(e);
  }
}
