/** The incremental parser for server-sent events (`SseFrameParser`) and the printer it reads (`make_event`). */
module Sse {
  import opened Text
  import opened Utf8
  import opened Wire
  import opened Folds

  // ---- text ----

  /** The position of the first line feed, or |s|. */
  function LineEnd(s: string): (i: nat)
    ensures i <= |s| && '\n' !in s[..i] && (i < |s| ==> s[i] == '\n')
  {
    if s == "" || s[0] == '\n' then 0 else 1 + LineEnd(s[1..])
  }

  function WithoutCr(line: string): string {
    if line != "" && line[|line| - 1] == '\r' then line[..|line| - 1] else line
  }

  /** The lines of a text, each without its line feed or carriage return and line feed. */
  function Lines(s: string): seq<string> {
    var i := LineEnd(s);
    if s == "" then [] else if i == |s| then [s] else [WithoutCr(s[..i])] + Lines(s[i + 1..])
  }

  // ---- frames ----

  datatype Frame = Frame(event: string, data: string)

  /** The event name and the data lines read so far. */
  datatype Fields = Fields(event: string, data: seq<string>)

  function ReadField(f: Fields, line: string): Fields {
    if "event:" <= line then f.(event := Trim(line[6..]))
    else if "data:" <= line then f.(data := f.data + [Trim(line[5..])])
    else f
  }

  function WithLineFeeds(data: seq<string>): string
    requires data != []
  {
    if |data| == 1 then data[0] else WithLineFeeds(data[..|data| - 1]) + "\n" + data[|data| - 1]
  }

  /** What a frame's text says; a frame without data says nothing. */
  function ParseFrame(text: string): seq<Frame> {
    var f := Fold(ReadField, Fields("", []), Lines(text));
    if f.data == [] then [] else [Frame(if f.event == "" then "message" else f.event, WithLineFeeds(f.data))]
  }

  /** Two line feeds in a row end a frame. */
  predicate FrameEnds(s: string, p: int) {
    0 <= p && p + 2 <= |s| && s[p] == '\n' && s[p + 1] == '\n'
  }

  /** The first place from `i` on where a frame ends, or |s|. */
  function Separator(s: string, i: nat := 0): (p: nat)
    requires i <= |s|
    ensures i <= p <= |s| && (p == |s| || FrameEnds(s, p))
    ensures forall q :: i <= q < p ==> !FrameEnds(s, q)
    decreases |s| - i
  {
    if |s| < i + 2 then |s| else if FrameEnds(s, i) then i else Separator(s, i + 1)
  }

  /** Complete frames, and the text of the incomplete one. */
  datatype Split = Split(frames: seq<Frame>, rest: string)

  function SplitFrames(s: string): Split
    decreases |s|
  {
    var p := Separator(s);
    if p == |s| then Split([], s)
    else
      var tail := SplitFrames(s[p + 2..]);
      Split(ParseFrame(s[..p]) + tail.frames, tail.rest)
  }

  class SseFrameParser {
    var buffer: string
    /** All text kept so far, and all frames returned. */
    ghost var received: string
    ghost var returned: seq<Frame>

    ghost predicate Valid()
      reads this
    {
      SplitFrames(received) == Split(returned, buffer)
    }

    constructor ()
      ensures Valid() && received == "" && returned == []
    {
      buffer, received, returned := "", "", [];
    }

    /** A chunk that does not decode is dropped whole. */
    method Feed(chunk: seq<Byte>) returns (frames: seq<Frame>)
      requires Valid()
      modifies this
      ensures Valid()
      ensures received == old(received) + Kept(chunk) && returned == old(returned) + frames
    {
      hide SplitFrames, Decode;
      var text := Decode(chunk);
      if text.None? {
        frames := [];
      } else {
        FeedIsSplit(received, text.value);
        buffer := buffer + text.value;
        frames := Drain();
      }
      received := received + text.GetOr("");
      returned := returned + frames;
      assert text.None? ==> received == old(received) && returned == old(returned);
    }

    /** Takes every complete frame out of the buffer. */
    method Drain() returns (frames: seq<Frame>)
      modifies this`buffer
      ensures SplitFrames(old(buffer)) == Split(frames, buffer)
    {
      hide ParseFrame, SplitFrames;
      frames := [];
      var p := FindSeparator(buffer);
      SplitStep(buffer);
      while p < |buffer|
        invariant p == Separator(buffer)
        invariant SplitFrames(old(buffer)) == Split(frames + SplitFrames(buffer).frames, SplitFrames(buffer).rest)
        decreases |buffer|
      {
        SplitStep(buffer);
        var frame := ParseOne(buffer[..p]);
        buffer := buffer[p + 2..];
        frames := frames + frame;
        p := FindSeparator(buffer);
      }
      SplitStep(buffer);
    }

    /** The first place where a frame ends, or |s|: a scan for two line feeds in a row. */
    static method FindSeparator(s: string) returns (p: nat)
      ensures p <= |s| && (p < |s| ==> FrameEnds(s, p))
      ensures forall q :: 0 <= q < p ==> !FrameEnds(s, q)
    {
      p := 0;
      while p + 2 <= |s|
        invariant p <= |s|
        invariant forall q :: 0 <= q < p ==> !FrameEnds(s, q)
      {
        if s[p] == '\n' && s[p + 1] == '\n' {
          return;
        }
        p := p + 1;
      }
      p := |s|;
    }

    method ParseOne(text: string) returns (frames: seq<Frame>)
      ensures frames == ParseFrame(text)
    {
      var event, data: seq<string> := "", [];
      var lines := Lines(text);
      for i := 0 to |lines|
        invariant Fields(event, data) == Fold(ReadField, Fields("", []), lines[..i])
      {
        assert lines[..i + 1][..i] == lines[..i];
        if "event:" <= lines[i] {
          event := Trim(lines[i][6..]);
        } else if "data:" <= lines[i] {
          data := data + [Trim(lines[i][5..])];
        }
      }
      assert lines[..|lines|] == lines;
      if data == [] { return []; }
      frames := [Frame(if event == "" then "message" else event, WithLineFeeds(data))];
    }
  }

  // ---- cuts do not matter ----

  lemma SplitStep(s: string)
    ensures var p := Separator(s);
            SplitFrames(s) ==
              if p == |s| then Split([], s)
              else Split(ParseFrame(s[..p]) + SplitFrames(s[p + 2..]).frames, SplitFrames(s[p + 2..]).rest)
  {
    hide ParseFrame;
  }

  lemma SeparatorStays(a: string, b: string)
    requires Separator(a) < |a|
    ensures Separator(a + b) == Separator(a)
  {
    var p, ab := Separator(a), a + b;
    assert FrameEnds(ab, p);
    assert forall q :: 0 <= q < p && FrameEnds(ab, q) ==> FrameEnds(a, q);
  }

  /** Feeding `a` and then `b` is feeding `a + b`. */
  lemma {:induction false} FeedIsSplit(a: string, b: string)
    ensures var first := SplitFrames(a);
            var second := SplitFrames(first.rest + b);
            SplitFrames(a + b) == Split(first.frames + second.frames, second.rest)
    decreases |a|
  {
    hide SplitFrames, ParseFrame, Separator;
    var p := Separator(a);
    SplitStep(a);
    if p < |a| {
      SplitStep(a + b);
      SeparatorStays(a, b);
      assert (a + b)[p + 2..] == a[p + 2..] + b && (a + b)[..p] == a[..p];
      FeedIsSplit(a[p + 2..], b);
    }
  }

  // ---- what a frame says ----

  /** A text that ends in a line feed, or not, line by line; a carriage return counts as part of the line feed. */
  lemma LinesOf(line: string, rest: string)
    requires '\n' !in line
    ensures Lines(line + "\n" + rest) == [WithoutCr(line)] + Lines(rest)
    ensures Lines(line) == if line == "" then [] else [line]
    ensures WithoutCr(line + "\r") == line && (line != "" && line[|line| - 1] != '\r' ==> WithoutCr(line) == line)
  {
    var s := line + "\n" + rest;
    assert s[..|line|] == line && s[|line|] == '\n' && s[|line| + 1..] == rest;
    LineEndAt(s, |line|);
    assert forall q :: 0 <= q < |line| ==> line[q] in line;
  }

  /** The data a line brings: what follows "data:", trimmed. */
  function DataIn(line: string): seq<string> { if "data:" <= line then [Trim(line[5..])] else [] }

  /** What follows "event:" in the last line that starts so, trimmed. */
  function EventIn(lines: seq<string>): string {
    if lines == [] then ""
    else
      var line := lines[|lines| - 1];
      if "event:" <= line then Trim(line[6..]) else EventIn(lines[..|lines| - 1])
  }

  lemma {:induction false} FieldsRead(lines: seq<string>)
    ensures Fold(ReadField, Fields("", []), lines) == Fields(EventIn(lines), Gather(DataIn, lines))
  {
    if lines != [] {
      var n := |lines| - 1;
      FieldsRead(lines[..n]);
      hide Trim;
      assert "event:" <= lines[n] ==> lines[n][0] == 'e';
      assert "data:" <= lines[n] ==> lines[n][0] == 'd';
      assert Gather(DataIn, lines[..n]) + [] == Gather(DataIn, lines[..n]);
    }
  }

  lemma {:induction false} DataJoined(data: seq<string>)
    requires data != []
    ensures WithLineFeeds(data) == JoinBy(data, '\n')
  {
    var n := |data| - 1;
    if n > 0 {
      DataJoined(data[..n]);
      JoinSnoc(data[..n], data[n], '\n');
      assert data == data[..n] + [data[n]];
    }
  }

  lemma {:induction false} JoinSnoc(pieces: seq<string>, last: string, sep: char)
    requires pieces != []
    ensures JoinBy(pieces + [last], sep) == JoinBy(pieces, sep) + [sep] + last
  {
    if |pieces| > 1 {
      assert (pieces + [last])[1..] == pieces[1..] + [last];
      JoinSnoc(pieces[1..], last, sep);
    } else {
      assert (pieces + [last])[1..] == [last];
    }
  }

  /** A frame is its data lines, joined by line feeds, under the last event name, or "message" where that is missing or
      blank; all other lines, comments among them, say nothing, and without a data line the frame says nothing. */
  lemma FrameSays(text: string)
    ensures var data, event := Gather(DataIn, Lines(text)), EventIn(Lines(text));
            ParseFrame(text) ==
              if data == [] then [] else [Frame(if event == "" then "message" else event, JoinBy(data, '\n'))]
  {
    FieldsRead(Lines(text));
    if Gather(DataIn, Lines(text)) != [] {
      DataJoined(Gather(DataIn, Lines(text)));
    }
  }

  // ---- printing and parsing ----

  /** An event as `make_event` prints it. */
  function MakeEvent(event: string, data: string): string {
    "event: " + event + "\ndata: " + data + "\n\n"
  }

  function Printed(f: Frame): string { MakeEvent(f.event, f.data) }

  predicate OneLine(f: Frame) { '\n' !in f.event && '\n' !in f.data }

  /** A printed event as it is read back. */
  function ReadBack(f: Frame): Frame {
    Frame(if Trim(f.event) == "" then "message" else Trim(f.event), Trim(f.data))
  }

  function AllReadBack(fs: seq<Frame>): seq<Frame> { seq(|fs|, i requires 0 <= i < |fs| => ReadBack(fs[i])) }

  lemma TrimAfterSpace(s: string)
    ensures Trim(" " + s) == Trim(s)
  {
    assert (" " + s)[1..] == s;
  }

  lemma {:induction false} TrimStartSnoc(s: string, c: char)
    requires IsWhite(c)
    ensures TrimEnd(TrimStart(s + [c])) == TrimEnd(TrimStart(s))
  {
    if s == "" {
      assert s + [c] == [c] && [c][1..] == "";
    } else if IsWhite(s[0]) {
      assert (s + [c])[1..] == s[1..] + [c];
      TrimStartSnoc(s[1..], c);
    } else {
      assert (s + [c])[..|s|] == s;
    }
  }

  lemma TrimWithoutCr(s: string)
    ensures Trim(WithoutCr(s)) == Trim(s)
  {
    if WithoutCr(s) != s {
      assert s == WithoutCr(s) + ['\r'];
      TrimStartSnoc(WithoutCr(s), '\r');
    }
  }

  lemma LineEndAt(s: string, i: nat)
    requires i < |s| && s[i] == '\n' && '\n' !in s[..i]
    ensures LineEnd(s) == i
  {
    var e := LineEnd(s);
    assert forall q :: 0 <= q < i ==> s[q] == s[..i][q];
    assert forall q :: 0 <= q < e ==> s[q] == s[..e][q];
  }

  lemma TwoLines(a: string, b: string)
    requires '\n' !in a && '\n' !in b && b != ""
    ensures Lines(a + "\n" + b) == [WithoutCr(a), b]
  {
    var s := a + "\n" + b;
    assert s[..|a|] == a && s[|a|] == '\n' && s[|a| + 1..] == b;
    LineEndAt(s, |a|);
    assert forall q :: 0 <= q < |b| ==> b[q] in b;
  }

  /** The event line first, then the data line. */
  lemma TwoFields(a: string, b: string)
    requires "event:" <= a && "data:" <= b
    ensures Fold(ReadField, Fields("", []), [a, b]) == Fields(Trim(a[6..]), [Trim(b[5..])])
  {
    hide Trim;
    var f0 := Fields("", []);
    FoldSnoc(ReadField, f0, [], a);
    FoldSnoc(ReadField, f0, [a], b);
    assert [] + [a] == [a] && [a] + [b] == [a, b];
    assert b[0] == 'd';
  }

  lemma PrintedParses(f: Frame)
    requires OneLine(f)
    ensures ParseFrame("event: " + f.event + "\ndata: " + f.data) == [ReadBack(f)]
  {
    hide Lines, Fold, Trim;
    var a, b := "event: " + f.event, "data: " + f.data;
    TwoLines(a, b);
    assert "event: " + f.event + "\ndata: " + f.data == a + "\n" + b;
    assert a[6..] == " " + f.event && b[5..] == " " + f.data;
    assert WithoutCr(a)[6..] == WithoutCr(a[6..]);
    TrimWithoutCr(a[6..]);
    TrimAfterSpace(f.event);
    TrimAfterSpace(f.data);
    TwoFields(WithoutCr(a), b);
  }

  /** The only line feed inside a printed event ends its event line. */
  lemma LoneLineFeed(f: Frame, q: nat)
    requires OneLine(f)
    ensures var body, k := "event: " + f.event + "\ndata: " + f.data, 7 + |f.event|;
            q < |body| && body[q] == '\n' ==> q == k && k + 1 < |body| && body[k + 1] == 'd'
  {
    var body, k := "event: " + f.event + "\ndata: " + f.data, 7 + |f.event|;
    var last := "\ndata: ";
    assert forall i :: 0 <= i < 7 ==> body[i] == "event: "[i];
    assert forall i :: 7 <= i < k ==> body[i] == f.event[i - 7];
    assert forall i :: k <= i < k + 7 ==> body[i] == last[i - k];
    assert forall i :: k + 7 <= i < |body| ==> body[i] == f.data[i - k - 7];
  }

  lemma PrintedSplits(f: Frame, more: string)
    requires OneLine(f)
    ensures SplitFrames(Printed(f) + more) == Split([ReadBack(f)] + SplitFrames(more).frames, SplitFrames(more).rest)
  {
    var body := "event: " + f.event + "\ndata: " + f.data;
    var s := Printed(f) + more;
    var n := |body|;
    assert s == body + "\n\n" + more;
    assert s[..n] == body && s[n + 2..] == more && FrameEnds(s, n);
    forall q | 0 <= q < n ensures !FrameEnds(s, q) {
      LoneLineFeed(f, q);
      assert s[q] == body[q] && (q + 1 < n ==> s[q + 1] == body[q + 1]);
    }
    assert Separator(s) == n;
    PrintedParses(f);
    SplitStep(s);
  }

  lemma FirstEvent(fs: seq<Frame>)
    requires fs != []
    ensures Gather(Printed, fs) == Printed(fs[0]) + Gather(Printed, fs[1..])
    ensures AllReadBack(fs) == [ReadBack(fs[0])] + AllReadBack(fs[1..])
  {
    hide Printed, ReadBack;
    GatherFirst(Printed, fs);
  }

  lemma {:induction false} StreamParses(fs: seq<Frame>)
    requires forall f :: f in fs ==> OneLine(f)
    ensures SplitFrames(Gather(Printed, fs)) == Split(AllReadBack(fs), "")
    decreases |fs|
  {
    if fs == [] {
      SplitStep("");
    } else {
      hide *;
      FirstEvent(fs);
      StreamParses(fs[1..]);
      PrintedSplits(fs[0], Gather(Printed, fs[1..]));
    }
  }

  /** The frames returned over all chunks so far, and the buffer. */
  function FeedBytes(s: Split, chunk: seq<Byte>): Split {
    match Decode(chunk)
    case None => s
    case Some(text) =>
      var next := SplitFrames(s.rest + text);
      Split(s.frames + next.frames, next.rest)
  }

  lemma {:induction false} ChunksAreOneText(chunks: seq<seq<Byte>>)
    ensures Fold(FeedBytes, Split([], ""), chunks) == SplitFrames(Gather(Kept, chunks))
  {
    if chunks == [] {
      SplitStep("");
    } else {
      hide SplitFrames, Decode;
      var n := |chunks| - 1;
      ChunksAreOneText(chunks[..n]);
      FeedIsSplit(Gather(Kept, chunks[..n]), Kept(chunks[n]));
      assert Decode(chunks[n]).None? ==> Gather(Kept, chunks) == Gather(Kept, chunks[..n]);
    }
  }

  lemma ReadBackSame(fs: seq<Frame>)
    ensures AllReadBack(fs) == fs <==> forall f :: f in fs ==> f.event != "" && Bare(f.event) && Bare(f.data)
  {
    assert Bare("message");
    hide Trim, Bare;
    forall i | 0 <= i < |fs|
      ensures AllReadBack(fs)[i] == fs[i] <==> fs[i].event != "" && Bare(fs[i].event) && Bare(fs[i].data)
    {
      TrimBare(fs[i].event);
      TrimBare(fs[i].data);
    }
    assert AllReadBack(fs) == fs <==> forall i :: 0 <= i < |fs| ==> AllReadBack(fs)[i] == fs[i];
  }

  /** No white space at either end. */
  predicate Bare(s: string) { s != "" ==> !IsWhite(s[0]) && !IsWhite(s[|s| - 1]) }

  lemma {:induction false} TrimShrinks(s: string)
    ensures |TrimStart(s)| <= |s| && |TrimEnd(s)| <= |s|
    ensures if s != "" && IsWhite(s[0]) then |TrimStart(s)| < |s| else TrimStart(s) == s
    ensures if s != "" && IsWhite(s[|s| - 1]) then |TrimEnd(s)| < |s| else TrimEnd(s) == s
  {
    if s != "" {
      TrimShrinks(s[1..]);
      TrimShrinks(s[..|s| - 1]);
    }
  }

  lemma TrimBare(s: string)
    ensures Trim(s) == s <==> Bare(s)
  {
    hide IsWhite;
    TrimShrinks(s);
    TrimShrinks(TrimStart(s));
  }

  // ---- what a cut inside a character costs ----

  /** The characters of more than one byte in an event. */
  function FrameWide(): Frame -> int { (f: Frame) => Wide(f.event) + Wide(f.data) }

  function LineWide(): string -> int { (line: string) => Wide(line) }

  lemma WideParts(s: string, i: nat)
    requires i <= |s|
    ensures Wide(s[..i]) + Wide(s[i..]) == Wide(s)
  {
    assert s == s[..i] + s[i..];
    WideAppend(s[..i], s[i..]);
  }

  lemma {:induction false} WideTrimStart(s: string)
    ensures Wide(TrimStart(s)) <= Wide(s)
  {
    if s != "" {
      WideTrimStart(s[1..]);
      WideParts(s, 1);
    }
  }

  lemma {:induction false} WideTrimEnd(s: string)
    ensures Wide(TrimEnd(s)) <= Wide(s)
  {
    if s != "" {
      WideTrimEnd(s[..|s| - 1]);
      WideParts(s, |s| - 1);
    }
  }

  lemma WideTrim(s: string)
    ensures Wide(Trim(s)) <= Wide(s)
  {
    WideTrimStart(s);
    WideTrimEnd(TrimStart(s));
  }

  lemma OneLineWide(line: string)
    ensures Total(LineWide(), [line]) == Wide(line)
  {
    TotalSnoc(LineWide(), [], line);
    assert [] + [line] == [line];
  }

  lemma {:induction false} FirstLine(s: string)
    requires s != ""
    ensures var i := LineEnd(s);
            Lines(s) == if i == |s| then [s] else [WithoutCr(s[..i])] + Lines(s[i + 1..])
  {
  }

  lemma {:induction false} WideLines(s: string)
    ensures Total(LineWide(), Lines(s)) <= Wide(s)
    decreases |s|
  {
    if s != "" {
      var i := LineEnd(s);
      FirstLine(s);
      var line := if i == |s| then s else WithoutCr(s[..i]);
      assert i < |s| ==> line <= s[..i] && |line| <= i;
      hide *;
      OneLineWide(line);
      if i < |s| {
        WideLines(s[i + 1..]);
        TotalAppend(LineWide(), [line], Lines(s[i + 1..]));
        WideParts(s[..i], |line|);
        WideParts(s, i);
        WideParts(s[i..], 1);
        assert s[i..][1..] == s[i + 1..];
      }
    }
  }

  lemma WideField(f: Fields, line: string)
    ensures var g := ReadField(f, line);
            Wide(g.event) + Total(LineWide(), g.data) <= Wide(f.event) + Total(LineWide(), f.data) + Wide(line)
  {
    if "event:" <= line {
      WideTrim(line[6..]);
      WideParts(line, 6);
    } else if "data:" <= line {
      WideTrim(line[5..]);
      WideParts(line, 5);
      TotalSnoc(LineWide(), f.data, Trim(line[5..]));
    }
  }

  lemma {:induction false} WideFields(lines: seq<string>)
    ensures var f := Fold(ReadField, Fields("", []), lines);
            Wide(f.event) + Total(LineWide(), f.data) <= Total(LineWide(), lines)
  {
    if lines != [] {
      var n := |lines| - 1;
      WideFields(lines[..n]);
      WideField(Fold(ReadField, Fields("", []), lines[..n]), lines[n]);
    }
  }

  lemma NarrowText(s: string)
    requires forall c <- s :: c as int < 0x80
    ensures Wide(s) == 0
  {
    TotalZero(WideChar(), s);
  }

  lemma {:induction false} WideJoined(data: seq<string>)
    requires data != []
    ensures Wide(WithLineFeeds(data)) == Total(LineWide(), data)
  {
    var n := |data| - 1;
    if n > 0 {
      WideJoined(data[..n]);
      NarrowText("\n");
      WideAppend(WithLineFeeds(data[..n]), "\n");
      WideAppend(WithLineFeeds(data[..n]) + "\n", data[n]);
    } else {
      assert data[..0] == [];
    }
  }

  lemma WideFrame(text: string)
    ensures Total(FrameWide(), ParseFrame(text)) <= Wide(text)
  {
    var f := Fold(ReadField, Fields("", []), Lines(text));
    WideLines(text);
    WideFields(Lines(text));
    if f.data != [] {
      WideJoined(f.data);
      NarrowText("message");
      var frame := ParseFrame(text)[0];
      TotalSnoc(FrameWide(), [], frame);
      assert [] + [frame] == ParseFrame(text);
    }
  }

  /** Frames hold no more wide characters than the text they were parsed from. */
  lemma {:induction false} WideFrames(s: string)
    ensures Total(FrameWide(), SplitFrames(s).frames) <= Wide(s)
    decreases |s|
  {
    var p := Separator(s);
    SplitStep(s);
    if p < |s| {
      hide *;
      WideFrames(s[p + 2..]);
      WideFrame(s[..p]);
      TotalAppend(FrameWide(), ParseFrame(s[..p]), SplitFrames(s[p + 2..]).frames);
      WideParts(s, p);
      WideParts(s[p..], 2);
      assert s[p..][2..] == s[p + 2..];
    }
  }

  lemma {:induction false} WidePrinted(fs: seq<Frame>)
    ensures Wide(Gather(Printed, fs)) == Total(FrameWide(), fs)
  {
    if fs != [] {
      var n := |fs| - 1;
      var f := fs[n];
      WidePrinted(fs[..n]);
      WideAppend(Gather(Printed, fs[..n]), Printed(f));
      NarrowText("event: ");
      NarrowText("\ndata: ");
      NarrowText("\n\n");
      WideAppend("event: ", f.event);
      WideAppend("event: " + f.event, "\ndata: ");
      WideAppend("event: " + f.event + "\ndata: ", f.data);
      WideAppend("event: " + f.event + "\ndata: " + f.data, "\n\n");
    }
  }

  /** Printed events, concatenated and cut into chunks of bytes between characters, are read back one by one
      with nothing left over.  They are read back unchanged exactly when every cut is between characters, event
      names are not empty, and neither names nor data begin or end with white space. */
  lemma PrintedStreamSurvivesCuts(fs: seq<Frame>, chunks: seq<seq<Byte>>)
    requires forall f :: f in fs ==> OneLine(f)
    requires Bytes(chunks) == Encode(Gather(Printed, fs))
    ensures var read := Fold(FeedBytes, Split([], ""), chunks);
            && (CutBetweenCharacters(chunks) ==> read == Split(AllReadBack(fs), ""))
            && (read.frames == fs <==>
                  && CutBetweenCharacters(chunks)
                  && forall f :: f in fs ==> f.event != "" && Bare(f.event) && Bare(f.data))
  {
    ChunksAreOneText(chunks);
    StreamParses(fs);
    ReadBackSame(fs);
    CutsKeepText(chunks, Gather(Printed, fs));
    WideFrames(Gather(Kept, chunks));
    WidePrinted(fs);
    hide *;
    if CutBetweenCharacters(chunks) {
      assert Gather(Kept, chunks) == Gather(Printed, fs);
    }
  }
}
