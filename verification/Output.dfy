/** The output of a provider's process: its stdout cut into lines whatever the chunks it arrives in, and
    the bounded copy of its stderr (internal/agent/agent_conversation.go). */
module Output {
  import opened Basics

  /** What one frame shows: its text, or that it was too large to show. */
  datatype Line = Text(text: string) | TooLarge

  const FRAME_LIMIT := 2 * 1024 * 1024

  /** strings.TrimSuffix(line, "\r") */
  function TrimCR(s: string): string {
    if s != "" && s[|s| - 1] == '\r' then s[..|s| - 1] else s
  }

  lemma TrimCRTakesOne(s: string)
    ensures TrimCR(s + "\r") == s
    ensures s == "" || s[|s| - 1] != '\r' ==> TrimCR(s) == s
  {
    assert (s + "\r")[..|s|] == s;
  }

  // ---- the splitter, byte by byte ----

  datatype Splitter = Splitter(buffer: string, discarding: bool, lines: seq<Line>)

  function Take(s: Splitter, b: char): Splitter {
    if b == '\n' then Splitter("", false, if s.discarding then s.lines else s.lines + [Text(TrimCR(s.buffer))])
    else if s.discarding then s
    else if |s.buffer| + 1 > FRAME_LIMIT then Splitter("", true, s.lines + [TooLarge])
    else s.(buffer := s.buffer + [b])
  }

  function Feed(s: Splitter, data: string): Splitter {
    if data == "" then s else Take(Feed(s, data[..|data| - 1]), data[|data| - 1])
  }

  class ConversationOutput {
    var buffer: string
    var discarding: bool
    var lines: seq<Line>

    function View(): Splitter
      reads this
    {
      Splitter(buffer, discarding, lines)
    }

    constructor ()
      ensures View() == Splitter("", false, [])
    {
      buffer, discarding, lines := "", false, [];
    }

    method Write(data: string) returns (n: nat)
      modifies this
      ensures View() == Feed(old(View()), data)
      ensures forall stream :: old(View()) == Expected(stream) ==> View() == Expected(stream + data)
      ensures n == |data|
    {
      for i := 0 to |data|
        invariant View() == Feed(old(View()), data[..i])
      {
        var b := data[i];
        assert data[..i + 1][..i] == data[..i];
        if b == '\n' {
          if !discarding {
            lines := lines + [Text(TrimCR(buffer))];
          }
          buffer := "";
          discarding := false;
        } else if !discarding {
          buffer := buffer + [b];
          if |buffer| > FRAME_LIMIT {
            buffer := "";
            discarding := true;
            lines := lines + [TooLarge];
          }
        }
      }
      assert data[..|data|] == data;
      forall stream | old(View()) == Expected(stream) ensures View() == Expected(stream + data) {
        FeedExpected(stream, data);
      }
      return |data|;
    }

    /** The end of a turn shows what its process left without a newline. */
    method ShowRest()
      modifies this
      ensures View() == old(View()).(lines := old(lines) + (if old(buffer) != "" then [Text(old(buffer))] else []))
    {
      if buffer != "" {
        lines := lines + [Text(buffer)];
      }
    }
  }

  // ---- what the stream says ----

  predicate OneFrame(s: string) {
    '\n' !in s
  }

  /** The frames that a newline ended, and what follows the last newline. */
  function Ended(stream: string): seq<string> {
    if stream == "" then []
    else
      var init := stream[..|stream| - 1];
      if stream[|stream| - 1] == '\n' then Ended(init) + [Open(init)] else Ended(init)
  }

  function Open(stream: string): string {
    if stream == "" || stream[|stream| - 1] == '\n' then "" else Open(stream[..|stream| - 1]) + [stream[|stream| - 1]]
  }

  function Unsplit(frames: seq<string>, open: string): string {
    if frames == [] then open else Unsplit(frames[..|frames| - 1], frames[|frames| - 1] + "\n" + open)
  }

  /** A frame shows its text without one final carriage return, or that it is too large. */
  function Shown(frame: string): Line {
    if |frame| > FRAME_LIMIT then TooLarge else Text(TrimCR(frame))
  }

  function ShownAll(frames: seq<string>): seq<Line> {
    seq(|frames|, i requires 0 <= i < |frames| => Shown(frames[i]))
  }

  /** All a stream shows: a frame still open is reported as soon as it is too large, and only then. */
  function Expected(stream: string): Splitter {
    var open := Open(stream);
    if |open| > FRAME_LIMIT then Splitter("", true, ShownAll(Ended(stream)) + [TooLarge])
    else Splitter(open, false, ShownAll(Ended(stream)))
  }

  // ---- Ended and Open are the only way to split the stream ----

  lemma {:induction false} UnsplitAppend(frames: seq<string>, open: string, more: string)
    ensures Unsplit(frames, open) + more == Unsplit(frames, open + more)
  {
    if frames != [] {
      UnsplitAppend(frames[..|frames| - 1], frames[|frames| - 1] + "\n" + open, more);
      assert frames[|frames| - 1] + "\n" + open + more == frames[|frames| - 1] + "\n" + (open + more);
    }
  }

  lemma {:induction false} SplitJoins(stream: string)
    ensures Unsplit(Ended(stream), Open(stream)) == stream
    ensures OneFrame(Open(stream)) && forall f :: f in Ended(stream) ==> OneFrame(f)
  {
    if stream != "" {
      var init, last := stream[..|stream| - 1], stream[|stream| - 1];
      SplitJoins(init);
      UnsplitAppend(Ended(init), Open(init), [last]);
      assert stream == init + [last];
      if last == '\n' {
        assert Open(init) + "\n" + "" == Open(init) + [last];
        assert (Ended(init) + [Open(init)])[..|Ended(init)|] == Ended(init);
      }
    }
  }

  lemma OpenOne(stream: string, c: char)
    requires c != '\n'
    ensures Ended(stream + [c]) == Ended(stream) && Open(stream + [c]) == Open(stream) + [c]
  {
    assert (stream + [c])[..|stream|] == stream;
  }

  lemma {:induction false} OpenAppend(stream: string, more: string)
    requires OneFrame(more)
    ensures Ended(stream + more) == Ended(stream) && Open(stream + more) == Open(stream) + more
  {
    if more == "" {
      assert stream + more == stream && Open(stream) + more == Open(stream);
    } else {
      var init, last := more[..|more| - 1], more[|more| - 1];
      OpenAppend(stream, init);
      OpenOne(stream + init, last);
      assert more == init + [last];
      assert stream + more == stream + init + [last] && Open(stream) + more == Open(stream) + init + [last];
    }
  }

  lemma {:induction false} SplitUnique(frames: seq<string>, open: string)
    requires OneFrame(open) && forall f :: f in frames ==> OneFrame(f)
    ensures Ended(Unsplit(frames, open)) == frames && Open(Unsplit(frames, open)) == open
  {
    if frames == [] {
      OpenAppend("", open);
      assert "" + open == open;
    } else {
      var init, last := frames[..|frames| - 1], frames[|frames| - 1];
      SplitUnique(init, last);
      var head := Unsplit(init, last);
      UnsplitAppend(init, last, "\n");
      UnsplitAppend(init, last + "\n", open);
      assert (head + "\n")[..|head|] == head;
      OpenAppend(head + "\n", open);
      assert "" + open == open;
      assert frames == init + [last];
    }
  }

  // ---- the splitter shows what the stream says, whatever the chunks ----

  lemma {:induction false} FeedExpected(stream: string, data: string)
    ensures Feed(Expected(stream), data) == Expected(stream + data)
  {
    if data == "" {
      assert stream + data == stream;
    } else {
      var init, last := data[..|data| - 1], data[|data| - 1];
      FeedExpected(stream, init);
      assert stream + data == stream + init + [last];
    }
  }

  function FeedChunks(s: Splitter, chunks: seq<string>): Splitter {
    if chunks == [] then s else Feed(FeedChunks(s, chunks[..|chunks| - 1]), chunks[|chunks| - 1])
  }

  /** Any division of a stream into writes shows the same lines: those of its frames. */
  lemma {:induction false} ChunksDoNotMatter(chunks: seq<string>)
    ensures FeedChunks(Splitter("", false, []), chunks) == Expected(Flatten(chunks))
  {
    if chunks == [] {
      assert ShownAll([]) == [];
    } else {
      ChunksDoNotMatter(chunks[..|chunks| - 1]);
      FeedExpected(Flatten(chunks[..|chunks| - 1]), chunks[|chunks| - 1]);
    }
  }

  /** Nothing larger than a frame may be is ever held or shown, and no line holds a newline. */
  lemma OutputIsBounded(chunks: seq<string>)
    ensures var s := FeedChunks(Splitter("", false, []), chunks);
            && |s.buffer| <= FRAME_LIMIT
            && forall i :: 0 <= i < |s.lines| ==> s.lines[i].Text? ==>
                 |s.lines[i].text| <= FRAME_LIMIT && OneFrame(s.lines[i].text)
  {
    var stream := Flatten(chunks);
    ChunksDoNotMatter(chunks);
    SplitJoins(stream);
    forall f | f in Ended(stream) ensures Shown(f).Text? ==> |Shown(f).text| <= FRAME_LIMIT && OneFrame(Shown(f).text) {
      assert OneFrame(f);
    }
  }

  /** A line is the frame, or the frame less the one carriage return it ends in, or says that the frame is
      larger than 2 MiB. */
  ghost predicate Shows(line: Line, frame: string) {
    match line
    case TooLarge => |frame| > 2097152
    case Text(text) =>
      && |frame| <= 2097152
      && (if frame != "" && frame[|frame| - 1] == '\r' then frame == text + "\r" else frame == text)
  }

  lemma ShownShows(frame: string)
    ensures Shows(Shown(frame), frame)
  {
    if frame != "" && frame[|frame| - 1] == '\r' {
      assert frame == frame[..|frame| - 1] + "\r";
      TrimCRTakesOne(frame[..|frame| - 1]);
    } else {
      TrimCRTakesOne(frame);
    }
  }

  lemma AllShow(frames: seq<string>)
    ensures |ShownAll(frames)| == |frames| && forall i :: 0 <= i < |frames| ==> Shows(ShownAll(frames)[i], frames[i])
  {
    forall i | 0 <= i < |frames| ensures Shows(ShownAll(frames)[i], frames[i]) {
      ShownShows(frames[i]);
    }
  }

  /** Each frame shows one line, in its place; a frame still open shows when it is too large, and only then. */
  lemma OneLineEach(chunks: seq<string>, frames: seq<string>, open: string)
    requires OneFrame(open) && forall f :: f in frames ==> OneFrame(f)
    requires Flatten(chunks) == Unsplit(frames, open)
    ensures var s := FeedChunks(Splitter("", false, []), chunks);
            && |s.lines| == |frames| + (if |open| > 2097152 then 1 else 0)
            && (forall i :: 0 <= i < |frames| ==> Shows(s.lines[i], frames[i]))
            && (|open| > 2097152 ==> s.lines[|frames|] == TooLarge)
            && s.buffer == (if |open| > 2097152 then "" else open)
  {
    ChunksDoNotMatter(chunks);
    SplitUnique(frames, open);
    AllShow(frames);
    var shown := ShownAll(frames);
    assert FeedChunks(Splitter("", false, []), chunks).lines == shown + if |open| > FRAME_LIMIT then [TooLarge] else [];
  }

  // ---- the bounded copy of stderr ----

  const DIAGNOSTICS_LIMIT := 64 * 1024

  function FirstOf(s: string): string {
    if |s| <= DIAGNOSTICS_LIMIT then s else s[..DIAGNOSTICS_LIMIT]
  }

  class LimitedBuffer {
    var contents: string

    predicate Valid()
      reads this
    {
      |contents| <= DIAGNOSTICS_LIMIT
    }

    constructor ()
      ensures Valid() && contents == ""
    {
      contents := "";
    }

    method Write(data: string) returns (n: nat)
      requires Valid()
      modifies this
      ensures Valid() && contents == FirstOf(old(contents) + data)
      ensures old(contents) <= contents <= old(contents) + data
      ensures |contents| == 65536 || contents == old(contents) + data
      ensures n == |data|
    {
      n := |data|;
      var remaining := DIAGNOSTICS_LIMIT - |contents|;
      if remaining > 0 {
        var kept := if |data| > remaining then data[..remaining] else data;
        contents := contents + kept;
      }
    }
  }

  function Diagnostics(chunks: seq<string>): string {
    if chunks == [] then "" else FirstOf(Diagnostics(chunks[..|chunks| - 1]) + chunks[|chunks| - 1])
  }

  /** The copy is always exactly the beginning of the stream. */
  lemma {:induction false} DiagnosticsAreTheBeginning(chunks: seq<string>)
    ensures Diagnostics(chunks) == FirstOf(Flatten(chunks))
    ensures Diagnostics(chunks) <= Flatten(chunks)
    ensures |Diagnostics(chunks)| == if |Flatten(chunks)| < 65536 then |Flatten(chunks)| else 65536
  {
    if chunks != [] {
      var stream, last := Flatten(chunks[..|chunks| - 1]), chunks[|chunks| - 1];
      DiagnosticsAreTheBeginning(chunks[..|chunks| - 1]);
      if |stream| > DIAGNOSTICS_LIMIT {
        assert FirstOf(stream + last) == FirstOf(stream);
        assert (FirstOf(stream) + last)[..DIAGNOSTICS_LIMIT] == FirstOf(stream);
      }
    }
  }
}
