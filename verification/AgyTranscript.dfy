/** What the Antigravity stream writes, said from the frames alone, and the proof that the assembler
    writes it. */
module AgyTranscript {
  import opened Basics
  import opened AgyStream

  // ---- what the frames say of a step ----

  predicate Of(f: Frame, k: int) {
    f.Step? && f.idx == k
  }

  predicate Seen(frames: seq<Frame>, k: int) {
    frames != [] && (Seen(frames[..|frames| - 1], k) || Of(frames[|frames| - 1], k))
  }

  /** A frame that completes step k: its end, a tool call of a later step, or the result. */
  predicate CompletesStep(f: Frame, k: int) {
    || (f.Step? && f.tool && k < f.idx)
    || (Of(f, k) && !f.tool && f.ended)
    || f.Result?
  }

  /** A frame that completes the thinking of step k: also the first text of the step. */
  predicate CompletesThinking(f: Frame, k: int) {
    CompletesStep(f, k) || (Of(f, k) && !f.tool && f.text != "")
  }

  predicate ThinkingDone(frames: seq<Frame>, k: int) {
    frames != [] && (ThinkingDone(frames[..|frames| - 1], k)
                     || (CompletesThinking(frames[|frames| - 1], k) && Seen(frames, k)))
  }

  predicate TextDone(frames: seq<Frame>, k: int) {
    frames != [] && (TextDone(frames[..|frames| - 1], k) || (CompletesStep(frames[|frames| - 1], k) && Seen(frames, k)))
  }

  /** The deltas of step k received until the frame that completed them, that frame included. */
  function ThinkingText(frames: seq<Frame>, k: int): string {
    if frames == [] then ""
    else
      var init, last := frames[..|frames| - 1], frames[|frames| - 1];
      ThinkingText(init, k) + (if Of(last, k) && !last.tool && !ThinkingDone(init, k) then last.thinking else "")
  }

  function StepText(frames: seq<Frame>, k: int): string {
    if frames == [] then ""
    else
      var init, last := frames[..|frames| - 1], frames[|frames| - 1];
      StepText(init, k) + (if Of(last, k) && !last.tool && !TextDone(init, k) then last.text else "")
  }

  ghost predicate Called(frames: seq<Frame>, k: int) {
    exists f :: f in frames && Of(f, k) && f.tool
  }

  ghost predicate Returned(frames: seq<Frame>, k: int) {
    exists f :: f in frames && Of(f, k) && f.tool && f.ended
  }

  // ---- parts of the transcript ----

  /** The words of a step, the cards of a step, what answers the user, the answer taken from the result, or what
      else a result leaves. */
  datatype Part = Words(k: int) | Cards(k: int) | Replies | Fallback | Notes

  predicate Belongs(e: Event, part: Part) {
    match part
    case Words(k) => (e.Thinking? || e.Assistant?) && e.step == k
    case Cards(k) => (e.ToolCall? || e.ToolResult?) && e.step == k
    case Replies => e.Assistant? || e.Answer?
    case Fallback => e.Answer?
    case Notes => e.CommandOutput? || e.DeniedNotice?
  }

  /** The events of the transcript that belong to a part, in order. */
  function Pick(trace: seq<Event>, part: Part): seq<Event> {
    if trace == [] then []
    else
      var last := trace[|trace| - 1];
      if Belongs(last, part) then Pick(trace[..|trace| - 1], part) + [last] else Pick(trace[..|trace| - 1], part)
  }

  function ThinkingEvent(k: int, text: string): seq<Event> {
    if TrimSpace(text) != "" then [Thinking(k, TrimSpace(text))] else []
  }

  function AssistantEvent(k: int, text: string): seq<Event> {
    if TrimSpace(text) != "" then [Assistant(k, TrimSpace(text))] else []
  }

  /** The specification of a step's words: at most one thinking event, then at most one assistant event,
      each the trimmed deltas received until the step's thinking, or its text, was complete. */
  function ExpectedWords(frames: seq<Frame>, k: int): seq<Event> {
    if TextDone(frames, k) then ThinkingEvent(k, ThinkingText(frames, k)) + AssistantEvent(k, StepText(frames, k))
    else if ThinkingDone(frames, k) then ThinkingEvent(k, ThinkingText(frames, k))
    else []
  }

  /** And of its cards: the call, then the result. */
  ghost function ExpectedCards(frames: seq<Frame>, k: int): seq<Event> {
    if Returned(frames, k) then [ToolCall(k), ToolResult(k)] else if Called(frames, k) then [ToolCall(k)] else []
  }

  // ---- picking ----

  lemma PickOne(trace: seq<Event>, e: Event, part: Part)
    ensures Pick(trace + [e], part) == if Belongs(e, part) then Pick(trace, part) + [e] else Pick(trace, part)
  {
    assert (trace + [e])[..|trace|] == trace;
  }

  lemma {:induction false} PickAppend(a: seq<Event>, b: seq<Event>, part: Part)
    ensures Pick(a + b, part) == Pick(a, part) + Pick(b, part)
  {
    if b == [] {
      assert a + b == a;
    } else {
      var init, last := b[..|b| - 1], b[|b| - 1];
      PickAppend(a, init, part);
      PickOne(a + init, last, part);
      assert a + b == a + init + [last];
    }
  }

  lemma {:induction false} PickHas(trace: seq<Event>, p: nat, part: Part)
    requires p < |trace| && Belongs(trace[p], part)
    ensures trace[p] in Pick(trace, part)
  {
    if p < |trace| - 1 {
      PickHas(trace[..|trace| - 1], p, part);
    }
  }

  // ---- one step at a time ----

  /** All the assembler holds and has written of one step's words. */
  datatype Slot = Slot(seen: bool, thinkingFlushed: bool, textFlushed: bool, thinking: string, text: string,
                       words: seq<Event>)

  function SlotOf(a: Assembler, k: int): Slot {
    Slot(k in a.stepSeen, k in a.thinkingFlushed, k in a.textFlushed,
         Get(a.thinkingByStep, k), Get(a.textByStep, k), Pick(a.trace, Words(k)))
  }

  function SlotThinking(s: Slot, k: int): Slot {
    s.(thinkingFlushed := true, words := if s.thinkingFlushed then s.words else s.words + ThinkingEvent(k, s.thinking))
  }

  function SlotText(s: Slot, k: int): Slot {
    var t := SlotThinking(s, k);
    t.(textFlushed := true, words := if t.textFlushed then t.words else t.words + AssistantEvent(k, t.text))
  }

  function SlotDeltas(s: Slot, f: Frame, k: int): Slot
    requires f.Step?
  {
    var t := s.(thinking := s.thinking + f.thinking);
    var u := if f.text == "" then t else SlotThinking(t, k).(text := t.text + f.text);
    if f.ended then SlotText(u, k) else u
  }

  /** What a frame does to step k. */
  function SlotStep(s: Slot, f: Frame, k: int): Slot {
    var t := s.(seen := s.seen || Of(f, k));
    match f
    case Silent => t
    case Step(idx, tool, _, _, _) =>
      if tool then if k < idx && t.seen then SlotText(t, k) else t
      else if idx == k then SlotDeltas(t, f, k)
      else t
    case Result(_) => if t.seen then SlotText(t, k) else t
  }

  lemma PickEvents(trace: seq<Event>, events: seq<Event>, k: int)
    ensures |events| == 1 && Belongs(events[0], Words(k)) ==>
        Pick(trace + events, Words(k)) == Pick(trace, Words(k)) + events
    ensures events == [] || (|events| == 1 && !Belongs(events[0], Words(k))) ==>
        Pick(trace + events, Words(k)) == Pick(trace, Words(k))
  {
    if |events| == 1 {
      PickOne(trace, events[0], Words(k));
      assert events == [events[0]];
    } else if events == [] {
      assert trace + events == trace;
    }
  }

  lemma ThinkingTrace(a: Assembler, idx: int)
    ensures FlushThinking(a, idx).trace
         == a.trace + (if idx in a.thinkingFlushed then [] else ThinkingEvent(idx, Get(a.thinkingByStep, idx)))
  {
    assert a.trace + [] == a.trace;
  }

  lemma FlushThinkingSlot(a: Assembler, idx: int, k: int)
    ensures SlotOf(FlushThinking(a, idx), k) == if k == idx then SlotThinking(SlotOf(a, k), k) else SlotOf(a, k)
  {
    var events := if idx in a.thinkingFlushed then [] else ThinkingEvent(idx, Get(a.thinkingByStep, idx));
    ThinkingTrace(a, idx);
    PickEvents(a.trace, events, k);
    assert Pick(a.trace, Words(k)) + [] == Pick(a.trace, Words(k));
  }

  lemma FlushTextSlot(a: Assembler, idx: int, k: int)
    ensures SlotOf(FlushText(a, idx), k) == if k == idx then SlotText(SlotOf(a, k), k) else SlotOf(a, k)
  {
    FlushThinkingSlot(a, idx, k);
    var b := FlushThinking(a, idx);
    PickOne(b.trace, Assistant(idx, TrimSpace(Get(b.textByStep, idx))), Words(k));
  }

  lemma {:induction false} FlushStepsSlot(a: Assembler, steps: seq<int>, k: int)
    ensures SlotOf(FlushSteps(a, steps), k) == if k in steps then SlotText(SlotOf(a, k), k) else SlotOf(a, k)
  {
    if steps != [] {
      var init, last := steps[..|steps| - 1], steps[|steps| - 1];
      FlushStepsSlot(a, init, k);
      FlushTextSlot(FlushSteps(a, init), last, k);
      assert steps == init + [last];
    }
  }

  lemma {:induction false} BelowMembers(steps: seq<int>, idx: int, k: int)
    ensures k in Below(steps, idx) <==> k in steps && k < idx
  {
    if steps != [] {
      BelowMembers(steps[..|steps| - 1], idx, k);
      assert steps == steps[..|steps| - 1] + [steps[|steps| - 1]];
    }
  }

  // ---- the order of the steps ----

  /** stepOrder lists each step seen once, in ascending order. */
  ghost predicate OrderOK(a: Assembler) {
    Sorted(a.stepOrder) && multiset(a.stepOrder) == multiset(a.stepSeen)
  }

  lemma NoteOrder(a: Assembler, idx: int)
    requires OrderOK(a)
    ensures OrderOK(Note(a, idx))
  {
    if idx !in a.stepSeen {
      SortIntsSorts(a.stepOrder + [idx]);
      assert multiset(a.stepSeen + {idx}) == multiset(a.stepSeen) + multiset{idx};
    }
  }

  lemma OrderLists(a: Assembler, k: int)
    requires OrderOK(a)
    ensures k in a.stepOrder <==> k in a.stepSeen
  {
    assert k in a.stepOrder <==> k in multiset(a.stepOrder);
  }

  lemma {:induction false} FlushStepsKeepsOrder(a: Assembler, steps: seq<int>)
    ensures FlushSteps(a, steps).stepOrder == a.stepOrder && FlushSteps(a, steps).stepSeen == a.stepSeen
    ensures FlushSteps(a, steps).localSlash == a.localSlash
  {
    if steps != [] {
      FlushStepsKeepsOrder(a, steps[..|steps| - 1]);
    }
  }

  predicate SameOrder(a: Assembler, b: Assembler) {
    a.stepOrder == b.stepOrder && a.stepSeen == b.stepSeen && a.localSlash == b.localSlash
  }

  lemma AddTextOrder(a: Assembler, idx: int, delta: string)
    ensures SameOrder(a, AddText(a, idx, delta))
  {
  }

  lemma DeltasOrder(a: Assembler, f: Frame)
    requires f.Step?
    ensures SameOrder(a, HandleDeltas(a, f))
  {
    AddTextOrder(AddThinking(a, f.idx, f.thinking), f.idx, f.text);
  }

  lemma ToolOrder(a: Assembler, idx: int, ended: bool)
    ensures SameOrder(a, HandleTool(a, idx, ended))
  {
    FlushStepsKeepsOrder(a, Below(a.stepOrder, idx));
  }

  lemma StepOrder(a: Assembler, f: Frame)
    requires f.Step? && OrderOK(a)
    ensures OrderOK(Handle(a, f))
  {
    NoteOrder(a, f.idx);
    if f.tool {
      ToolOrder(Note(a, f.idx), f.idx, f.ended);
    } else {
      DeltasOrder(Note(a, f.idx), f);
    }
  }

  lemma ResultOrder(a: Assembler, f: Frame)
    requires f.Result?
    ensures SameOrder(a, Handle(a, f))
  {
    FlushStepsKeepsOrder(a, a.stepOrder);
    var b := FlushSteps(a, a.stepOrder);
    if f.final.Some? {
      assert SameOrder(b, AddReply(b, f.final.value));
    }
  }

  lemma HandleOrder(a: Assembler, f: Frame)
    requires OrderOK(a)
    ensures OrderOK(Handle(a, f))
  {
    match f
    case Silent =>
    case Step(_, _, _, _, _) => StepOrder(a, f);
    case Result(_) => ResultOrder(a, f);
  }

  // ---- each frame, slot by slot ----

  lemma PriorSlot(a: Assembler, idx: int, k: int)
    requires OrderOK(a)
    ensures SlotOf(FlushPrior(a, a.stepOrder, idx), k)
         == if k < idx && k in a.stepSeen then SlotText(SlotOf(a, k), k) else SlotOf(a, k)
  {
    BelowMembers(a.stepOrder, idx, k);
    OrderLists(a, k);
    FlushStepsSlot(a, Below(a.stepOrder, idx), k);
  }

  lemma CardsLeaveWords(a: Assembler, idx: int, k: int)
    ensures SlotOf(AddCall(a, idx), k) == SlotOf(a, k) && SlotOf(AddResult(a, idx), k) == SlotOf(a, k)
  {
    PickOne(a.trace, ToolCall(idx), Words(k));
    PickOne(a.trace, ToolResult(idx), Words(k));
  }

  lemma ToolSlot(a: Assembler, idx: int, ended: bool, k: int)
    requires OrderOK(a)
    ensures SlotOf(HandleTool(a, idx, ended), k)
         == if k < idx && k in a.stepSeen then SlotText(SlotOf(a, k), k) else SlotOf(a, k)
  {
    PriorSlot(a, idx, k);
    var b := FlushPrior(a, a.stepOrder, idx);
    CardsLeaveWords(b, idx, k);
    CardsLeaveWords(AddCall(b, idx), idx, k);
  }

  lemma AddThinkingSlot(a: Assembler, idx: int, delta: string, k: int)
    ensures SlotOf(AddThinking(a, idx, delta), k)
         == if idx == k then SlotOf(a, k).(thinking := SlotOf(a, k).thinking + delta) else SlotOf(a, k)
  {
    assert Get(a.thinkingByStep, k) + [] == Get(a.thinkingByStep, k);
  }

  lemma AddTextSlot(a: Assembler, idx: int, delta: string, k: int)
    requires delta != ""
    ensures SlotOf(AddText(a, idx, delta), k)
         == if idx == k then SlotThinking(SlotOf(a, k), k).(text := SlotOf(a, k).text + delta) else SlotOf(a, k)
  {
    FlushThinkingSlot(a, idx, k);
  }

  lemma DeltasSlot(a: Assembler, f: Frame, k: int)
    requires f.Step?
    ensures SlotOf(HandleDeltas(a, f), k) == if f.idx == k then SlotDeltas(SlotOf(a, k), f, k) else SlotOf(a, k)
  {
    var b := AddThinking(a, f.idx, f.thinking);
    AddThinkingSlot(a, f.idx, f.thinking, k);
    if f.text != "" {
      AddTextSlot(b, f.idx, f.text, k);
    }
    FlushTextSlot(AddText(b, f.idx, f.text), f.idx, k);
  }

  lemma ReplySlot(a: Assembler, r: Final, k: int)
    ensures SlotOf(AddReply(a, r), k) == SlotOf(a, k)
  {
    PickOne(a.trace, CommandOutput(TrimSpace(r.response)), Words(k));
    PickOne(a.trace, Answer(TrimSpace(r.response)), Words(k));
  }

  lemma FinalSlot(a: Assembler, r: Final, k: int)
    ensures SlotOf(HandleFinal(a, r), k) == SlotOf(a, k)
  {
    ReplySlot(a, r, k);
    PickOne(AddReply(a, r).trace, DeniedNotice, Words(k));
  }

  lemma NoteSlot(a: Assembler, idx: int, k: int)
    ensures SlotOf(Note(a, idx), k) == SlotOf(a, k).(seen := k in a.stepSeen || k == idx)
  {
  }

  lemma StepSlot(a: Assembler, f: Frame, k: int)
    requires OrderOK(a) && f.Step?
    ensures SlotOf(Handle(a, f), k) == SlotStep(SlotOf(a, k), f, k)
  {
    NoteOrder(a, f.idx);
    NoteSlot(a, f.idx, k);
    if f.tool {
      ToolSlot(Note(a, f.idx), f.idx, f.ended, k);
    } else {
      DeltasSlot(Note(a, f.idx), f, k);
    }
  }

  lemma ResultSlot(a: Assembler, f: Frame, k: int)
    requires OrderOK(a) && f.Result?
    ensures SlotOf(Handle(a, f), k) == SlotStep(SlotOf(a, k), f, k)
  {
    OrderLists(a, k);
    FlushStepsSlot(a, a.stepOrder, k);
    if f.final.Some? {
      FinalSlot(FlushSteps(a, a.stepOrder), f.final.value, k);
    }
  }

  /** The assembler treats each step as if it were alone. */
  lemma HandleSlot(a: Assembler, f: Frame, k: int)
    requires OrderOK(a)
    ensures SlotOf(Handle(a, f), k) == SlotStep(SlotOf(a, k), f, k)
  {
    if f.Step? {
      StepSlot(a, f, k);
    } else if f.Result? {
      ResultSlot(a, f, k);
    }
  }

  // ---- the words ----

  /** The slot agrees with the frames. */
  predicate Tracks(s: Slot, frames: seq<Frame>, k: int) {
    && s.seen == Seen(frames, k)
    && s.thinkingFlushed == ThinkingDone(frames, k)
    && s.textFlushed == TextDone(frames, k)
    && (s.textFlushed ==> s.thinkingFlushed)
    && (!s.thinkingFlushed ==> s.thinking == ThinkingText(frames, k))
    && (!s.textFlushed ==> s.text == StepText(frames, k))
    && s.words == ExpectedWords(frames, k)
  }

  /** One frame more, unrolled. */
  lemma SpecStep(frames: seq<Frame>, f: Frame, k: int)
    ensures Seen(frames + [f], k) == (Seen(frames, k) || Of(f, k))
    ensures ThinkingDone(frames + [f], k)
         == (ThinkingDone(frames, k) || (CompletesThinking(f, k) && (Seen(frames, k) || Of(f, k))))
    ensures TextDone(frames + [f], k) == (TextDone(frames, k) || (CompletesStep(f, k) && (Seen(frames, k) || Of(f, k))))
    ensures ThinkingText(frames + [f], k)
         == if Of(f, k) && !f.tool && !ThinkingDone(frames, k) then ThinkingText(frames, k) + f.thinking
             else ThinkingText(frames, k)
    ensures StepText(frames + [f], k)
         == if Of(f, k) && !f.tool && !TextDone(frames, k) then StepText(frames, k) + f.text else StepText(frames, k)
  {
    assert (frames + [f])[..|frames|] == frames;
    assert ThinkingText(frames, k) + "" == ThinkingText(frames, k);
    assert StepText(frames, k) + "" == StepText(frames, k);
  }

  lemma TracksFields(s: Slot, frames: seq<Frame>, f: Frame, k: int)
    requires Tracks(s, frames, k)
    ensures SlotStep(s, f, k).seen == Seen(frames + [f], k)
    ensures SlotStep(s, f, k).thinkingFlushed == ThinkingDone(frames + [f], k)
    ensures SlotStep(s, f, k).textFlushed == TextDone(frames + [f], k)
    ensures !s.thinkingFlushed ==> SlotStep(s, f, k).thinking == ThinkingText(frames + [f], k)
    ensures !s.textFlushed ==> SlotStep(s, f, k).text == StepText(frames + [f], k)
  {
    SpecStep(frames, f, k);
    assert s.thinking + "" == s.thinking && s.text + "" == s.text;
  }

  lemma TracksDone(s: Slot, frames: seq<Frame>, f: Frame, k: int)
    requires Tracks(s, frames, k) && s.textFlushed
    ensures SlotStep(s, f, k).words == ExpectedWords(frames + [f], k)
  {
    SpecStep(frames, f, k);
  }

  lemma TracksText(s: Slot, frames: seq<Frame>, f: Frame, k: int)
    requires Tracks(s, frames, k) && s.thinkingFlushed && !s.textFlushed
    ensures SlotStep(s, f, k).words == ExpectedWords(frames + [f], k)
  {
    SpecStep(frames, f, k);
    assert StepText(frames, k) + "" == StepText(frames, k);
  }

  lemma TracksThinking(s: Slot, frames: seq<Frame>, f: Frame, k: int)
    requires Tracks(s, frames, k) && !s.thinkingFlushed
    ensures SlotStep(s, f, k).words == ExpectedWords(frames + [f], k)
  {
    SpecStep(frames, f, k);
    assert s.words == [];
    var thinking := ThinkingText(frames + [f], k);
    assert [] + ThinkingEvent(k, thinking) == ThinkingEvent(k, thinking);
    assert ThinkingText(frames, k) + "" == ThinkingText(frames, k);
    assert StepText(frames, k) + "" == StepText(frames, k);
  }

  lemma TracksWords(s: Slot, frames: seq<Frame>, f: Frame, k: int)
    requires Tracks(s, frames, k)
    ensures SlotStep(s, f, k).words == ExpectedWords(frames + [f], k)
  {
    if s.textFlushed {
      TracksDone(s, frames, f, k);
    } else if s.thinkingFlushed {
      TracksText(s, frames, f, k);
    } else {
      TracksThinking(s, frames, f, k);
    }
  }

  lemma TracksStep(s: Slot, frames: seq<Frame>, f: Frame, k: int)
    requires Tracks(s, frames, k)
    ensures Tracks(SlotStep(s, f, k), frames + [f], k)
  {
    TracksFields(s, frames, f, k);
    TracksWords(s, frames, f, k);
  }

  function Run(localSlash: bool, frames: seq<Frame>): Assembler {
    HandleAll(New(localSlash), frames)
  }

  lemma {:induction false} RunOrder(localSlash: bool, frames: seq<Frame>)
    ensures OrderOK(Run(localSlash, frames))
  {
    if frames != [] {
      RunOrder(localSlash, frames[..|frames| - 1]);
      HandleOrder(Run(localSlash, frames[..|frames| - 1]), frames[|frames| - 1]);
    }
  }

  /** What the frames do to step k, alone. */
  function SlotRun(frames: seq<Frame>, k: int): Slot {
    if frames == [] then Slot(false, false, false, "", "", [])
    else SlotStep(SlotRun(frames[..|frames| - 1], k), frames[|frames| - 1], k)
  }

  /** No frame of another step changes what step k says, except by completing it. */
  lemma {:induction false} RunSlot(localSlash: bool, frames: seq<Frame>, k: int)
    ensures SlotOf(Run(localSlash, frames), k) == SlotRun(frames, k)
  {
    if frames != [] {
      var init := frames[..|frames| - 1];
      RunSlot(localSlash, init, k);
      RunOrder(localSlash, init);
      HandleSlot(Run(localSlash, init), frames[|frames| - 1], k);
    }
  }

  lemma {:induction false} SlotTracks(frames: seq<Frame>, k: int)
    ensures Tracks(SlotRun(frames, k), frames, k)
  {
    if frames != [] {
      var init, last := frames[..|frames| - 1], frames[|frames| - 1];
      SlotTracks(init, k);
      assert init + [last] == frames;
      TracksStep(SlotRun(init, k), init, last, k);
    }
  }

  lemma RunTracks(localSlash: bool, frames: seq<Frame>, k: int)
    ensures OrderOK(Run(localSlash, frames)) && Tracks(SlotOf(Run(localSlash, frames), k), frames, k)
  {
    RunOrder(localSlash, frames);
    RunSlot(localSlash, frames, k);
    SlotTracks(frames, k);
  }

  /** On every sequence of frames, the transcript holds of each step exactly the words specified. */
  lemma StepWords(localSlash: bool, frames: seq<Frame>, k: int)
    ensures Pick(Run(localSlash, frames).trace, Words(k)) == ExpectedWords(frames, k)
  {
    RunTracks(localSlash, frames, k);
  }

  // ---- once complete, a step's words stay as they are ----

  lemma {:induction false} DoneImpliesSeen(frames: seq<Frame>, k: int)
    ensures TextDone(frames, k) ==> ThinkingDone(frames, k)
    ensures ThinkingDone(frames, k) ==> Seen(frames, k)
  {
    if frames != [] {
      DoneImpliesSeen(frames[..|frames| - 1], k);
    }
  }

  lemma {:induction false} CompleteWordsStay(frames: seq<Frame>, more: seq<Frame>, k: int)
    requires TextDone(frames, k)
    ensures TextDone(frames + more, k)
    ensures ExpectedWords(frames + more, k) == ExpectedWords(frames, k)
  {
    if more == [] {
      assert frames + more == frames;
    } else {
      var init := more[..|more| - 1];
      CompleteWordsStay(frames, init, k);
      DoneImpliesSeen(frames + init, k);
      assert (frames + more)[..|frames + more| - 1] == frames + init;
      assert forall x: string :: x + [] == x;
    }
  }

  /** A result leaves nothing of a seen step unwritten, whatever follows. */
  lemma ResultCompletes(localSlash: bool, frames: seq<Frame>, result: Frame, more: seq<Frame>, k: int)
    requires result.Result? && Seen(frames, k)
    ensures k in Run(localSlash, frames + [result]).textFlushed
             && k in Run(localSlash, frames + [result]).thinkingFlushed
    ensures Pick(Run(localSlash, frames + [result] + more).trace, Words(k))
         == Pick(Run(localSlash, frames + [result]).trace, Words(k))
  {
    var all := frames + [result];
    assert all[..|all| - 1] == frames;
    RunTracks(localSlash, all, k);
    DoneImpliesSeen(all, k);
    CompleteWordsStay(all, more, k);
    StepWords(localSlash, all + more, k);
  }

  lemma Twice(s: seq<int>, i: nat, j: nat)
    requires i < j < |s| && s[i] == s[j]
    ensures multiset(s)[s[j]] >= 2
  {
    assert s == s[..j] + [s[j]] + s[j + 1..];
    assert s[..j][i] in multiset(s[..j]);
  }

  /** stepOrder is strictly ascending and lists exactly the steps seen. */
  lemma StepsInOrder(localSlash: bool, frames: seq<Frame>, k: int)
    ensures var order := Run(localSlash, frames).stepOrder;
            && (forall i, j :: 0 <= i < j < |order| ==> order[i] < order[j])
            && (k in order <==> Seen(frames, k))
  {
    RunTracks(localSlash, frames, k);
    var a := Run(localSlash, frames);
    OrderLists(a, k);
    forall i, j | 0 <= i < j < |a.stepOrder| ensures a.stepOrder[i] < a.stepOrder[j] {
      if a.stepOrder[i] == a.stepOrder[j] {
        Twice(a.stepOrder, i, j);
      }
    }
  }

  // ---- the cards ----

  datatype CardSlot = CardSlot(called: bool, returned: bool, cards: seq<Event>)

  function CardsOf(a: Assembler, k: int): CardSlot {
    CardSlot(k in a.toolEmitted, k in a.toolResultEmitted, Pick(a.trace, Cards(k)))
  }

  function CardStep(s: CardSlot, f: Frame, k: int): CardSlot {
    if !Of(f, k) || !f.tool then s
    else
      var t := if s.called then s else s.(called := true, cards := s.cards + [ToolCall(k)]);
      if f.ended && !t.returned then t.(returned := true, cards := t.cards + [ToolResult(k)]) else t
  }

  // What a flush does to the rest: it adds words to the transcript, and nothing else that cards know of.

  function Added(a: Assembler, b: Assembler): seq<Event>
    requires a.trace <= b.trace
  {
    b.trace[|a.trace|..]
  }

  predicate OnlyWords(events: seq<Event>) {
    forall i :: 0 <= i < |events| ==> events[i].Thinking? || events[i].Assistant?
  }

  predicate SameTools(a: Assembler, b: Assembler) {
    && a.toolEmitted == b.toolEmitted && a.toolResultEmitted == b.toolResultEmitted && a.localSlash == b.localSlash
    && a.wroteCommandOutput == b.wroteCommandOutput
  }

  predicate AddsWords(a: Assembler, b: Assembler) {
    && SameTools(a, b) && a.trace <= b.trace && OnlyWords(Added(a, b))
    && b.wroteAssistant == (a.wroteAssistant || Pick(Added(a, b), Replies) != [])
  }

  lemma AddsAll(a: Assembler, b: Assembler, events: seq<Event>)
    requires SameTools(a, b) && b.trace == a.trace + events && OnlyWords(events)
    requires b.wroteAssistant == (a.wroteAssistant || Pick(events, Replies) != [])
    ensures AddsWords(a, b)
  {
    assert Added(a, b) == events;
  }

  lemma WordsBoth(x: seq<Event>, y: seq<Event>)
    requires OnlyWords(x) && OnlyWords(y)
    ensures OnlyWords(x + y) && ((Pick(x + y, Replies) != []) == (Pick(x, Replies) != [] || Pick(y, Replies) != []))
  {
    PickAppend(x, y, Replies);
  }

  lemma AddsBoth(a: Assembler, b: Assembler, c: Assembler)
    requires AddsWords(a, b) && AddsWords(b, c)
    ensures AddsWords(a, c)
  {
    var x, y := Added(a, b), Added(b, c);
    WordsBoth(x, y);
    assert c.trace == a.trace + (x + y);
    AddsAll(a, c, x + y);
  }

  lemma FlushThinkingAdds(a: Assembler, idx: int)
    ensures AddsWords(a, FlushThinking(a, idx))
  {
    var e := Thinking(idx, TrimSpace(Get(a.thinkingByStep, idx)));
    PickOne([], e, Replies);
    AddsAll(a, FlushThinking(a, idx), if FlushThinking(a, idx).trace == a.trace then [] else [] + [e]);
  }

  lemma FlushAssistantAdds(a: Assembler, idx: int)
    ensures AddsWords(a, FlushAssistant(a, idx))
  {
    var e := Assistant(idx, TrimSpace(Get(a.textByStep, idx)));
    PickOne([], e, Replies);
    AddsAll(a, FlushAssistant(a, idx), if FlushAssistant(a, idx).trace == a.trace then [] else [] + [e]);
  }

  lemma FlushTextAdds(a: Assembler, idx: int)
    ensures AddsWords(a, FlushText(a, idx))
  {
    FlushThinkingAdds(a, idx);
    FlushAssistantAdds(FlushThinking(a, idx), idx);
    AddsBoth(a, FlushThinking(a, idx), FlushText(a, idx));
  }

  lemma {:induction false} FlushStepsAdds(a: Assembler, steps: seq<int>)
    ensures AddsWords(a, FlushSteps(a, steps))
  {
    if steps == [] {
      AddsAll(a, a, []);
    } else {
      var init := FlushSteps(a, steps[..|steps| - 1]);
      FlushStepsAdds(a, steps[..|steps| - 1]);
      FlushTextAdds(init, steps[|steps| - 1]);
      AddsBoth(a, init, FlushSteps(a, steps));
    }
  }

  lemma AddTextAdds(a: Assembler, idx: int, delta: string)
    ensures AddsWords(a, AddText(a, idx, delta))
  {
    AddsAll(a, a, []);
    FlushThinkingAdds(a, idx);
  }

  lemma DeltasAdds(a: Assembler, f: Frame)
    requires f.Step?
    ensures AddsWords(a, HandleDeltas(a, f))
  {
    var b := AddThinking(a, f.idx, f.thinking);
    AddsAll(a, b, []);
    var c := AddText(b, f.idx, f.text);
    AddTextAdds(b, f.idx, f.text);
    AddsBoth(a, b, c);
    FlushTextAdds(c, f.idx);
    AddsBoth(a, c, FlushText(c, f.idx));
  }

  lemma {:induction false} PickNone(events: seq<Event>, part: Part)
    requires OnlyWords(events) && (part.Cards? || part.Fallback? || part.Notes?)
    ensures Pick(events, part) == []
  {
    if events != [] {
      PickNone(events[..|events| - 1], part);
    }
  }

  lemma WordsLeave(a: Assembler, b: Assembler, part: Part)
    requires AddsWords(a, b) && (part.Cards? || part.Fallback? || part.Notes?)
    ensures Pick(b.trace, part) == Pick(a.trace, part)
  {
    PickNone(Added(a, b), part);
    PickAppend(a.trace, Added(a, b), part);
    assert b.trace == a.trace + Added(a, b);
  }

  lemma AddCards(a: Assembler, idx: int, k: int)
    ensures CardsOf(AddCall(a, idx), k)
         == if idx != k || k in a.toolEmitted then CardsOf(a, k)
             else CardSlot(true, k in a.toolResultEmitted, Pick(a.trace, Cards(k)) + [ToolCall(k)])
    ensures CardsOf(AddResult(a, idx), k)
         == if idx != k || k in a.toolResultEmitted then CardsOf(a, k)
             else CardSlot(k in a.toolEmitted, true, Pick(a.trace, Cards(k)) + [ToolResult(k)])
  {
    PickOne(a.trace, ToolCall(idx), Cards(k));
    PickOne(a.trace, ToolResult(idx), Cards(k));
  }

  lemma ToolCards(a: Assembler, f: Frame, k: int)
    requires f.Step? && f.tool
    ensures CardsOf(HandleTool(a, f.idx, f.ended), k) == CardStep(CardsOf(a, k), f, k)
  {
    var b := FlushPrior(a, a.stepOrder, f.idx);
    FlushStepsAdds(a, Below(a.stepOrder, f.idx));
    WordsLeave(a, b, Cards(k));
    AddCards(b, f.idx, k);
    AddCards(AddCall(b, f.idx), f.idx, k);
  }

  lemma ReplyCards(a: Assembler, r: Final, k: int)
    ensures CardsOf(AddReply(a, r), k) == CardsOf(a, k)
  {
    PickOne(a.trace, CommandOutput(TrimSpace(r.response)), Cards(k));
    PickOne(a.trace, Answer(TrimSpace(r.response)), Cards(k));
  }

  lemma FinalCards(a: Assembler, r: Final, k: int)
    ensures CardsOf(HandleFinal(a, r), k) == CardsOf(a, k)
  {
    ReplyCards(a, r, k);
    PickOne(AddReply(a, r).trace, DeniedNotice, Cards(k));
  }

  lemma HandleCards(a: Assembler, f: Frame, k: int)
    ensures CardsOf(Handle(a, f), k) == CardStep(CardsOf(a, k), f, k)
  {
    if f.Step? {
      var n := Note(a, f.idx);
      assert CardsOf(n, k) == CardsOf(a, k);
      if f.tool {
        ToolCards(n, f, k);
      } else {
        DeltasAdds(n, f);
        WordsLeave(n, HandleDeltas(n, f), Cards(k));
      }
    } else if f.Result? {
      var b := FlushSteps(a, a.stepOrder);
      FlushStepsAdds(a, a.stepOrder);
      WordsLeave(a, b, Cards(k));
      if f.final.Some? {
        FinalCards(b, f.final.value, k);
      }
    }
  }

  ghost predicate CardsTrack(s: CardSlot, frames: seq<Frame>, k: int) {
    s == CardSlot(Called(frames, k), Returned(frames, k), ExpectedCards(frames, k))
  }

  /** On every sequence of frames a step has at most one call and one result, the result after its call,
      each exactly when a tool frame asked for it. */
  lemma {:induction false} StepCards(localSlash: bool, frames: seq<Frame>, k: int)
    ensures CardsTrack(CardsOf(Run(localSlash, frames), k), frames, k)
  {
    if frames != [] {
      var init, last := frames[..|frames| - 1], frames[|frames| - 1];
      StepCards(localSlash, init, k);
      HandleCards(Run(localSlash, init), last, k);
      assert frames == init + [last];
    }
  }

  // ---- cards come after the words of the earlier steps ----

  lemma FinalGrows(a: Assembler, r: Final)
    ensures a.trace <= HandleFinal(a, r).trace
  {
    assert a.trace <= AddReply(a, r).trace;
  }

  lemma HandleGrows(a: Assembler, f: Frame)
    ensures a.trace <= Handle(a, f).trace
  {
    if f.Step? {
      var n := Note(a, f.idx);
      assert n.trace == a.trace;
      if f.tool {
        FlushStepsAdds(n, Below(n.stepOrder, f.idx));
      } else {
        DeltasAdds(n, f);
      }
    } else if f.Result? {
      FlushStepsAdds(a, a.stepOrder);
      if f.final.Some? {
        FinalGrows(FlushSteps(a, a.stepOrder), f.final.value);
      }
    }
  }

  lemma {:induction false} RunGrows(localSlash: bool, frames: seq<Frame>, more: seq<Frame>)
    ensures Run(localSlash, frames).trace <= Run(localSlash, frames + more).trace
  {
    if more == [] {
      assert frames + more == frames;
    } else {
      var init := more[..|more| - 1];
      RunGrows(localSlash, frames, init);
      assert (frames + more)[..|frames + more| - 1] == frames + init;
      HandleGrows(Run(localSlash, frames + init), more[|more| - 1]);
    }
  }

  /** A call stands at one place of the transcript only. */
  lemma OneCall(trace: seq<Event>, p: nat, q: nat, k: int)
    requires p < q < |trace| && trace[p] == ToolCall(k) && trace[q] == ToolCall(k)
    ensures |Pick(trace, Cards(k))| >= 2 && Pick(trace, Cards(k)) != [ToolCall(k), ToolResult(k)]
  {
    var upTo := trace[..q + 1];
    PickHas(trace[..q], p, Cards(k));
    assert upTo[..q] == trace[..q];
    assert Pick(upTo, Cards(k)) == Pick(trace[..q], Cards(k)) + [ToolCall(k)];
    assert trace == upTo + trace[q + 1..];
    PickAppend(upTo, trace[q + 1..], Cards(k));
    assert Pick(trace, Cards(k))[|Pick(trace[..q], Cards(k))|] == ToolCall(k);
  }

  /** The transcript up to the card of a tool step that a frame calls for the first time. */
  function BeforeTheCard(localSlash: bool, before: seq<Frame>, idx: int): seq<Event> {
    var n := Note(Run(localSlash, before), idx);
    FlushPrior(n, n.stepOrder, idx).trace
  }

  lemma CardPlace(localSlash: bool, before: seq<Frame>, f: Frame, k: int)
    requires f.Step? && f.tool && !Called(before, f.idx)
    ensures BeforeTheCard(localSlash, before, f.idx) + [ToolCall(f.idx)] <= Run(localSlash, before + [f]).trace
    ensures Pick(Run(localSlash, before + [f]).trace, Words(k))
         == Pick(BeforeTheCard(localSlash, before, f.idx), Words(k))
  {
    assert (before + [f])[..|before|] == before;
    StepCards(localSlash, before, f.idx);
    var n := Note(Run(localSlash, before), f.idx);
    var b := FlushPrior(n, n.stepOrder, f.idx);
    FlushStepsAdds(n, Below(n.stepOrder, f.idx));
    CardsLeaveWords(b, f.idx, k);
    CardsLeaveWords(AddCall(b, f.idx), f.idx, k);
  }

  /** In the finished transcript, all the words of every earlier step seen before a tool call stand
      before the call's card. */
  lemma WordsBeforeTheCard(localSlash: bool, before: seq<Frame>, f: Frame, after: seq<Frame>, k: int, p: nat)
    requires f.Step? && f.tool && !Called(before, f.idx) && k < f.idx && Seen(before, k)
    requires p < |Run(localSlash, before + [f] + after).trace|
             && Run(localSlash, before + [f] + after).trace[p] == ToolCall(f.idx)
    ensures Pick(Run(localSlash, before + [f] + after).trace[..p], Words(k))
         == Pick(Run(localSlash, before + [f] + after).trace, Words(k))
  {
    var now := before + [f];
    var trace, head := Run(localSlash, now + after).trace, BeforeTheCard(localSlash, before, f.idx);
    assert now[..|before|] == before;
    CardPlace(localSlash, before, f, k);
    RunGrows(localSlash, now, after);
    assert trace[|head|] == ToolCall(f.idx) && trace[..|head|] == head;
    StepCards(localSlash, now + after, f.idx);
    if p < |head| {
      OneCall(trace, p, |head|, f.idx);
    } else if p > |head| {
      OneCall(trace, |head|, p, f.idx);
    }
    CompleteWordsStay(now, after, k);
    StepWords(localSlash, now, k);
    StepWords(localSlash, now + after, k);
  }

  // ---- the response of the result is the answer of last resort ----

  lemma HandleKeepsSlash(a: Assembler, f: Frame)
    ensures Handle(a, f).localSlash == a.localSlash
  {
    match f
    case Silent =>
    case Result(_) => ResultOrder(a, f);
    case Step(idx, tool, ended, _, _) =>
      var n := Note(a, idx);
      if tool {
        ToolOrder(n, idx, ended);
      } else {
        DeltasOrder(n, f);
      }
  }

  lemma {:induction false} RunKeepsSlash(localSlash: bool, frames: seq<Frame>)
    ensures Run(localSlash, frames).localSlash == localSlash
  {
    if frames != [] {
      RunKeepsSlash(localSlash, frames[..|frames| - 1]);
      HandleKeepsSlash(Run(localSlash, frames[..|frames| - 1]), frames[|frames| - 1]);
    }
  }

  predicate Wrote(a: Assembler) {
    a.wroteAssistant == (Pick(a.trace, Replies) != [])
  }

  predicate NoAnswer(trace: seq<Event>) {
    Pick(trace, Fallback) == []
  }

  lemma WordsReplies(a: Assembler, b: Assembler)
    requires AddsWords(a, b)
    ensures Wrote(a) ==> Wrote(b)
    ensures NoAnswer(a.trace) ==> NoAnswer(b.trace)
  {
    WordsLeave(a, b, Fallback);
    PickAppend(a.trace, Added(a, b), Replies);
    assert b.trace == a.trace + Added(a, b);
  }

  lemma CardsReplies(a: Assembler, idx: int)
    ensures Wrote(a) ==> Wrote(AddCall(a, idx)) && Wrote(AddResult(a, idx))
    ensures NoAnswer(a.trace) ==> NoAnswer(AddCall(a, idx).trace) && NoAnswer(AddResult(a, idx).trace)
  {
    PickOne(a.trace, ToolCall(idx), Replies);
    PickOne(a.trace, ToolCall(idx), Fallback);
    PickOne(a.trace, ToolResult(idx), Replies);
    PickOne(a.trace, ToolResult(idx), Fallback);
  }

  lemma StepReplies(a: Assembler, f: Frame)
    requires !f.Result?
    ensures Wrote(a) ==> Wrote(Handle(a, f))
    ensures NoAnswer(a.trace) ==> NoAnswer(Handle(a, f).trace)
  {
    if f.Step? {
      var n := Note(a, f.idx);
      assert n.trace == a.trace && n.wroteAssistant == a.wroteAssistant;
      if f.tool {
        var b := FlushPrior(n, n.stepOrder, f.idx);
        FlushStepsAdds(n, Below(n.stepOrder, f.idx));
        WordsReplies(n, b);
        CardsReplies(b, f.idx);
        CardsReplies(AddCall(b, f.idx), f.idx);
      } else {
        DeltasAdds(n, f);
        WordsReplies(n, HandleDeltas(n, f));
      }
    }
  }

  lemma {:induction false} RunReplies(localSlash: bool, frames: seq<Frame>)
    requires forall f :: f in frames ==> !f.Result?
    ensures Wrote(Run(localSlash, frames)) && NoAnswer(Run(localSlash, frames).trace)
  {
    if frames != [] {
      RunReplies(localSlash, frames[..|frames| - 1]);
      StepReplies(Run(localSlash, frames[..|frames| - 1]), frames[|frames| - 1]);
    }
  }

  lemma {:induction false} PickFrom(trace: seq<Event>, part: Part, e: Event)
    requires e in Pick(trace, part)
    ensures e in trace && Belongs(e, part)
  {
    var last := trace[|trace| - 1];
    if e != last || !Belongs(last, part) {
      PickFrom(trace[..|trace| - 1], part, e);
    }
  }

  /** Whether a step wrote an answer of its own. */
  ghost predicate Answered(frames: seq<Frame>) {
    exists k :: Seen(frames, k) && !Blank(StepText(frames, k))
  }

  /** The transcript when the result has completed every step and written nothing of its own. */
  function Completed(localSlash: bool, frames: seq<Frame>): Assembler {
    FlushSteps(Run(localSlash, frames), Run(localSlash, frames).stepOrder)
  }

  lemma CompletedWords(localSlash: bool, frames: seq<Frame>, k: int)
    ensures Pick(Completed(localSlash, frames).trace, Words(k))
         == if Seen(frames, k) then ThinkingEvent(k, ThinkingText(frames, k)) + AssistantEvent(k, StepText(frames, k))
            else []
  {
    var all := frames + [Result(None)];
    assert all[..|frames|] == frames;
    assert Handle(Run(localSlash, frames), Result(None)) == Completed(localSlash, frames);
    StepWords(localSlash, all, k);
    DoneImpliesSeen(all, k);
    RunTracks(localSlash, all, k);
    assert forall x: string :: x + [] == x;
  }

  lemma AnswerHasStep(a: Assembler)
    requires Wrote(a) && NoAnswer(a.trace) && a.wroteAssistant
    ensures exists e :: e in a.trace && e.Assistant?
  {
    var e := Pick(a.trace, Replies)[0];
    PickFrom(a.trace, Replies, e);
    var p :| 0 <= p < |a.trace| && a.trace[p] == e;
    if e.Answer? {
      PickHas(a.trace, p, Fallback);
    }
  }

  /** What the completed transcript has written: no answer of last resort, and a reply when it says so. */
  lemma CompletedReplies(localSlash: bool, frames: seq<Frame>)
    requires forall f :: f in frames ==> !f.Result?
    ensures NoAnswer(Completed(localSlash, frames).trace) && Wrote(Completed(localSlash, frames))
  {
    RunReplies(localSlash, frames);
    FlushStepsAdds(Run(localSlash, frames), Run(localSlash, frames).stepOrder);
    WordsReplies(Run(localSlash, frames), Completed(localSlash, frames));
  }

  lemma WroteAnswers(localSlash: bool, frames: seq<Frame>)
    requires forall f :: f in frames ==> !f.Result?
    requires Completed(localSlash, frames).wroteAssistant
    ensures Answered(frames)
  {
    var b := Completed(localSlash, frames);
    CompletedReplies(localSlash, frames);
    AnswerHasStep(b);
    var e :| e in b.trace && e.Assistant?;
    var p :| 0 <= p < |b.trace| && b.trace[p] == e;
    PickHas(b.trace, p, Words(e.step));
    CompletedWords(localSlash, frames, e.step);
    TrimSpaceEmpty(StepText(frames, e.step));
  }

  lemma AnswersWrote(localSlash: bool, frames: seq<Frame>, k: int)
    requires forall f :: f in frames ==> !f.Result?
    requires Seen(frames, k) && !Blank(StepText(frames, k))
    ensures Completed(localSlash, frames).wroteAssistant
  {
    var b := Completed(localSlash, frames);
    CompletedReplies(localSlash, frames);
    CompletedWords(localSlash, frames, k);
    TrimSpaceEmpty(StepText(frames, k));
    var e := Assistant(k, TrimSpace(StepText(frames, k)));
    PickFrom(b.trace, Words(k), e);
    var p :| 0 <= p < |b.trace| && b.trace[p] == e;
    PickHas(b.trace, p, Replies);
  }

  lemma CompletedAnswers(localSlash: bool, frames: seq<Frame>)
    requires forall f :: f in frames ==> !f.Result?
    ensures NoAnswer(Completed(localSlash, frames).trace)
    ensures Completed(localSlash, frames).wroteAssistant <==> Answered(frames)
  {
    CompletedReplies(localSlash, frames);
    if Completed(localSlash, frames).wroteAssistant {
      WroteAnswers(localSlash, frames);
    }
    if k :| Seen(frames, k) && !Blank(StepText(frames, k)) {
      AnswersWrote(localSlash, frames, k);
    }
  }

  lemma CommandFallback(a: Assembler, r: Final)
    requires NoAnswer(a.trace) && (a.localSlash || r.command)
    ensures NoAnswer(AddReply(a, r).trace)
  {
    PickOne(a.trace, CommandOutput(TrimSpace(r.response)), Fallback);
  }

  lemma ReplyFallback(a: Assembler, r: Final)
    requires NoAnswer(a.trace)
    ensures Pick(AddReply(a, r).trace, Fallback)
         == if !(a.localSlash || r.command) && !a.wroteAssistant && r.success && TrimSpace(r.response) != ""
            then [Answer(TrimSpace(r.response))] else []
  {
    if a.localSlash || r.command {
      CommandFallback(a, r);
    } else {
      PickOne(a.trace, Answer(TrimSpace(r.response)), Fallback);
    }
  }

  lemma FinalFallback(a: Assembler, r: Final)
    ensures Pick(HandleFinal(a, r).trace, Fallback) == Pick(AddReply(a, r).trace, Fallback)
  {
    PickOne(AddReply(a, r).trace, DeniedNotice, Fallback);
  }

  lemma PickIff(trace: seq<Event>, part: Part, e: Event)
    requires Belongs(e, part)
    ensures e in trace <==> e in Pick(trace, part)
  {
    if e in trace {
      var p :| 0 <= p < |trace| && trace[p] == e;
      PickHas(trace, p, part);
    }
    if e in Pick(trace, part) {
      PickFrom(trace, part, e);
    }
  }

  lemma ResultTrace(localSlash: bool, frames: seq<Frame>, r: Final)
    ensures Run(localSlash, frames + [Result(Some(r))]).trace == HandleFinal(Completed(localSlash, frames), r).trace
    ensures Completed(localSlash, frames).localSlash == localSlash
  {
    assert (frames + [Result(Some(r))])[..|frames|] == frames;
    RunKeepsSlash(localSlash, frames);
    FlushStepsKeepsOrder(Run(localSlash, frames), Run(localSlash, frames).stepOrder);
  }

  /** The result's response is written as the answer exactly when it answers no command, it succeeded with
      something to say, and no step had said anything. */
  lemma AnswerOfLastResort(localSlash: bool, frames: seq<Frame>, r: Final, text: string)
    requires forall f :: f in frames ==> !f.Result?
    ensures Answer(text) in Run(localSlash, frames + [Result(Some(r))]).trace
       <==> (!localSlash && !r.command && r.success && !Answered(frames) && text == TrimSpace(r.response)
             && !Blank(r.response))
  {
    var b := Completed(localSlash, frames);
    CompletedAnswers(localSlash, frames);
    TrimSpaceEmpty(r.response);
    ResultTrace(localSlash, frames, r);
    ReplyFallback(b, r);
    FinalFallback(b, r);
    PickIff(Run(localSlash, frames + [Result(Some(r))]).trace, Fallback, Answer(text));
  }

  // ---- what a command printed, and what was denied ----

  /** A result that leaves the output of a command: the whole turn was a local one, or the result says so. */
  predicate Prints(localSlash: bool, f: Frame) {
    f.Result? && f.final.Some? && (localSlash || f.final.value.command) && !Blank(f.final.value.response)
  }

  predicate Printed(localSlash: bool, frames: seq<Frame>) {
    exists i :: 0 <= i < |frames| && Prints(localSlash, frames[i])
  }

  /** The output of the first result that has any, and a notice for each that was denied something. */
  function ExpectedNotes(localSlash: bool, frames: seq<Frame>): seq<Event> {
    if frames == [] then []
    else
      var init, last := frames[..|frames| - 1], frames[|frames| - 1];
      ExpectedNotes(localSlash, init)
      + (if Prints(localSlash, last) && !Printed(localSlash, init)
         then [CommandOutput(TrimSpace(last.final.value.response))] else [])
      + (if last.Result? && last.final.Some? && last.final.value.denied then [DeniedNotice] else [])
  }

  /** What a frame adds to the notes. */
  ghost predicate NotesMove(a: Assembler, f: Frame, b: Assembler) {
    var prints := Prints(a.localSlash, f);
    && b.wroteCommandOutput == (a.wroteCommandOutput || prints)
    && Pick(b.trace, Notes)
       == Pick(a.trace, Notes)
          + (if prints && !a.wroteCommandOutput then [CommandOutput(TrimSpace(f.final.value.response))] else [])
          + (if f.Result? && f.final.Some? && f.final.value.denied then [DeniedNotice] else [])
  }

  lemma ReplyNotes(a: Assembler, r: Final)
    ensures var prints, b := (a.localSlash || r.command) && !Blank(r.response), AddReply(a, r);
            && b.wroteCommandOutput == (a.wroteCommandOutput || prints)
            && Pick(b.trace, Notes)
               == if prints && !a.wroteCommandOutput
                  then Pick(a.trace, Notes) + [CommandOutput(TrimSpace(r.response))] else Pick(a.trace, Notes)
  {
    TrimSpaceEmpty(r.response);
    PickOne(a.trace, CommandOutput(TrimSpace(r.response)), Notes);
    PickOne(a.trace, Answer(TrimSpace(r.response)), Notes);
  }

  lemma FinalNotes(a: Assembler, r: Final)
    ensures NotesMove(a, Result(Some(r)), HandleFinal(a, r))
  {
    ReplyNotes(a, r);
    PickOne(AddReply(a, r).trace, DeniedNotice, Notes);
  }

  lemma CardsLeaveNotes(a: Assembler, idx: int)
    ensures Pick(AddCall(a, idx).trace, Notes) == Pick(a.trace, Notes)
    ensures Pick(AddResult(a, idx).trace, Notes) == Pick(a.trace, Notes)
  {
    PickOne(a.trace, ToolCall(idx), Notes);
    PickOne(a.trace, ToolResult(idx), Notes);
  }

  lemma StepNotes(a: Assembler, f: Frame)
    requires f.Step?
    ensures NotesMove(a, f, Handle(a, f))
  {
    var n := Note(a, f.idx);
    assert n.trace == a.trace && n.wroteCommandOutput == a.wroteCommandOutput;
    if f.tool {
      var b := FlushPrior(n, n.stepOrder, f.idx);
      FlushStepsAdds(n, Below(n.stepOrder, f.idx));
      WordsLeave(n, b, Notes);
      CardsLeaveNotes(b, f.idx);
      CardsLeaveNotes(AddCall(b, f.idx), f.idx);
    } else {
      DeltasAdds(n, f);
      WordsLeave(n, HandleDeltas(n, f), Notes);
    }
  }

  lemma HandleNotes(a: Assembler, f: Frame)
    ensures NotesMove(a, f, Handle(a, f))
  {
    match f
    case Silent =>
    case Step(_, _, _, _, _) => StepNotes(a, f);
    case Result(final) =>
      var b := FlushSteps(a, a.stepOrder);
      FlushStepsAdds(a, a.stepOrder);
      WordsLeave(a, b, Notes);
      if final.Some? {
        FinalNotes(b, final.value);
      }
  }

  lemma PrintedOneMore(localSlash: bool, frames: seq<Frame>, f: Frame)
    ensures Printed(localSlash, frames + [f]) <==> Printed(localSlash, frames) || Prints(localSlash, f)
  {
    if Prints(localSlash, f) {
      assert (frames + [f])[|frames|] == f;
    } else if i :| 0 <= i < |frames| && Prints(localSlash, frames[i]) {
      assert (frames + [f])[i] == frames[i];
    }
  }

  lemma NotesOneMore(a: Assembler, frames: seq<Frame>, f: Frame)
    requires Pick(a.trace, Notes) == ExpectedNotes(a.localSlash, frames)
    requires a.wroteCommandOutput == Printed(a.localSlash, frames)
    ensures Pick(Handle(a, f).trace, Notes) == ExpectedNotes(a.localSlash, frames + [f])
    ensures Handle(a, f).wroteCommandOutput == Printed(a.localSlash, frames + [f])
  {
    HandleNotes(a, f);
    PrintedOneMore(a.localSlash, frames, f);
    assert (frames + [f])[..|frames|] == frames;
  }

  /** On every sequence of frames the output of a command is written once, from the first result that has any, and
      each denied result leaves its notice. */
  lemma {:induction false} NotesExactly(localSlash: bool, frames: seq<Frame>)
    ensures Pick(Run(localSlash, frames).trace, Notes) == ExpectedNotes(localSlash, frames)
    ensures Run(localSlash, frames).wroteCommandOutput == Printed(localSlash, frames)
  {
    if frames != [] {
      var init, last := frames[..|frames| - 1], frames[|frames| - 1];
      NotesExactly(localSlash, init);
      RunKeepsSlash(localSlash, init);
      NotesOneMore(Run(localSlash, init), init, last);
      assert frames == init + [last];
    }
  }
}
