/** The Antigravity stream: frames carry deltas of steps, the transcript gets each step's thinking and
    text once, whole and in place (internal/agent/agent_agy_conversation.go, agyStreamState). */
module AgyStream {
  import opened Basics

  /** A decoded frame. ended is a state of DONE or ERROR; a step of the user's input, and every frame
      that is neither a step nor a result, writes nothing. */
  datatype Frame =
    | Silent
    | Step(idx: int, tool: bool, ended: bool, thinking: string, text: string)
    | Result(final: Option<Final>)

  /** What a result frame may carry: whether it answers a command, its success, and its response. */
  datatype Final = Final(command: bool, success: bool, response: string, denied: bool)

  /** An event of the transcript. The step of a thinking or assistant event is not part of what is
      shown; it says where the event came from. */
  datatype Event =
    | Thinking(step: int, text: string)
    | Assistant(step: int, text: string)
    | ToolCall(step: int)
    | ToolResult(step: int)
    | CommandOutput(text: string)
    | Answer(text: string)
    | DeniedNotice

  /** The assembler's fields as one value, with the transcript it has written. */
  datatype Assembler = Assembler(
    localSlash: bool,
    thinkingByStep: map<int, string>, textByStep: map<int, string>,
    thinkingFlushed: set<int>, textFlushed: set<int>,
    toolEmitted: set<int>, toolResultEmitted: set<int>,
    stepOrder: seq<int>, stepSeen: set<int>,
    wroteAssistant: bool, wroteCommandOutput: bool,
    trace: seq<Event>)

  function New(localSlash: bool): Assembler {
    Assembler(localSlash, map[], map[], {}, {}, {}, {}, [], {}, false, false, [])
  }

  function Get(m: map<int, string>, k: int): string {
    if k in m then m[k] else ""
  }

  // ---- sort.Ints ----

  predicate Sorted(s: seq<int>) {
    forall i, j :: 0 <= i < j < |s| ==> s[i] <= s[j]
  }

  function Insert(s: seq<int>, x: int): (t: seq<int>)
    ensures |t| == |s| + 1
  {
    if s == [] || s[|s| - 1] <= x then s + [x] else Insert(s[..|s| - 1], x) + [s[|s| - 1]]
  }

  function SortInts(s: seq<int>): (t: seq<int>) {
    if s == [] then [] else Insert(SortInts(s[..|s| - 1]), s[|s| - 1])
  }

  lemma {:induction false} InsertMembers(s: seq<int>, x: int)
    ensures multiset(Insert(s, x)) == multiset(s) + multiset{x}
  {
    if s != [] && s[|s| - 1] > x {
      InsertMembers(s[..|s| - 1], x);
      assert s == s[..|s| - 1] + [s[|s| - 1]];
    }
  }

  lemma {:induction false} InsertSorted(s: seq<int>, x: int)
    requires Sorted(s)
    ensures Sorted(Insert(s, x))
    ensures var t := Insert(s, x); t[|s|] == x || (s != [] && t[|s|] == s[|s| - 1])
    ensures s != [] && s[|s| - 1] > x ==> Insert(s, x)[|s|] == s[|s| - 1]
  {
    if s != [] && s[|s| - 1] > x {
      InsertSorted(s[..|s| - 1], x);
    }
  }

  /** sort.Ints orders the numbers it is given and keeps them all. */
  lemma {:induction false} SortIntsSorts(s: seq<int>)
    ensures multiset(SortInts(s)) == multiset(s) && Sorted(SortInts(s))
  {
    if s != [] {
      var init, last := s[..|s| - 1], s[|s| - 1];
      SortIntsSorts(init);
      InsertMembers(SortInts(init), last);
      InsertSorted(SortInts(init), last);
      assert s == init + [last];
    }
  }

  // ---- the sections of handleLine, on values ----

  function Note(a: Assembler, idx: int): Assembler {
    if idx in a.stepSeen then a
    else a.(stepSeen := a.stepSeen + {idx}, stepOrder := SortInts(a.stepOrder + [idx]))
  }

  function FlushThinking(a: Assembler, idx: int): Assembler {
    if idx in a.thinkingFlushed then a
    else
      var text := TrimSpace(Get(a.thinkingByStep, idx));
      a.(trace := if text != "" then a.trace + [Thinking(idx, text)] else a.trace,
         thinkingFlushed := a.thinkingFlushed + {idx})
  }

  function FlushAssistant(a: Assembler, idx: int): Assembler {
    if idx in a.textFlushed then a
    else
      var text := TrimSpace(Get(a.textByStep, idx));
      a.(trace := if text != "" then a.trace + [Assistant(idx, text)] else a.trace,
         wroteAssistant := a.wroteAssistant || text != "",
         textFlushed := a.textFlushed + {idx})
  }

  function FlushText(a: Assembler, idx: int): Assembler {
    FlushAssistant(FlushThinking(a, idx), idx)
  }

  function FlushSteps(a: Assembler, steps: seq<int>): Assembler {
    if steps == [] then a else FlushText(FlushSteps(a, steps[..|steps| - 1]), steps[|steps| - 1])
  }

  function Below(steps: seq<int>, idx: int): seq<int> {
    if steps == [] then []
    else
      var last := steps[|steps| - 1];
      Below(steps[..|steps| - 1], idx) + (if last < idx then [last] else [])
  }

  lemma FlushStepsAppend(a: Assembler, steps: seq<int>, idx: int)
    ensures FlushSteps(a, steps + [idx]) == FlushText(FlushSteps(a, steps), idx)
  {
    assert (steps + [idx])[..|steps|] == steps;
  }

  function FlushPrior(a: Assembler, steps: seq<int>, idx: int): Assembler {
    FlushSteps(a, Below(steps, idx))
  }

  lemma FlushPriorAppend(a: Assembler, steps: seq<int>, i: nat, idx: int)
    requires i < |steps|
    ensures FlushPrior(a, steps[..i + 1], idx)
         == (if steps[i] < idx then FlushText(FlushPrior(a, steps[..i], idx), steps[i])
             else FlushPrior(a, steps[..i], idx))
  {
    BelowStep(steps, i, idx);
    if steps[i] < idx {
      FlushStepsAppend(a, Below(steps[..i], idx), steps[i]);
    }
  }

  lemma BelowStep(steps: seq<int>, i: nat, idx: int)
    requires i < |steps|
    ensures Below(steps[..i + 1], idx)
         == if steps[i] < idx then Below(steps[..i], idx) + [steps[i]] else Below(steps[..i], idx)
  {
    assert steps[..i + 1][..i] == steps[..i];
  }

  function AddCall(a: Assembler, idx: int): Assembler {
    if idx in a.toolEmitted then a else a.(toolEmitted := a.toolEmitted + {idx}, trace := a.trace + [ToolCall(idx)])
  }

  function AddResult(a: Assembler, idx: int): Assembler {
    if idx in a.toolResultEmitted then a
    else a.(toolResultEmitted := a.toolResultEmitted + {idx}, trace := a.trace + [ToolResult(idx)])
  }

  function HandleTool(a: Assembler, idx: int, ended: bool): Assembler {
    var b := AddCall(FlushPrior(a, a.stepOrder, idx), idx);
    if ended then AddResult(b, idx) else b
  }

  function AddThinking(a: Assembler, idx: int, delta: string): Assembler {
    if delta == "" then a else a.(thinkingByStep := a.thinkingByStep[idx := Get(a.thinkingByStep, idx) + delta])
  }

  function AddText(a: Assembler, idx: int, delta: string): Assembler {
    if delta == "" then a
    else
      var b := FlushThinking(a, idx);
      b.(textByStep := b.textByStep[idx := Get(b.textByStep, idx) + delta])
  }

  function HandleDeltas(a: Assembler, f: Frame): Assembler
    requires f.Step?
  {
    var b := AddText(AddThinking(a, f.idx, f.thinking), f.idx, f.text);
    if f.ended then FlushText(b, f.idx) else b
  }

  function AddReply(a: Assembler, r: Final): Assembler {
    var text := TrimSpace(r.response);
    if a.localSlash || r.command then
      if text != "" && !a.wroteCommandOutput
      then a.(trace := a.trace + [CommandOutput(text)], wroteCommandOutput := true)
      else a
    else if !a.wroteAssistant && r.success && text != ""
    then a.(trace := a.trace + [Answer(text)], wroteAssistant := true)
    else a
  }

  function HandleFinal(a: Assembler, r: Final): Assembler {
    var b := AddReply(a, r);
    if r.denied then b.(trace := b.trace + [DeniedNotice]) else b
  }

  function Handle(a: Assembler, f: Frame): Assembler {
    match f
    case Silent => a
    case Step(idx, tool, ended, _, _) =>
      var n := Note(a, idx);
      if tool then HandleTool(n, idx, ended) else HandleDeltas(n, f)
    case Result(final) =>
      var b := FlushSteps(a, a.stepOrder);
      if final.Some? then HandleFinal(b, final.value) else b
  }

  function HandleAll(a: Assembler, frames: seq<Frame>): Assembler {
    if frames == [] then a else Handle(HandleAll(a, frames[..|frames| - 1]), frames[|frames| - 1])
  }

  // ---- the object ----

  class AgyStreamState {
    const localSlash: bool
    var thinkingByStep: map<int, string>
    var textByStep: map<int, string>
    var thinkingFlushed: set<int>
    var textFlushed: set<int>
    var toolEmitted: set<int>
    var toolResultEmitted: set<int>
    var stepOrder: seq<int>
    var stepSeen: set<int>
    var wroteAssistant: bool
    var wroteCommandOutput: bool
    var trace: seq<Event>

    function View(): Assembler
      reads this
    {
      Assembler(localSlash, thinkingByStep, textByStep, thinkingFlushed, textFlushed, toolEmitted, toolResultEmitted,
                stepOrder, stepSeen, wroteAssistant, wroteCommandOutput, trace)
    }

    constructor (localSlash: bool)
      ensures View() == New(localSlash)
    {
      this.localSlash := localSlash;
      thinkingByStep, textByStep, thinkingFlushed, textFlushed := map[], map[], {}, {};
      toolEmitted, toolResultEmitted, stepOrder, stepSeen := {}, {}, [], {};
      wroteAssistant, wroteCommandOutput, trace := false, false, [];
    }

    method NoteStep(idx: int)
      modifies this
      ensures View() == Note(old(View()), idx)
    {
      if idx !in stepSeen {
        stepSeen := stepSeen + {idx};
        stepOrder := SortInts(stepOrder + [idx]);
      }
    }

    method FlushThinkingOf(idx: int)
      modifies this
      ensures View() == FlushThinking(old(View()), idx)
    {
      if idx in thinkingFlushed {
        return;
      }
      var text := TrimSpace(Get(thinkingByStep, idx));
      if text != "" {
        trace := trace + [Thinking(idx, text)];
      }
      thinkingFlushed := thinkingFlushed + {idx};
    }

    method FlushTextOf(idx: int)
      modifies this
      ensures View() == FlushText(old(View()), idx)
    {
      FlushThinkingOf(idx);
      ghost var a := View();
      assert a == FlushThinking(old(View()), idx);
      if idx in textFlushed {
        return;
      }
      var text := TrimSpace(Get(textByStep, idx));
      if text != "" {
        trace := trace + [Assistant(idx, text)];
        wroteAssistant := true;
      }
      textFlushed := textFlushed + {idx};
    }

    method FlushPriorSteps(beforeIdx: int)
      modifies this
      ensures View() == FlushPrior(old(View()), old(stepOrder), beforeIdx)
    {
      ghost var was, order := View(), stepOrder;
      for i := 0 to |stepOrder|
        invariant stepOrder == order
        invariant View() == FlushPrior(was, order[..i], beforeIdx)
      {
        FlushPriorAppend(was, order, i, beforeIdx);
        if stepOrder[i] < beforeIdx {
          FlushTextOf(stepOrder[i]);
        }
      }
      assert order[..|order|] == order;
    }

    method FlushAllSteps()
      modifies this
      ensures View() == FlushSteps(old(View()), old(stepOrder))
    {
      ghost var was, order := View(), stepOrder;
      for i := 0 to |stepOrder|
        invariant stepOrder == order
        invariant View() == FlushSteps(was, order[..i])
      {
        FlushStepsAppend(was, order[..i], order[i]);
        assert order[..i + 1] == order[..i] + [order[i]];
        FlushTextOf(stepOrder[i]);
      }
      assert order[..|order|] == order;
    }

    method HandleToolStep(idx: int, ended: bool)
      modifies this
      ensures View() == HandleTool(old(View()), idx, ended)
    {
      FlushPriorSteps(idx);
      if idx !in toolEmitted {
        toolEmitted := toolEmitted + {idx};
        trace := trace + [ToolCall(idx)];
      }
      if ended {
        if idx !in toolResultEmitted {
          toolResultEmitted := toolResultEmitted + {idx};
          trace := trace + [ToolResult(idx)];
        }
      }
    }

    method HandleTextStep(f: Frame)
      requires f.Step?
      modifies this
      ensures View() == HandleDeltas(old(View()), f)
    {
      if f.thinking != "" {
        thinkingByStep := thinkingByStep[f.idx := Get(thinkingByStep, f.idx) + f.thinking];
      }
      if f.text != "" {
        FlushThinkingOf(f.idx);
        textByStep := textByStep[f.idx := Get(textByStep, f.idx) + f.text];
      }
      if f.ended {
        FlushTextOf(f.idx);
      }
    }

    method HandleResult(r: Final)
      modifies this
      ensures View() == HandleFinal(old(View()), r)
    {
      var text := TrimSpace(r.response);
      if localSlash || r.command {
        if text != "" && !wroteCommandOutput {
          trace := trace + [CommandOutput(text)];
          wroteCommandOutput := true;
        }
      } else if !wroteAssistant && r.success {
        if text != "" {
          trace := trace + [Answer(text)];
          wroteAssistant := true;
        }
      }
      if r.denied {
        trace := trace + [DeniedNotice];
      }
    }

    /** handleLine on a decoded frame; done says the frame ends the turn. */
    method HandleFrame(f: Frame) returns (done: bool)
      modifies this
      ensures View() == Handle(old(View()), f)
      ensures done <==> f.Result?
    {
      match f
      case Silent =>
        return false;
      case Step(idx, tool, ended, _, _) =>
        NoteStep(idx);
        if tool {
          HandleToolStep(idx, ended);
        } else {
          HandleTextStep(f);
        }
        return false;
      case Result(final) =>
        FlushAllSteps();
        if final.Some? {
          HandleResult(final.value);
        }
        return true;
    }
  }
}
