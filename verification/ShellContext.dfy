/** What the commands typed with "!" add to the next message
    (internal/agent/agent_conversation_shell.go, runConversationShell and withShellContext). */
module ShellContext {
  import opened Basics

  const LIMIT := 32 * 1024

  function Block(line: string, text: string): string {
    "<bash-input>" + line + "</bash-input>\n<bash-stdout>" + text + "</bash-stdout>"
  }

  function Last(s: string): string {
    if |s| > LIMIT then s[|s| - LIMIT..] else s
  }

  function Added(context: string, block: string): string {
    Last(TrimSpace(context + "\n" + block))
  }

  class Conversation {
    var shellContext: string

    constructor ()
      ensures shellContext == ""
    {
      shellContext := "";
    }

    /** The end of a command, under the lock. */
    method CommandEnded(line: string, text: string)
      modifies this
      ensures shellContext == Added(old(shellContext), Block(line, text))
    {
      var context := TrimSpace(shellContext + "\n" + Block(line, text));
      if |context| > LIMIT {
        context := context[|context| - LIMIT..];
      }
      shellContext := context;
    }

    method WithShellContext(message: string) returns (r: string)
      modifies this
      ensures shellContext == ""
      ensures old(shellContext) == "" ==> r == message
      ensures old(shellContext) != "" ==> r == old(shellContext) + "\n\n" + message
    {
      if shellContext == "" {
        return message;
      }
      r := shellContext + "\n\n" + message;
      shellContext := "";
    }
  }

  /** What happens to a conversation: a command ends and leaves its block, or a message takes what the
      commands left. */
  datatype Event = Command(block: string) | Message(text: string)

  function ContextAfter(events: seq<Event>): string {
    if events == [] then ""
    else
      var last := events[|events| - 1];
      if last.Message? then "" else Added(ContextAfter(events[..|events| - 1]), last.block)
  }

  function Joined(before: string, block: string): string {
    if before == "" then block else before + "\n" + block
  }

  /** All that the commands since the last message printed, in order. */
  function SinceMessage(events: seq<Event>): string {
    if events == [] || events[|events| - 1].Message? then ""
    else
      Joined(SinceMessage(events[..|events| - 1]), events[|events| - 1].block)
  }

  predicate IsSuffix(s: string, t: string) {
    |s| <= |t| && s == t[|t| - |s|..]
  }

  lemma SuffixOfSuffix(a: string, b: string, c: string)
    requires IsSuffix(a, b) && IsSuffix(b, c)
    ensures IsSuffix(a, c)
  {
  }

  lemma SuffixAppend(a: string, b: string, more: string)
    requires IsSuffix(a, b)
    ensures IsSuffix(a + more, b + more)
  {
  }

  lemma BlockEnds(line: string, text: string)
    ensures SolidEnds(Block(line, text))
  {
    var b := Block(line, text);
    assert b[0] == '<';
    assert b[|b| - 1] == "</bash-stdout>"[|"</bash-stdout>"| - 1];
  }

  lemma SuffixOfSum(a: string, b: string)
    ensures IsSuffix(b, a + b)
  {
    assert (a + b)[|a|..] == b;
  }

  lemma {:induction false} TrimLeftReaches(s: string, k: nat)
    requires k < |s| && !IsSpace(s[k])
    ensures |TrimLeft(s)| >= |s| - k
  {
    if IsSpace(s[0]) {
      TrimLeftReaches(s[1..], k - 1);
    }
  }

  lemma TrimLeftKeeps(a: string, b: string)
    requires b != "" && !IsSpace(b[0])
    ensures IsSuffix(b, TrimLeft(a + b)) && IsSuffix(TrimLeft(a + b), a + b)
    ensures a == "" || !IsSpace(a[0]) ==> TrimLeft(a + b) == a + b
  {
    var s := a + b;
    var t := TrimLeft(s);
    TrimLeftReaches(s, |a|);
    TrimLeftShape(s);
    SuffixOfSum(a, b);
    assert t[|t| - |b|..] == s[|a|..];
    assert s[0] == if a == "" then b[0] else a[0];
  }

  /** Trimming takes nothing from a block that ends the text. */
  lemma TrimKeepsBlock(a: string, block: string)
    requires SolidEnds(block)
    ensures IsSuffix(block, TrimSpace(a + block)) && IsSuffix(TrimSpace(a + block), a + block)
    ensures a == "" || !IsSpace(a[0]) ==> TrimSpace(a + block) == a + block
  {
    TrimLeftKeeps(a, block);
    var t := TrimLeft(a + block);
    assert t[|t| - 1] == block[|block| - 1];
    assert TrimRight(t) == t;
  }

  lemma LastIsSuffix(s: string)
    ensures IsSuffix(Last(s), s) && |Last(s)| <= LIMIT && (|s| <= LIMIT ==> Last(s) == s)
  {
  }

  lemma OneNewline(block: string)
    requires SolidEnds(block)
    ensures TrimSpace("" + "\n" + block) == block
  {
    var t := "" + "\n" + block;
    assert t[1..] == block && IsSpace(t[0]);
    assert TrimLeft(t) == TrimLeft(block) == block;
    assert TrimRight(block) == block;
  }

  predicate SolidEnds(s: string) {
    s != "" && !IsSpace(s[0]) && !IsSpace(s[|s| - 1])
  }

  /** The window on all that was printed: its end, within the limit, and all of it when it fits. */
  predicate WindowOn(context: string, all: string) {
    && |context| <= 32768 && IsSuffix(context, all)
    && (|all| <= 32768 ==> context == all)
    && (all != "" ==> SolidEnds(all))
  }

  lemma Cut(t: string, all: string, block: string)
    requires IsSuffix(t, all) && IsSuffix(block, t)
    ensures |Last(t)| <= LIMIT && IsSuffix(Last(t), all) && (|block| <= LIMIT ==> IsSuffix(block, Last(t)))
    ensures |all| <= LIMIT ==> Last(t) == t
  {
    LastIsSuffix(t);
    SuffixOfSuffix(Last(t), t, all);
  }

  /** The text that is trimmed and cut. */
  lemma Grown(context: string, before: string, block: string)
    requires WindowOn(context, before) && before != "" && SolidEnds(block)
    ensures IsSuffix(TrimSpace(context + "\n" + block), before + "\n" + block)
    ensures IsSuffix(block, TrimSpace(context + "\n" + block))
    ensures context == before ==> TrimSpace(context + "\n" + block) == before + "\n" + block
  {
    var head := context + "\n";
    TrimKeepsBlock(head, block);
    SuffixAppend(context, before, "\n");
    SuffixAppend(head, before + "\n", block);
    SuffixOfSuffix(TrimSpace(head + block), head + block, before + "\n" + block);
    assert context == before ==> head[0] == before[0];
  }

  lemma WindowGrows(context: string, before: string, block: string)
    requires WindowOn(context, before) && before != "" && SolidEnds(block)
    ensures WindowOn(Added(context, block), before + "\n" + block)
    ensures |block| <= LIMIT ==> IsSuffix(block, Added(context, block))
  {
    var t, all := TrimSpace(context + "\n" + block), before + "\n" + block;
    Grown(context, before, block);
    Cut(t, all, block);
    assert |all| == |before| + 1 + |block|;
    assert all[0] == before[0] && all[|all| - 1] == block[|block| - 1];
  }

  lemma WindowStarts(block: string)
    requires SolidEnds(block)
    ensures WindowOn(Added("", block), block)
    ensures |block| <= LIMIT ==> IsSuffix(block, Added("", block))
  {
    OneNewline(block);
    LastIsSuffix(block);
  }

  /** Every command leaves such a block. */
  ghost predicate Blocks(events: seq<Event>) {
    forall i :: 0 <= i < |events| && events[i].Command? ==> SolidEnds(events[i].block)
  }

  lemma AddedCommand(events: seq<Event>, block: string)
    requires WindowOn(ContextAfter(events), SinceMessage(events)) && SolidEnds(block)
    ensures WindowOn(Added(ContextAfter(events), block), Joined(SinceMessage(events), block))
    ensures |block| <= LIMIT ==> IsSuffix(block, Added(ContextAfter(events), block))
  {
    if SinceMessage(events) == "" {
      WindowStarts(block);
    } else {
      WindowGrows(ContextAfter(events), SinceMessage(events), block);
    }
  }

  /** What the next message carries is always the end of what the commands since the last one printed, within
      the limit; all of it when it fits. */
  lemma {:induction false} TheOldestGo(events: seq<Event>)
    requires Blocks(events)
    ensures WindowOn(ContextAfter(events), SinceMessage(events))
  {
    if events != [] && events[|events| - 1].Command? {
      TheOldestGo(events[..|events| - 1]);
      AddedCommand(events[..|events| - 1], events[|events| - 1].block);
    }
  }

  /** The command that ended last is carried whole when it fits alone. */
  lemma TheNewestStays(events: seq<Event>, line: string, text: string)
    requires Blocks(events) && |Block(line, text)| <= LIMIT
    ensures IsSuffix(Block(line, text), ContextAfter(events + [Command(Block(line, text))]))
  {
    assert (events + [Command(Block(line, text))])[..|events|] == events;
    BlockEnds(line, text);
    TheOldestGo(events);
    AddedCommand(events, Block(line, text));
  }
}
