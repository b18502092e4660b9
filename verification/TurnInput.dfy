/** The stdin of a running turn, shared by the turn, the owner's answers and an interrupt
    (internal/agent/agent_conversation_approvals.go, conversationInput). */
module TurnInput {

  /** What the writer has received, and how often it was closed. */
  datatype Pipe = Pipe(closed: bool, written: seq<string>, closings: nat)

  datatype Operation = Send(message: string) | Close

  function Apply(p: Pipe, op: Operation): Pipe {
    match op
    case Send(message) => if p.closed then p else p.(written := p.written + [message])
    case Close => if p.closed then p else p.(closed := true, closings := p.closings + 1)
  }

  class ConversationInput {
    var closed: bool
    var written: seq<string>
    var closings: nat

    function View(): Pipe
      reads this
    {
      Pipe(closed, written, closings)
    }

    constructor ()
      ensures View() == Pipe(false, [], 0)
    {
      closed, written, closings := false, [], 0;
    }

    /** sent is false when the turn has ended. */
    method SendMessage(message: string) returns (sent: bool)
      modifies this
      ensures View() == Apply(old(View()), Send(message))
      ensures sent <==> !old(closed)
      ensures written == old(written) + if sent then [message] else []
      ensures closed == old(closed) && closings == old(closings)
    {
      if closed {
        return false;
      }
      written := written + [message];
      return true;
    }

    method CloseInput()
      modifies this
      ensures View() == Apply(old(View()), Close)
      ensures closed && written == old(written) && closings == old(closings) + if old(closed) then 0 else 1
    {
      if !closed {
        closed := true;
        closings := closings + 1;
      }
    }
  }

  function ApplyAll(ops: seq<Operation>): Pipe {
    if ops == [] then Pipe(false, [], 0) else Apply(ApplyAll(ops[..|ops| - 1]), ops[|ops| - 1])
  }

  /** The messages sent before the first close. */
  function BeforeClose(ops: seq<Operation>): seq<string> {
    if ops == [] || ops[0].Close? then [] else [ops[0].message] + BeforeClose(ops[1..])
  }

  lemma {:induction false} BeforeCloseAppend(ops: seq<Operation>, op: Operation)
    ensures BeforeClose(ops + [op])
         == if Close in ops || op.Close? then BeforeClose(ops) else BeforeClose(ops) + [op.message]
  {
    if ops != [] {
      assert (ops + [op])[1..] == ops[1..] + [op];
      if ops[0].Send? {
        BeforeCloseAppend(ops[1..], op);
        assert Close in ops <==> Close in ops[1..];
      }
    }
  }

  /** In whatever order its users send and close, what was written is what was sent before the first close,
      in order, and the writer is closed once at most. */
  lemma {:induction false} NothingAfterClose(ops: seq<Operation>)
    ensures ApplyAll(ops) == Pipe(Close in ops, BeforeClose(ops), if Close in ops then 1 else 0)
  {
    if ops != [] {
      var init, last := ops[..|ops| - 1], ops[|ops| - 1];
      NothingAfterClose(init);
      BeforeCloseAppend(init, last);
      assert ops == init + [last];
    }
  }
}
