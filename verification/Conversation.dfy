/** The conversation object: each method is one section of code under the queue lock, updating the
    record in place, and is proved to do what ConversationRecord says of that section. */
module Conversation {
  import opened Basics
  import opened Approvals
  import opened ConversationRecord

  class Conversation {
    const provider: Provider
    const endsAs: Status
    var busy: bool
    var next: seq<Message>
    var input: Option<Worker>
    var approvals: seq<Approval>
    var interrupted: bool
    var codex: Option<Worker>
    var ownMark: bool
    var waitingSince: Option<Time>
    var answeredAt: Option<Time>
    var canceled: bool
    var exited: bool
    var status: Status
    var shuttingDown: bool

    function View(): Record
      reads this
    {
      Record(provider, endsAs, busy, next, input, approvals, interrupted, codex, ownMark,
             waitingSince, answeredAt, canceled, exited, status, shuttingDown)
    }

    constructor (provider: Provider, endsAs: Status)
      ensures View() == Opened(provider, endsAs)
      ensures !busy && next == [] && input.None? && approvals == [] && !interrupted && codex.None?
      ensures waitingSince.None? && answeredAt.None? && !ownMark
      ensures !canceled && !exited && status.Running? && !shuttingDown
      ensures this.provider == provider && this.endsAs == endsAs
    {
      this.provider, this.endsAs := provider, endsAs;
      busy, next, input, approvals, interrupted, codex, ownMark := false, [], None, [], false, None, false;
      waitingSince, answeredAt, canceled, exited, status, shuttingDown := None, None, false, false, Running, false;
    }

    method MarkApprovalWaitLocked(now: Time)
      modifies this
      ensures View() == MarkApprovalWait(old(View()), now)
      ensures var raise, lower := approvals != [] && old(waitingSince).None?, approvals == [] && old(ownMark);
              View() == old(View()).(
                waitingSince := if raise then Some(now) else if lower then None else old(waitingSince),
                ownMark := raise || (old(ownMark) && !lower))
    {
      if |approvals| > 0 && waitingSince.None? {
        waitingSince, ownMark := Some(now), true;
      } else if |approvals| == 0 && ownMark {
        waitingSince, ownMark := None, false;
      }
    }

    method CloseExited(end: Status)
      modifies this
      ensures View() == Close(old(View()), end)
    {
      status := end;
      exited := true;
    }

    // ---- HTTP posts ----

    method PostMessage(m: Message, written: bool) returns (admission: Admission, told: Option<Time>)
      modifies this
      ensures (View(), admission, told) == AdmitMessage(old(View()), m, written)
      ensures admission.Unavailable? <==> old(canceled || shuttingDown)
      ensures admission.Unavailable? ==> View() == old(View()) && told.None?
      ensures !admission.Unavailable? ==>
                && (admission.Started? <==> !old(busy))
                && (admission.Joined? <==> old(busy) && provider == Claude && old(input).Some? && written)
                && told == (if old(waitingSince.Some? && !ownMark) then old(waitingSince) else None)
      ensures next == old(next) + if admission.Queued? || (admission.Started? && provider == Codex) then [m] else []
      ensures View() == old(View()).(busy := old(busy) || admission.Started?, next := next,
                                     waitingSince := if told.Some? then None else old(waitingSince),
                                     answeredAt := if told.Some? then told else old(answeredAt))
    {
      told := None;
      if canceled || shuttingDown {
        return Unavailable, None;
      }
      if waitingSince.Some? && !ownMark {
        told := waitingSince;
        waitingSince, answeredAt := None, told;
      }
      if busy {
        var queued := provider != Claude || input.None? || !written;
        if queued {
          next := next + [m];
        }
        return if queued then Queued else Joined, told;
      }
      busy := true;
      if provider == Codex {
        next := next + [m];
      }
      return Started, told;
    }

    method PostInterrupt() returns (accepted: bool)
      modifies this
      ensures (View(), accepted) == Interrupt(old(View()))
      ensures accepted <==> old(busy)
      ensures View() == if !accepted then old(View())
                        else old(View()).(interrupted := true, next := if provider == Codex then [] else old(next))
    {
      if !busy {
        return false;
      }
      interrupted := true;
      if provider == Codex {
        next := [];
      }
      return true;
    }

    method PostApproval(id: string, decision: string, answers: map<string, string>, written: bool, now: Time)
      returns (verdict: Verdict)
      requires provider == Codex ==> forall i :: 0 <= i < |approvals| ==> WellFormed(approvals[i].call)
      modifies this
      ensures (View(), verdict) == DecideApproval(old(View()), id, decision, answers, written, now)
      ensures verdict.UnknownDecision? <==> decision !in {"allow", "always", "deny", "answer"}
      ensures verdict.NoSuchCall? <==> decision in {"allow", "always", "deny", "answer"}
                                       && forall k :: 0 <= k < |old(approvals)| ==> old(approvals)[k].id != id
      ensures !verdict.Answered? ==> View() == old(View())
      ensures verdict.UnknownDecision? || verdict.NoSuchCall?
              || exists k: nat :: IsFirst(old(approvals), id, k) &&
                             var call := old(approvals)[k].call;
                             var fits := if provider == Codex then CodexAccepts(call, decision, answers)
                                         else AnswersAccepted(call, decision, answers);
                             && (verdict.TurnEnded? <==> old(input).None?)
                             && (verdict.Rejected? <==> old(input).Some? && !fits)
                             && (verdict.WriteFailed? <==> old(input).Some? && fits && !written)
                             && (verdict.Answered? ==>
                                 && verdict.approval == old(approvals)[k]
                                 && approvals == old(approvals)[..k] + old(approvals)[k + 1..])
      ensures View() == old(View()).(approvals := approvals, waitingSince := waitingSince, ownMark := ownMark)
    {
      if decision !in OWNER_DECISIONS {
        return UnknownDecision;
      }
      for i := 0 to |approvals|
        invariant View() == old(View())
        invariant forall k :: 0 <= k < i ==> approvals[k].id != id
      {
        if approvals[i].id != id {
          continue;
        }
        assert IsFirst(approvals, id, i);
        FirstWithIDAt(approvals, id, i);
        verdict := DecideLocked(i, decision, answers, written, now);
        return;
      }
      return NoSuchCall;
    }

    /** Whether Codex's reply can be made, or the answers pass. */
    method Fits(call: ToolCall, decision: string, answers: map<string, string>) returns (fits: bool)
      requires provider == Codex ==> WellFormed(call)
      ensures fits <==> if provider == Codex then CodexAccepts(call, decision, answers)
                        else AnswersAccepted(call, decision, answers)
    {
      if provider == Codex {
        var reply := CodexReply(call, decision, answers);
        return reply.Some?;
      }
      var check := CheckAnswers(call, decision, answers);
      return check.Fine?;
    }

    /** The decision on the call at k. */
    method DecideLocked(k: nat, decision: string, answers: map<string, string>, written: bool, now: Time)
      returns (verdict: Verdict)
      requires k < |approvals| && (provider == Codex ==> WellFormed(approvals[k].call))
      modifies this
      ensures (View(), verdict) == DecideAt(old(View()), k, decision, answers, written, now)
      ensures var call := old(approvals)[k].call;
              var fits := if provider == Codex then CodexAccepts(call, decision, answers)
                          else AnswersAccepted(call, decision, answers);
              verdict == if old(input).None? then TurnEnded
                         else if !fits then Rejected
                         else if !written then WriteFailed
                         else Answered(old(approvals)[k])
      ensures if verdict.Answered? then approvals == old(approvals)[..k] + old(approvals)[k + 1..]
              else View() == old(View())
      ensures View() == old(View()).(approvals := approvals, waitingSince := waitingSince, ownMark := ownMark)
    {
      if input.None? {
        return TurnEnded;
      }
      var fits := Fits(approvals[k].call, decision, answers);
      if !fits || !written {
        return if fits then WriteFailed else Rejected;
      }
      verdict := Answered(approvals[k]);
      RemoveCall(k, now);
    }

    method RemoveCall(k: nat, now: Time)
      requires k < |approvals|
      modifies this
      ensures View() == MarkApprovalWait(old(View()).(approvals := old(approvals)[..k] + old(approvals)[k + 1..]), now)
      ensures approvals == old(approvals)[..k] + old(approvals)[k + 1..]
      ensures View() == old(View()).(approvals := approvals, waitingSince := waitingSince, ownMark := ownMark)
    {
      approvals := approvals[..k] + approvals[k + 1..];
      MarkApprovalWaitLocked(now);
    }

    // ---- stops ----

    method DesktopStop()
      modifies this
      ensures View() == Stop(old(View()), endsAs)
      ensures View() == if old(busy || codex.Some?) then old(View()).(canceled := true)
                        else old(View()).(canceled := true, exited := true, status := endsAs)
    {
      canceled := true;
      if !busy && codex.None? {
        CloseExited(endsAs);
      }
    }

    method StopForShutdown()
      modifies this
      ensures View() == Stop(old(View()), Canceled)
      ensures View() == if old(busy || codex.Some?) then old(View()).(canceled := true)
                        else old(View()).(canceled := true, exited := true, status := Canceled)
    {
      canceled := true;
      if !busy && codex.None? {
        CloseExited(Canceled);
      }
    }

    method CancelRun()
      modifies this
      ensures View() == CancelFromServer(old(View())) == old(View()).(canceled := true)
    {
      canceled := true;
    }

    method Restart()
      modifies this
      ensures View() == BeginShutdown(old(View())) == old(View()).(shuttingDown := old(exited || shuttingDown))
    {
      if exited {
        shuttingDown := true;
      }
    }

    method ReceiveRunWaiting(push: Option<Time>) returns (again: Option<Time>)
      modifies this
      ensures (View(), again) == HandleRunWaiting(old(View()), push)
      ensures again == if old(answeredAt) == push then push else None
      ensures View() == if again.Some? then old(View())
                        else old(View()).(waitingSince := push, answeredAt := None)
    {
      if push.None? {
        waitingSince := None;
        answeredAt := None;
        return None;
      }
      if answeredAt.Some? && answeredAt == push {
        return push;
      }
      answeredAt := None;
      waitingSince := push;
      return None;
    }

    // ---- sections of a turn ----

    method SetInput(w: Worker)
      modifies this
      ensures View() == PublishInput(old(View()), w) == old(View()).(input := Some(w))
    {
      input := Some(w);
    }

    method ToolRequested(a: Approval, now: Time)
      modifies this
      ensures View() == RequestApproval(old(View()), a, now)
      ensures View() == old(View()).(approvals := old(approvals) + [a], waitingSince := waitingSince,
                                     ownMark := ownMark)
    {
      approvals := approvals + [a];
      MarkApprovalWaitLocked(now);
    }

    method EndClaudeTurn(now: Time) returns (prompt: seq<Message>)
      modifies this
      ensures (View(), prompt) == FinishClaude(old(View()), now)
      ensures prompt == if old(canceled) then [] else old(next)
      ensures View() == old(View()).(
                busy := prompt != [], next := [], input := None, approvals := [], interrupted := false,
                exited := old(exited || canceled), status := if old(canceled) then endsAs else old(status),
                waitingSince := waitingSince, ownMark := ownMark)
    {
      ClearTurnLocked(now);
      prompt := StartMissedLocked();
    }

    method DropTurnLocked(now: Time)
      modifies this
      ensures View() == MarkApprovalWait(old(View()).(interrupted := false, input := None, approvals := []), now)
    {
      ghost var r := View();
      interrupted := false;
      input := None;
      if |approvals| > 0 {
        approvals := [];
      }
      assert View() == r.(interrupted := false, input := None, approvals := []);
      MarkApprovalWaitLocked(now);
    }

    method ClearTurnLocked(now: Time)
      modifies this
      ensures View() == ClearTurn(old(View()), now)
    {
      DropTurnLocked(now);
      if canceled {
        CloseExited(endsAs);
      }
      busy := false;
    }

    method StartMissedLocked() returns (prompt: seq<Message>)
      modifies this
      ensures (View(), prompt) == StartMissed(old(View()))
    {
      prompt := [];
      if |next| > 0 && !canceled {
        prompt := next;
        next := [];
        busy := true;
      } else {
        next := [];
      }
    }

    method EnterCodexTurn(w: Worker) returns (entry: Entry)
      modifies this
      ensures (View(), entry) == EnterCodex(old(View()), w)
      ensures entry.Supervise? <==> !old(canceled) && old(codex).None?
      ensures View() == if old(canceled && codex.None?) then
                          old(View()).(busy := false, exited := true, status := endsAs)
                        else if old(canceled) then old(View()).(busy := false)
                        else old(View()).(codex := if entry.Supervise? then Some(w) else old(codex))
    {
      if canceled {
        busy := false;
        if codex.None? {
          CloseExited(endsAs);
        }
        return Leave;
      }
      if codex.Some? {
        return Leave;
      }
      codex := Some(w);
      return Supervise;
    }

    method Tick() returns (messages: seq<Message>)
      modifies this
      ensures (View(), messages) == TickCodex(old(View()))
      ensures messages == if old(interrupted) then [] else old(next)
      ensures View() == old(View()).(next := if old(interrupted) then old(next) else [])
    {
      messages := [];
      if |next| > 0 && !interrupted {
        messages := next;
        next := [];
      }
    }

    method InterruptedWhileIdle()
      modifies this
      ensures View() == ClearIdleInterrupt(old(View()))
      ensures View() == old(View()).(interrupted := false, busy := old(next) != [])
    {
      interrupted := false;
      busy := |next| > 0;
    }

    method SteerFailed(batch: seq<Message>, refused: bool, turnEnded: bool)
      modifies this
      ensures View() == AfterSteer(old(View()), batch, refused && turnEnded)
      ensures View() == if refused && turnEnded then old(View()).(next := batch + old(next), busy := true)
                        else old(View())
    {
      if refused && turnEnded {
        next := batch + next;
        busy := true;
      }
    }

    method StartingCodexTurn()
      modifies this
      ensures View() == BeginCodexTurn(old(View())) == old(View()).(busy := true)
    {
      busy := true;
    }

    method CodexTurnRefused()
      modifies this
      ensures View() == RefuseCodexTurn(old(View())) == old(View()).(busy := false)
    {
      busy := false;
    }

    method EndCodexConversation(w: Worker, now: Time)
      modifies this
      ensures View() == EndCodex(old(View()), w, now)
      ensures View() == if old(codex) != Some(w) then old(View()) else old(View()).(
                busy := false, next := [], input := None, approvals := [], interrupted := false, codex := None,
                exited := old(exited || canceled), status := if old(canceled) then endsAs else old(status),
                waitingSince := waitingSince, ownMark := ownMark)
    {
      if codex != Some(w) {
        return;
      }
      ghost var r := View();
      codex, input := None, None;
      busy, interrupted := false, false;
      approvals := [];
      assert View() == r.(codex := None, input := None, busy := false, interrupted := false, approvals := []);
      MarkApprovalWaitLocked(now);
      ghost var e := View();
      if |next| > 0 {
        next := [];
      }
      assert View() == e.(next := []);
      if canceled {
        CloseExited(endsAs);
      }
    }

    method CodexTurnStarted(w: Worker)
      modifies this
      ensures View() == if old(Listening(View(), w)) then TurnStarted(old(View())) else old(View())
      ensures View() == if old(codex == Some(w) && !canceled) then old(View()).(busy := true) else old(View())
    {
      if codex != Some(w) || canceled {
        return;
      }
      busy := true;
    }

    method CodexTurnCompleted(w: Worker, now: Time)
      modifies this
      ensures View() == if old(Listening(View(), w)) then TurnCompleted(old(View()), now) else old(View())
      ensures View() == if old(codex != Some(w) || canceled) then old(View()) else old(View()).(
                busy := old(next) != [], approvals := [], interrupted := false, waitingSince := waitingSince,
                ownMark := ownMark)
    {
      if codex != Some(w) || canceled {
        return;
      }
      approvals := [];
      MarkApprovalWaitLocked(now);
      busy := |next| > 0;
      interrupted := false;
    }

    method CodexRequestResolved(w: Worker, requestID: string, now: Time)
      modifies this
      ensures View() == if old(Listening(View(), w)) then RequestResolved(old(View()), requestID, now) else old(View())
      ensures old(codex != Some(w) || canceled) ==> View() == old(View())
      ensures old(codex == Some(w) && !canceled) ==>
                if exists i: nat :: IsFirstRequest(old(approvals), requestID, i)
                then exists i: nat :: IsFirstRequest(old(approvals), requestID, i)
                                 && approvals == old(approvals)[..i] + old(approvals)[i + 1..]
                else approvals == old(approvals)
      ensures View() == old(View()).(approvals := approvals, waitingSince := waitingSince, ownMark := ownMark)
    {
      if codex != Some(w) || canceled {
        return;
      }
      RemoveRequest(requestID);
      MarkApprovalWaitLocked(now);
    }

    /** The first call with the wire id goes, if there is one. */
    method RemoveRequest(requestID: string)
      modifies this`approvals
      ensures approvals == WithoutRequest(old(approvals), requestID)
      ensures if exists i: nat :: IsFirstRequest(old(approvals), requestID, i)
              then exists i: nat :: IsFirstRequest(old(approvals), requestID, i)
                                    && approvals == old(approvals)[..i] + old(approvals)[i + 1..]
              else approvals == old(approvals)
    {
      for i := 0 to |approvals|
        invariant approvals == old(approvals)
        invariant forall k :: 0 <= k < i ==> approvals[k].requestID != requestID
      {
        if approvals[i].requestID == requestID {
          WithoutRequestAt(approvals, requestID, i);
          assert IsFirstRequest(approvals, requestID, i);
          approvals := approvals[..i] + approvals[i + 1..];
          return;
        }
      }
      WithoutNoRequest(approvals, requestID);
    }

    method BeginAntigravityTurn(w: Worker, slash: bool, piped: bool) returns (begun: bool)
      modifies this
      ensures (View(), begun) == BeginAntigravity(old(View()), w, slash, piped)
      ensures begun <==> slash || piped
      ensures View() == if !begun then old(View()).(busy := false)
                        else old(View()).(input := if slash then old(input) else Some(w), interrupted := false)
    {
      if !slash {
        if !piped {
          busy := false;
          return false;
        }
        input := Some(w);
      }
      interrupted := false;
      return true;
    }

    method AntigravityDidNotStart()
      modifies this
      ensures View() == AbandonAntigravity(old(View())) == old(View()).(input := None, busy := false)
    {
      input := None;
      busy := false;
    }

    method EndAntigravityTurn(now: Time) returns (following: Option<Message>)
      modifies this
      ensures (View(), following) == FinishAntigravity(old(View()), now)
      ensures following == if old(next == [] || interrupted || canceled || shuttingDown) then None
                           else Some(old(next)[0])
      ensures View() == old(View()).(
                busy := old(busy) && following.Some?, next := if following.Some? then old(next)[1..] else [],
                input := None, approvals := [], interrupted := false,
                exited := old(exited || canceled || shuttingDown),
                status := if old(shuttingDown) then Canceled else if old(canceled) then endsAs else old(status),
                waitingSince := waitingSince, ownMark := ownMark)
    {
      LeaveTurnLocked(now);
      following := TakeFollowingLocked();
      if canceled || shuttingDown {
        CloseExited(if canceled && !shuttingDown then endsAs else Canceled);
      }
    }

    method LeaveTurnLocked(now: Time)
      modifies this
      ensures View() == MarkApprovalWait(old(View()).(input := None, approvals := []), now)
      ensures View() == old(View()).(input := None, approvals := [], waitingSince := waitingSince, ownMark := ownMark)
    {
      ghost var r := View();
      input := None;
      approvals := [];
      assert View() == r.(input := None, approvals := []);
      MarkApprovalWaitLocked(now);
    }

    method TakeFollowingLocked() returns (following: Option<Message>)
      modifies this
      ensures (View(), following) == TakeFollowing(old(View()))
    {
      var wasInterrupted := interrupted;
      interrupted := false;
      following := None;
      if |next| > 0 && !wasInterrupted && !canceled && !shuttingDown {
        following := Some(next[0]);
        next := next[1..];
      } else {
        next := [];
        busy := false;
      }
    }
  }

  lemma {:induction false} WithoutRequestAt(approvals: seq<Approval>, requestID: string, i: nat)
    requires i < |approvals| && approvals[i].requestID == requestID
    requires forall k :: 0 <= k < i ==> approvals[k].requestID != requestID
    ensures WithoutRequest(approvals, requestID) == approvals[..i] + approvals[i + 1..]
  {
    if i > 0 {
      WithoutRequestAt(approvals[1..], requestID, i - 1);
    }
  }

  lemma {:induction false} WithoutNoRequest(approvals: seq<Approval>, requestID: string)
    requires forall k :: 0 <= k < |approvals| ==> approvals[k].requestID != requestID
    ensures WithoutRequest(approvals, requestID) == approvals
  {
    if approvals != [] {
      WithoutNoRequest(approvals[1..], requestID);
    }
  }
}
