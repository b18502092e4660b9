/** The waiting mark of a run: who raised it, what lowers it, and the answers the server is told about. */
module Waits {
  import opened Basics
  import opened ConversationRecord

  // ---- every section that touches a conversation's record ----

  datatype Section =
    | Post(m: Message, written: bool)
    | PostInterrupt
    | Decide(id: string, decision: string, answers: map<string, string>, written: bool, now: Time)
    | StopAs(status: Status)
    | Cancel
    | Shutdown
    | Push(push: Option<Time>)
    | SetInput(w: Worker)
    | Ask(approval: Approval, now: Time)
    | EndClaude(now: Time)
    | Enter(w: Worker)
    | TickQueue
    | ClearInterrupt
    | Steered(batch: seq<Message>, ended: bool)
    | BeginCodex
    | RefuseCodex
    | EndSupervisor(w: Worker, now: Time)
    | Started
    | Completed(now: Time)
    | Resolved(requestID: string, now: Time)
    | BeginAgy(w: Worker, slash: bool, piped: bool)
    | AbandonAgy
    | EndAgy(now: Time)

  ghost function Apply(r: Record, s: Section): Record {
    match s
    case Post(m, written) => AdmitMessage(r, m, written).0
    case PostInterrupt => Interrupt(r).0
    case Decide(id, decision, answers, written, now) => DecideApproval(r, id, decision, answers, written, now).0
    case StopAs(status) => Stop(r, status)
    case Cancel => CancelFromServer(r)
    case Shutdown => BeginShutdown(r)
    case Push(push) => HandleRunWaiting(r, push).0
    case SetInput(w) => PublishInput(r, w)
    case Ask(a, now) => RequestApproval(r, a, now)
    case EndClaude(now) => FinishClaude(r, now).0
    case Enter(w) => EnterCodex(r, w).0
    case TickQueue => TickCodex(r).0
    case ClearInterrupt => ClearIdleInterrupt(r)
    case Steered(batch, ended) => AfterSteer(r, batch, ended)
    case BeginCodex => BeginCodexTurn(r)
    case RefuseCodex => RefuseCodexTurn(r)
    case EndSupervisor(w, now) => EndCodex(r, w, now)
    case Started => TurnStarted(r)
    case Completed(now) => TurnCompleted(r, now)
    case Resolved(requestID, now) => RequestResolved(r, requestID, now)
    case BeginAgy(w, slash, piped) => BeginAntigravity(r, w, slash, piped).0
    case AbandonAgy => AbandonAntigravity(r)
    case EndAgy(now) => FinishAntigravity(r, now).0
  }

  ghost function ApplyAll(r: Record, sections: seq<Section>): Record {
    if sections == [] then r else Apply(ApplyAll(r, sections[..|sections| - 1]), sections[|sections| - 1])
  }

  /** The four fields the mark depends on. */
  datatype Mark = Mark(pending: seq<Approval>, own: bool, since: Option<Time>, answered: Option<Time>)

  function MarkOf(r: Record): Mark {
    Mark(r.approvals, r.ownMark, r.waitingSince, r.answeredAt)
  }

  /** What a section does to the mark unless it is a message or a push: nothing, or what
      markApprovalWaitLocked does after the pending calls changed. */
  ghost predicate MarkStep(a: Mark, b: Mark) {
    b == a || (b.answered == a.answered && Marked(a, b))
  }

  ghost predicate Marked(a: Mark, b: Mark) {
    if b.pending != [] && a.since.None? then b.own && b.since.Some?
    else if b.pending == [] && a.own then !b.own && b.since.None?
    else b.own == a.own && b.since == a.since
  }

  lemma MarkedByCall(r: Record, calls: seq<Approval>, now: Time)
    ensures Marked(MarkOf(r), MarkOf(MarkApprovalWait(r.(approvals := calls), now)))
    ensures MarkApprovalWait(r.(approvals := calls), now).answeredAt == r.answeredAt
    ensures MarkApprovalWait(r.(approvals := calls), now).approvals == calls
  {
  }

  predicate ChangesCalls(s: Section) {
    s.Ask? || s.Decide? || s.EndClaude? || s.EndSupervisor? || s.Completed? || s.Resolved? || s.EndAgy?
  }

  lemma SectionMarks(r: Record, s: Section)
    requires !s.Push? && !s.Post?
    ensures MarkStep(MarkOf(r), MarkOf(Apply(r, s)))
  {
    if ChangesCalls(s) {
      CallSectionMarks(r, s);
    }
  }

  lemma CallSectionMarks(r: Record, s: Section)
    requires ChangesCalls(s)
    ensures MarkStep(MarkOf(r), MarkOf(Apply(r, s)))
  {
    match s
    case Decide(id, decision, answers, written, now) => DecisionMarks(r, id, decision, answers, written, now);
    case EndClaude(now) => TurnEndMarks(r, now);
    case EndAgy(now) => TurnEndMarks(r, now);
    case EndSupervisor(_, _) => SupervisorMarks(r, s);
    case _ => RequestMarks(r, s);
  }

  lemma SupervisorMarks(r: Record, s: Section)
    requires s.EndSupervisor?
    ensures MarkStep(MarkOf(r), MarkOf(Apply(r, s)))
  {
  }

  lemma RequestMarks(r: Record, s: Section)
    requires s.Ask? || s.Completed? || s.Resolved?
    ensures MarkStep(MarkOf(r), MarkOf(Apply(r, s)))
  {
    match s
    case Ask(a, now) => MarkedByCall(r, r.approvals + [a], now);
    case Completed(now) => MarkedByCall(r, [], now);
    case Resolved(requestID, now) => MarkedByCall(r, WithoutRequest(r.approvals, requestID), now);
  }

  lemma TurnEndMarks(r: Record, now: Time)
    ensures MarkStep(MarkOf(r), MarkOf(FinishClaude(r, now).0))
             && MarkStep(MarkOf(r), MarkOf(FinishAntigravity(r, now).0))
  {
    MarkedByCall(r.(interrupted := false, input := None), [], now);
    MarkedByCall(r.(input := None), [], now);
  }

  lemma DecisionMarks(r: Record, id: string, decision: string, answers: map<string, string>, written: bool, now: Time)
    ensures var t := DecideApproval(r, id, decision, answers, written, now).0;
            MarkStep(MarkOf(r), MarkOf(t))
  {
    var at := FirstWithID(r.approvals, id);
    if at.Some? {
      MarkedByCall(r, r.approvals[..at.value] + r.approvals[at.value + 1..], now);
    }
  }

  // ---- ownership ----

  /** The agent's own mark is only up while a call is pending, and an answered wait is not shown again. */
  predicate Owned(m: Mark) {
    && (m.own ==> m.pending != [])
    && (m.answered.Some? ==> m.since.None? || m.own)
  }

  lemma SectionKeepsOwned(r: Record, s: Section)
    requires Owned(MarkOf(r))
    ensures Owned(MarkOf(Apply(r, s)))
  {
    if !s.Push? && !s.Post? {
      SectionMarks(r, s);
    }
  }

  /** At every lock release, over any sequence of sections, pushes of the server included. */
  lemma {:induction false} OwnedThroughout(provider: Provider, endsAs: Status, sections: seq<Section>)
    ensures Owned(MarkOf(ApplyAll(Opened(provider, endsAs), sections)))
  {
    if sections != [] {
      OwnedThroughout(provider, endsAs, sections[..|sections| - 1]);
      SectionKeepsOwned(ApplyAll(Opened(provider, endsAs), sections[..|sections| - 1]), sections[|sections| - 1]);
    }
  }

  /** Every section that changes the pending calls leaves the run marked if any remain. */
  lemma PendingCallsAreMarked(r: Record, s: Section)
    requires Apply(r, s).approvals != r.approvals && Apply(r, s).approvals != []
    ensures Apply(r, s).waitingSince.Some?
  {
    if !s.Push? && !s.Post? {
      SectionMarks(r, s);
    }
  }

  /** A wait the session declared survives whatever happens to approvals, for as long as no message
      answers it and the server pushes nothing. */
  lemma {:induction false} DeclaredWaitSurvives(r: Record, sections: seq<Section>)
    requires r.waitingSince.Some? && !r.ownMark
    requires forall i :: 0 <= i < |sections| ==> !sections[i].Push? && !sections[i].Post?
    ensures var t := ApplyAll(r, sections);
            t.waitingSince == r.waitingSince && !t.ownMark && t.answeredAt == r.answeredAt
  {
    if sections != [] {
      DeclaredWaitSurvives(r, sections[..|sections| - 1]);
      SectionMarks(ApplyAll(r, sections[..|sections| - 1]), sections[|sections| - 1]);
    }
  }

  /** A push that arrives while the agent's own mark is up is lost with that mark. */
  lemma DeclaredWaitLost(a: Approval, t: Time, now: Time)
    ensures var r := ApplyAll(Opened(Claude, Canceled), [Ask(a, now), Push(Some(t)), EndClaude(now)]);
            r.waitingSince.None? && r.answeredAt.None?
  {
    var o := Opened(Claude, Canceled);
    var s1, s2, s3 := [Ask(a, now)], [Ask(a, now), Push(Some(t))], [Ask(a, now), Push(Some(t)), EndClaude(now)];
    assert s1[..0] == [] && s2[..1] == s1 && s3[..2] == s2;
    assert ApplyAll(o, s1) == RequestApproval(o, a, now);
    assert ApplyAll(o, s2) == HandleRunWaiting(RequestApproval(o, a, now), Some(t)).0;
    assert ApplyAll(o, s3) == FinishClaude(ApplyAll(o, s2), now).0;
  }

  // ---- answered waits do not come back ----

  /** The pushes that end an answered wait: none, or another start. */
  predicate Ends(s: Section, t: Time) {
    s.Push? && s.push != Some(t)
  }

  /** After the owner answered wait t, nothing but such a push brings the mark back or forgets the answer. */
  lemma {:induction false} AnsweredStaysAnswered(r: Record, sections: seq<Section>, t: Time)
    requires Owned(MarkOf(r)) && r.answeredAt == Some(t)
    requires forall i :: 0 <= i < |sections| ==> !Ends(sections[i], t)
    ensures var u := ApplyAll(r, sections);
            u.answeredAt == Some(t) && (u.waitingSince.None? || u.ownMark) && Owned(MarkOf(u))
  {
    if sections != [] {
      var init, last := sections[..|sections| - 1], sections[|sections| - 1];
      AnsweredStaysAnswered(r, init, t);
      SectionKeepsOwned(ApplyAll(r, init), last);
      if last.Push? {
        assert !Ends(last, t);
      } else if !last.Post? {
        SectionMarks(ApplyAll(r, init), last);
      }
    }
  }

  /** Every echo of it, whatever came in between but such a push, is answered again and changes nothing. */
  lemma EveryEchoIsAnsweredAgain(r: Record, sections: seq<Section>, t: Time)
    requires Owned(MarkOf(r)) && r.answeredAt == Some(t)
    requires forall i :: 0 <= i < |sections| ==> !Ends(sections[i], t)
    ensures HandleRunWaiting(ApplyAll(r, sections), Some(t)) == (ApplyAll(r, sections), Some(t))
  {
    AnsweredStaysAnswered(r, sections, t);
  }

  ghost predicate NoneEnds(sections: seq<Section>, t: Time) {
    forall i :: 0 <= i < |sections| ==> !Ends(sections[i], t)
  }

  lemma NoneEndsLast(init: seq<Section>, last: Section, t: Time)
    ensures NoneEnds(init + [last], t) <==> NoneEnds(init, t) && !Ends(last, t)
  {
    var all := init + [last];
    if NoneEnds(all, t) {
      assert forall i :: 0 <= i < |init| ==> all[i] == init[i];
      assert all[|init|] == last;
    }
  }

  ghost predicate NoPosts(sections: seq<Section>) {
    forall i :: 0 <= i < |sections| ==> !sections[i].Post?
  }

  /** Without messages, exactly such a push ends it. */
  lemma AnsweredUntilAnotherPush(r: Record, sections: seq<Section>, t: Time)
    requires Owned(MarkOf(r)) && r.answeredAt == Some(t) && NoPosts(sections)
    ensures ApplyAll(r, sections).answeredAt == Some(t) <==> NoneEnds(sections, t)
  {
    if NoneEnds(sections, t) {
      AnsweredStaysAnswered(r, sections, t);
    } else {
      ForgottenForGood(r, sections, t);
    }
  }

  lemma ForgottenNow(r: Record, s: Section, t: Time)
    requires Ends(s, t) && r.answeredAt == Some(t)
    ensures Apply(r, s).answeredAt.None?
  {
  }

  lemma StaysForgotten(r: Record, s: Section)
    requires r.answeredAt.None? && !s.Post?
    ensures Apply(r, s).answeredAt.None?
  {
    if !s.Push? {
      SectionMarks(r, s);
    }
  }

  lemma {:induction false} ForgottenForGood(r: Record, sections: seq<Section>, t: Time)
    requires Owned(MarkOf(r)) && r.answeredAt == Some(t) && NoPosts(sections) && !NoneEnds(sections, t)
    ensures ApplyAll(r, sections).answeredAt.None?
  {
    var init, last := sections[..|sections| - 1], sections[|sections| - 1];
    assert sections == init + [last];
    NoneEndsLast(init, last, t);
    if NoneEnds(init, t) {
      AnsweredStaysAnswered(r, init, t);
      ForgottenNow(ApplyAll(r, init), last, t);
    } else {
      ForgottenForGood(r, init, t);
      StaysForgotten(ApplyAll(r, init), last);
    }
  }

  /** A message answers the wait the session declared, and tells the server of it, whatever happened to approvals
      since. */
  lemma MessageAnswersDeclared(r: Record, sections: seq<Section>, t: Time, m: Message, written: bool)
    requires r.waitingSince == Some(t) && !r.ownMark
    requires forall i :: 0 <= i < |sections| ==> !sections[i].Push? && !sections[i].Post?
    ensures var u := ApplyAll(r, sections);
            var (v, admission, told) := AdmitMessage(u, m, written);
            if u.canceled || u.shuttingDown then admission.Unavailable? && v == u && told.None?
            else v.waitingSince.None? && v.answeredAt == Some(t) && told == Some(t)
  {
    DeclaredWaitSurvives(r, sections);
  }

  // ---- a wait pushed while an approval is up ----

  /** While the agent takes the mark for its own, or there is none, no other mark is up. */
  lemma {:induction false} OwnOrNone(r: Record, sections: seq<Section>)
    requires Owned(MarkOf(r)) && (r.ownMark || r.waitingSince.None?)
    requires forall i :: 0 <= i < |sections| ==> !sections[i].Push? && !sections[i].Post?
    ensures var u := ApplyAll(r, sections); Owned(MarkOf(u)) && (u.ownMark || u.waitingSince.None?)
  {
    if sections != [] {
      OwnOrNone(r, sections[..|sections| - 1]);
      SectionKeepsOwned(ApplyAll(r, sections[..|sections| - 1]), sections[|sections| - 1]);
      SectionMarks(ApplyAll(r, sections[..|sections| - 1]), sections[|sections| - 1]);
    }
  }

  /** A wait the server pushes, and nobody answers, is up again once no call is pending any more exactly if the
      agent's own mark was not up when it came. */
  lemma PushedWaitSurvives(r: Record, t: Time, sections: seq<Section>)
    requires Owned(MarkOf(r)) && r.answeredAt != Some(t)
    requires forall i :: 0 <= i < |sections| ==> !sections[i].Push? && !sections[i].Post?
    requires ApplyAll(HandleRunWaiting(r, Some(t)).0, sections).approvals == []
    ensures ApplyAll(HandleRunWaiting(r, Some(t)).0, sections).waitingSince == Some(t) <==> !r.ownMark
  {
    var p := HandleRunWaiting(r, Some(t)).0;
    if r.ownMark {
      OwnOrNone(p, sections);
    } else {
      DeclaredWaitSurvives(p, sections);
    }
  }

  // ---- runs of any kind ----

  /** controlledRun, as far as waits go: a terminal's run, a headless one, or a conversation. */
  class ControlledRun {
    const headless: bool
    const conversation: bool
    var waitingSince: Option<Time>
    var answeredAt: Option<Time>

    constructor (headless: bool, conversation: bool)
      ensures waitingSince.None? && answeredAt.None? && this.headless == headless && this.conversation == conversation
    {
      this.headless, this.conversation := headless, conversation;
      waitingSince, answeredAt := None, None;
    }

    /** handleRunWaiting: a headless run without a conversation has nobody to wait for. */
    method HandleRunWaiting(push: Option<Time>) returns (again: Option<Time>)
      modifies this
      ensures push.None? || (headless && !conversation) ==> waitingSince.None? && answeredAt.None? && again.None?
      ensures push.Some? && !(headless && !conversation) && old(answeredAt) == push ==>
                waitingSince == old(waitingSince) && answeredAt == old(answeredAt) && again == push
      ensures push.Some? && !(headless && !conversation) && old(answeredAt) != push ==>
                waitingSince == push && answeredAt.None? && again.None?
    {
      if push.None? || (headless && !conversation) {
        waitingSince, answeredAt := None, None;
        return None;
      }
      if answeredAt.Some? && answeredAt == push {
        return push;
      }
      answeredAt := None;
      waitingSince := push;
      return None;
    }

    /** answerRun: Enter in a terminal answers its wait, and nothing else. */
    method AnswerRun() returns (told: Option<Time>)
      modifies this
      ensures if headless || old(waitingSince).None?
              then told.None? && waitingSince == old(waitingSince) && answeredAt == old(answeredAt)
              else told == old(waitingSince) == answeredAt && waitingSince.None?
    {
      if headless || waitingSince.None? {
        return None;
      }
      told := waitingSince;
      waitingSince := None;
      answeredAt := told;
    }
  }

  /** resendAnswers: every answer the server has not confirmed, once, on each new connection. */
  method ResendAnswers(runs: map<string, Option<Time>>) returns (pending: seq<(string, Time)>)
    ensures forall id, t :: (id, t) in pending <==> id in runs && runs[id] == Some(t)
    ensures forall i, j :: 0 <= i < j < |pending| ==> pending[i].0 != pending[j].0
  {
    pending := [];
    var left := runs.Keys;
    while left != {}
      invariant left <= runs.Keys
      invariant forall id, t :: (id, t) in pending <==> id in runs && id !in left && runs[id] == Some(t)
      invariant forall i, j :: 0 <= i < j < |pending| ==> pending[i].0 != pending[j].0
      decreases left
    {
      var id :| id in left;
      left := left - {id};
      if runs[id].Some? {
        forall i | 0 <= i < |pending| ensures pending[i].0 != id {
          assert (pending[i].0, pending[i].1) in pending;
        }
        pending := pending + [(id, runs[id].value)];
      }
    }
  }
}
