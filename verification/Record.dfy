/** The record a conversation shares between its goroutines, and one function per section of code
    that holds the queue lock. Every later statement about interleavings is about these functions;
    the class in Conversation.dfy runs them in place. */
module ConversationRecord {
  import opened Basics
  import opened Approvals

  datatype Provider = Claude | Codex | Antigravity

  datatype Status = Running | Completed | Canceled

  predicate Terminal(status: Status) {
    !status.Running?
  }

  /** An instant. The zero time.Time is None wherever a time may be unset. */
  type Time = nat

  /** Names one goroutine, and with it the stdin or the Codex supervisor it owns. */
  type Worker = nat

  /** number is the message's place among those admitted; it identifies the message here. */
  datatype Message = Message(number: nat, text: string)

  /** serial identifies one request of the provider; id and requestID are what it called it. */
  datatype Approval = Approval(serial: nat, id: string, requestID: string, call: ToolCall)

  /** providerConversation, with the fields of its controlledRun and of the queue that it is used with.
      endsAs is what conversationStoppedStatus answers for the run. */
  datatype Record = Record(
    provider: Provider, endsAs: Status,
    busy: bool, next: seq<Message>, input: Option<Worker>, approvals: seq<Approval>,
    interrupted: bool, codex: Option<Worker>, ownMark: bool,
    waitingSince: Option<Time>, answeredAt: Option<Time>,
    canceled: bool, exited: bool, status: Status,
    shuttingDown: bool)

  /** startConversationLocked. */
  function Opened(provider: Provider, endsAs: Status): Record {
    Record(provider, endsAs, false, [], None, [], false, None, false, None, None, false, false, Running, false)
  }

  function MarkApprovalWait(r: Record, now: Time): Record {
    if r.approvals != [] && r.waitingSince.None? then r.(waitingSince := Some(now), ownMark := true)
    else if r.approvals == [] && r.ownMark then r.(waitingSince := None, ownMark := false)
    else r
  }

  /** The run's status is set and its exited channel closed. */
  function Close(r: Record, status: Status): Record {
    r.(status := status, exited := true)
  }

  // ---- HTTP posts ----

  datatype Admission = Unavailable | Joined | Queued | Started

  /** A message answers a wait the session declared. */
  function AnswerDeclaredWait(r: Record): (Record, Option<Time>) {
    if r.waitingSince.Some? && !r.ownMark
    then (r.(waitingSince := None, answeredAt := r.waitingSince), r.waitingSince)
    else (r, None)
  }

  /** Where an admitted message goes: into the turn in progress, behind it, or into a turn of its own.
      written says whether the turn's stdin took it. */
  function Place(a: Record, m: Message, written: bool): (Record, Admission) {
    if a.busy then
      if !a.provider.Claude? || a.input.None? || !written
      then (a.(next := a.next + [m]), Queued)
      else (a, Joined)
    else (a.(busy := true, next := if a.provider.Codex? then a.next + [m] else a.next), Started)
  }

  /** The message branch of desktopConversation; the last result is the wait the server is told about. */
  function AdmitMessage(r: Record, m: Message, written: bool): (Record, Admission, Option<Time>) {
    if r.canceled || r.shuttingDown then (r, Unavailable, None)
    else
      var (a, since) := AnswerDeclaredWait(r);
      var (p, admission) := Place(a, m, written);
      (p, admission, since)
  }

  function Interrupt(r: Record): (Record, bool) {
    if !r.busy then (r, false)
    else (r.(interrupted := true, next := if r.provider.Codex? then [] else r.next), true)
  }

  datatype Verdict = UnknownDecision | NoSuchCall | TurnEnded | Rejected | WriteFailed | Answered(approval: Approval)

  function FirstWithID(approvals: seq<Approval>, id: string): (at: Option<nat>)
    ensures at.Some? ==> at.value < |approvals| && approvals[at.value].id == id
  {
    if approvals == [] then None
    else if approvals[0].id == id then Some(0)
    else var at := FirstWithID(approvals[1..], id); if at.Some? then Some(at.value + 1) else None
  }

  /** The call an id means: the first with it. */
  ghost predicate IsFirst(approvals: seq<Approval>, id: string, k: nat) {
    && k < |approvals| && approvals[k].id == id
    && forall j :: 0 <= j < k ==> approvals[j].id != id
  }

  predicate Known(decision: string) {
    decision in OWNER_DECISIONS
  }

  ghost predicate DecisionFits(provider: Provider, call: ToolCall, decision: string, answers: map<string, string>) {
    if provider.Codex? then CodexAccepts(call, decision, answers) else AnswersAccepted(call, decision, answers)
  }

  /** The approval branch of desktopConversation. */
  ghost function DecideApproval(r: Record, id: string, decision: string, answers: map<string, string>, written: bool,
                                now: Time): (Record, Verdict) {
    if !Known(decision) then (r, UnknownDecision)
    else
      var at := FirstWithID(r.approvals, id);
      if at.None? then (r, NoSuchCall)
      else DecideAt(r, at.value, decision, answers, written, now)
  }

  /** decideApprovalLocked or decideCodexApprovalLocked, on the call at k. */
  ghost function DecideAt(r: Record, k: nat, decision: string, answers: map<string, string>, written: bool,
                          now: Time): (Record, Verdict)
    requires k < |r.approvals|
  {
    if r.input.None? then (r, TurnEnded)
    else if !DecisionFits(r.provider, r.approvals[k].call, decision, answers) then (r, Rejected)
    else if !written then (r, WriteFailed)
    else
      (MarkApprovalWait(r.(approvals := r.approvals[..k] + r.approvals[k + 1..]), now), Answered(r.approvals[k]))
  }

  // ---- stops ----

  /** /desktop/stop, with endsAs, and stopConversations, with Canceled. */
  function Stop(r: Record, status: Status): Record {
    var c := r.(canceled := true);
    if !c.busy && c.codex.None? then Close(c, status) else c
  }

  /** cancelRun only asks; it closes nothing itself. */
  function CancelFromServer(r: Record): Record {
    r.(canceled := true)
  }

  /** The restart guard: work stops being admitted once every run has exited. */
  function BeginShutdown(r: Record): Record {
    if r.exited then r.(shuttingDown := true) else r
  }

  // ---- the server's waits ----

  /** handleRunWaiting; the last result is the answer sent again. */
  function HandleRunWaiting(r: Record, push: Option<Time>): (Record, Option<Time>) {
    if push.None? then (r.(waitingSince := None, answeredAt := None), None)
    else if r.answeredAt == push then (r, push)
    else (r.(answeredAt := None, waitingSince := push), None)
  }

  // ---- a turn's own sections ----

  function PublishInput(r: Record, w: Worker): Record {
    r.(input := Some(w))
  }

  function RequestApproval(r: Record, a: Approval, now: Time): Record {
    MarkApprovalWait(r.(approvals := r.approvals + [a]), now)
  }

  /** The closing section of a Claude turn: first the turn is cleared away and a stop confirmed. */
  function ClearTurn(r: Record, now: Time): Record {
    var m := MarkApprovalWait(r.(interrupted := false, input := None, approvals := []), now);
    (if m.canceled then Close(m, m.endsAs) else m).(busy := false)
  }

  /** Then the messages that missed the turn start the next one, unless the conversation was stopped. */
  function StartMissed(c: Record): (Record, seq<Message>) {
    if c.next != [] && !c.canceled then (c.(next := [], busy := true), c.next)
    else (c.(next := []), [])
  }

  function FinishClaude(r: Record, now: Time): (Record, seq<Message>) {
    StartMissed(ClearTurn(r, now))
  }

  datatype Entry = Leave | Supervise

  /** The first section of codexConversationTurn. */
  function EnterCodex(r: Record, w: Worker): (Record, Entry) {
    if r.canceled then
      var n := r.(busy := false);
      (if n.codex.None? then Close(n, n.endsAs) else n, Leave)
    else if r.codex.Some? then (r, Leave)
    else (r.(codex := Some(w)), Supervise)
  }

  /** The supervisor's tick takes the queue, unless the answer was interrupted. */
  function TickCodex(r: Record): (Record, seq<Message>) {
    if r.next != [] && !r.interrupted then (r.(next := []), r.next) else (r, [])
  }

  function ClearIdleInterrupt(r: Record): Record {
    r.(interrupted := false, busy := r.next != [])
  }

  /** After a failed turn/steer: only a refusal of a turn that has ended puts the messages back. */
  function AfterSteer(r: Record, batch: seq<Message>, ended: bool): Record {
    if ended then r.(next := batch + r.next, busy := true) else r
  }

  function BeginCodexTurn(r: Record): Record {
    r.(busy := true)
  }

  function RefuseCodexTurn(r: Record): Record {
    r.(busy := false)
  }

  function EndCodex(r: Record, w: Worker, now: Time): Record {
    if r.codex != Some(w) then r
    else
      var e := MarkApprovalWait(r.(codex := None, input := None, busy := false, interrupted := false,
                                   approvals := []), now);
      var n := e.(next := []);
      if n.canceled then Close(n, n.endsAs) else n
  }

  predicate Listening(r: Record, w: Worker) {
    r.codex == Some(w) && !r.canceled
  }

  function TurnStarted(r: Record): Record {
    r.(busy := true)
  }

  function TurnCompleted(r: Record, now: Time): Record {
    var m := MarkApprovalWait(r.(approvals := []), now);
    m.(busy := m.next != [], interrupted := false)
  }

  function WithoutRequest(approvals: seq<Approval>, requestID: string): (rest: seq<Approval>) {
    if approvals == [] then []
    else if approvals[0].requestID == requestID then approvals[1..]
    else [approvals[0]] + WithoutRequest(approvals[1..], requestID)
  }

  ghost predicate IsFirstRequest(approvals: seq<Approval>, requestID: string, i: nat) {
    && i < |approvals| && approvals[i].requestID == requestID
    && forall j :: 0 <= j < i ==> approvals[j].requestID != requestID
  }

  function RequestResolved(r: Record, requestID: string, now: Time): Record {
    MarkApprovalWait(r.(approvals := WithoutRequest(r.approvals, requestID)), now)
  }

  /** The opening section of an Antigravity turn. A local slash command has no stdin; piped says
      whether the pipe of any other turn could be made. */
  function BeginAntigravity(r: Record, w: Worker, slash: bool, piped: bool): (Record, bool) {
    if !slash && !piped then (r.(busy := false), false)
    else (r.(input := if slash then r.input else Some(w), interrupted := false), true)
  }

  /** The process did not start, or did not take its prompt. */
  function AbandonAntigravity(r: Record): Record {
    r.(input := None, busy := false)
  }

  /** The closing section of an Antigravity turn: the queue's first message goes on with it, unless the
      turn was interrupted or the conversation stopped, which both drop the queue. */
  function TakeFollowing(m: Record): (Record, Option<Message>) {
    if m.next != [] && !m.interrupted && !m.canceled && !m.shuttingDown
    then (m.(next := m.next[1..], interrupted := false), Some(m.next[0]))
    else (m.(next := [], busy := false, interrupted := false), None)
  }

  function CloseIfStopped(n: Record): Record {
    if n.canceled || n.shuttingDown
    then Close(n, if n.canceled && !n.shuttingDown then n.endsAs else Canceled) else n
  }

  function FinishAntigravity(r: Record, now: Time): (Record, Option<Message>) {
    var (n, following) := TakeFollowing(MarkApprovalWait(r.(input := None, approvals := []), now));
    (CloseIfStopped(n), following)
  }

  lemma {:induction false} FirstWithIDAt(approvals: seq<Approval>, id: string, i: nat)
    requires IsFirst(approvals, id, i)
    ensures FirstWithID(approvals, id) == Some(i)
  {
    if i > 0 {
      FirstWithIDAt(approvals[1..], id, i - 1);
    }
  }

  lemma {:induction false} FirstWithIDIs(approvals: seq<Approval>, id: string)
    ensures match FirstWithID(approvals, id)
            case Some(k) => IsFirst(approvals, id, k)
            case None => forall k :: 0 <= k < |approvals| ==> approvals[k].id != id
  {
    if approvals != [] && approvals[0].id != id {
      FirstWithIDIs(approvals[1..], id);
      assert approvals == [approvals[0]] + approvals[1..];
    }
  }

  /** Exactly the decisions that fit a call on an open stdin are answered. */
  lemma AnsweredExactly(r: Record, id: string, decision: string, answers: map<string, string>, written: bool,
                        now: Time, k: nat)
    requires IsFirst(r.approvals, id, k)
    ensures var (t, verdict) := DecideApproval(r, id, decision, answers, written, now);
            && (verdict.Answered? <==>
                Known(decision) && r.input.Some? && DecisionFits(r.provider, r.approvals[k].call, decision, answers)
                && written)
            && (if verdict.Answered? then
                  verdict.approval == r.approvals[k] && t.approvals == r.approvals[..k] + r.approvals[k + 1..]
                else t == r)
  {
    FirstWithIDAt(r.approvals, id, k);
    if Known(decision) {
      assert DecideApproval(r, id, decision, answers, written, now) == DecideAt(r, k, decision, answers, written, now);
    }
  }

  /** Messages numbered by their place occur once. */
  lemma {:induction false} OncePerNumber(messages: seq<Message>, k: nat)
    requires forall i :: 0 <= i < |messages| ==> messages[i].number == i
    requires k < |messages|
    ensures multiset(messages)[messages[k]] == 1
  {
    assert messages == messages[..k] + [messages[k]] + messages[k + 1..];
  }
}
