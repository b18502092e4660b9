/** Claude conversations: one process per turn. Every interleaving of the HTTP posts, the turns'
    goroutines, their processes, the server and the shutdown is a run of this machine; each action is
    one section under the queue lock, or one event of a process. */
module ClaudeTurns {
  import opened Basics
  import opened Approvals
  import opened ConversationRecord
  import opened ApprovalNumbers

  /** A goroutine of conversationTurn. Its process exists exactly while it is Live. open is its stdin,
      published whether the record points at it, signals how often StopControlled was called. */
  datatype Turn =
    | Preparing(prompt: seq<Message>)
    | Live(prompt: seq<Message>, published: bool, open: bool, signals: nat)
    | Reaped(prompt: seq<Message>, launched: bool)

  /** What happened so far: the messages admitted, each with whether it waits for a turn of its own;
      the prompt of each turn, in starting order; the messages that joined a turn on its stdin; those
      dropped by a stop; how many tool calls asked for approval and which were answered. */
  datatype History = History(
    admitted: seq<(Message, bool)>, prompts: seq<seq<Message>>, joined: seq<Message>, dropped: seq<Message>,
    requests: nat, answered: seq<nat>)

  /** A turn's name is its place in prompts. Nothing here keeps two turns apart. */
  datatype State = State(rec: Record, turns: map<Worker, Turn>, log: History)

  datatype Action =
    | Post(text: string, written: bool)
    | PostInterrupt
    | PostApproval(id: string, decision: string, answers: map<string, string>, written: bool, now: Time)
    | DesktopStop
    | StopConversations
    | CancelRun
    | RunWaiting(push: Option<Time>)
    | Restart
    | Launch(w: Worker)
    | LaunchFailed(w: Worker)
    | Publish(w: Worker)
    | CloseStdin(w: Worker)
    | AskApproval(w: Worker, id: string, call: ToolCall, now: Time)
    | Signal(w: Worker)
    | Exit(w: Worker)
    | Finish(w: Worker, now: Time)

  ghost predicate Initial(s: State) {
    && s.rec == Opened(Claude, s.rec.endsAs)
    && Terminal(s.rec.endsAs)
    && s.turns == map[]
    && s.log == History([], [], [], [], 0, [])
  }

  predicate Alive(s: State, w: Worker) {
    w in s.turns && s.turns[w].Live?
  }

  /** A write reaches the turn only while the record points at its stdin and that stdin is open. */
  predicate Writable(s: State) {
    s.rec.input.Some? && Alive(s, s.rec.input.value) && s.turns[s.rec.input.value].open
  }

  predicate Enabled(s: State, a: Action) {
    match a
    case Post(_, written) => written ==> Writable(s)
    case PostApproval(_, _, _, written, _) => written ==> Writable(s)
    case Launch(w) => w in s.turns && s.turns[w].Preparing?
    case LaunchFailed(w) => w in s.turns && s.turns[w].Preparing?
    case Publish(w) => Alive(s, w) && !s.turns[w].published
    case CloseStdin(w) => Alive(s, w)
    case AskApproval(w, _, _, _) => Alive(s, w) || (w in s.turns && s.turns[w].Reaped? && s.turns[w].launched)
    case Signal(w) => Alive(s, w) && s.turns[w].published && (s.rec.canceled || s.rec.interrupted)
    case Exit(w) => Alive(s, w)
    case Finish(w, _) => w in s.turns && s.turns[w].Reaped?
    case _ => true
  }

  /** go d.conversationTurn(run, prompt). */
  function Spawn(s: State, prompt: seq<Message>): State {
    s.(turns := s.turns[|s.log.prompts| := Preparing(prompt)], log := s.log.(prompts := s.log.prompts + [prompt]))
  }

  function Admit(s: State, m: Message, waits: bool): State {
    s.(log := s.log.(admitted := s.log.admitted + [(m, waits)]))
  }

  /** The message reaches the turn in progress. */
  function JoinTurn(s: State, m: Message): State {
    var t := Admit(s, m, false);
    t.(log := t.log.(joined := t.log.joined + [m]))
  }

  /** The message waits for the turn in progress to end. */
  function QueueMessage(s: State, m: Message): State {
    Admit(s, m, true).(rec := s.rec.(next := s.rec.next + [m]))
  }

  /** The message starts a turn. */
  function StartTurn(s: State, m: Message): State {
    Spawn(Admit(s, m, true).(rec := s.rec.(busy := true)), [m])
  }

  function AfterPost(s: State, m: Message, written: bool): State {
    if s.rec.canceled || s.rec.shuttingDown then s
    else
      var a := s.(rec := AnswerDeclaredWait(s.rec).0);
      if !a.rec.busy then StartTurn(a, m)
      else if a.rec.input.None? || !written then QueueMessage(a, m)
      else JoinTurn(a, m)
  }

  /** AfterPost is AdmitMessage on the record, and logs what became of the message. */
  lemma PostIsAdmission(s: State, m: Message, written: bool)
    requires s.rec.provider.Claude?
    ensures var (r, admission, _) := AdmitMessage(s.rec, m, written);
            var t := AfterPost(s, m, written);
            && t.rec == r
            && (admission.Unavailable? ==> t == s)
            && (admission.Joined? ==> t.log.joined == s.log.joined + [m] && t.turns == s.turns)
            && (admission.Queued? ==> t.log.joined == s.log.joined && t.turns == s.turns)
            && (admission.Started? ==>
                t.log.prompts == s.log.prompts + [[m]] && t.turns == s.turns[|s.log.prompts| := Preparing([m])])
  {
  }

  function AfterFinish(s: State, w: Worker, now: Time): State {
    var (r, prompt) := FinishClaude(s.rec, now);
    var t := s.(rec := r, turns := s.turns - {w});
    if prompt != [] then Spawn(t, prompt)
    else t.(log := s.log.(dropped := s.log.dropped + s.rec.next))
  }

  ghost function AfterDecision(s: State, id: string, decision: string, answers: map<string, string>, written: bool,
                               now: Time): State {
    var (r, verdict) := DecideApproval(s.rec, id, decision, answers, written, now);
    s.(rec := r,
       log := if verdict.Answered? then s.log.(answered := s.log.answered + [verdict.approval.serial]) else s.log)
  }

  function AfterAsk(s: State, id: string, call: ToolCall, now: Time): State {
    s.(rec := RequestApproval(s.rec, Approval(s.log.requests, id, id, call), now),
       log := s.log.(requests := s.log.requests + 1))
  }

  ghost function Step(s: State, a: Action): State
    requires Enabled(s, a)
  {
    match a
    case Post(text, written) => AfterPost(s, Message(|s.log.admitted|, text), written)
    case PostInterrupt => s.(rec := Interrupt(s.rec).0)
    case PostApproval(id, decision, answers, written, now) => AfterDecision(s, id, decision, answers, written, now)
    case DesktopStop => s.(rec := Stop(s.rec, s.rec.endsAs))
    case StopConversations => s.(rec := Stop(s.rec, Canceled))
    case CancelRun => s.(rec := CancelFromServer(s.rec))
    case RunWaiting(push) => s.(rec := HandleRunWaiting(s.rec, push).0)
    case Restart => s.(rec := BeginShutdown(s.rec))
    case Launch(w) => s.(turns := s.turns[w := Live(s.turns[w].prompt, false, true, 0)])
    case LaunchFailed(w) => s.(turns := s.turns[w := Reaped(s.turns[w].prompt, false)])
    case Publish(w) => s.(rec := PublishInput(s.rec, w), turns := s.turns[w := s.turns[w].(published := true)])
    case CloseStdin(w) => s.(turns := s.turns[w := s.turns[w].(open := false)])
    case AskApproval(_, id, call, now) => AfterAsk(s, id, call, now)
    case Signal(w) => s.(turns := s.turns[w := s.turns[w].(open := false, signals := s.turns[w].signals + 1)])
    case Exit(w) => s.(turns := s.turns[w := Reaped(s.turns[w].prompt, true)])
    case Finish(w, now) => AfterFinish(s, w, now)
  }

  // ---- the invariant ----

  /** The messages of one lane, in admission order. */
  function Lane(admitted: seq<(Message, bool)>, waits: bool): seq<Message> {
    if admitted == [] then []
    else
      var last := admitted[|admitted| - 1];
      Lane(admitted[..|admitted| - 1], waits) + (if last.1 == waits then [last.0] else [])
  }

  lemma LaneAppend(admitted: seq<(Message, bool)>, m: Message, lane: bool, waits: bool)
    ensures Lane(admitted + [(m, lane)], waits) == Lane(admitted, waits) + (if lane == waits then [m] else [])
  {
    assert (admitted + [(m, lane)])[..|admitted|] == admitted;
  }

  /** busy is the token of the only turn there is, which is the one started last. */
  ghost predicate TurnsOK(s: State) {
    && s.rec.provider.Claude? && s.rec.codex.None?
    && (forall w :: w in s.turns ==> w + 1 == |s.log.prompts| && s.turns[w].prompt == s.log.prompts[w])
    && (s.rec.busy <==> s.turns != map[])
    && (s.rec.input.Some? ==> s.rec.input.value in s.turns && !s.turns[s.rec.input.value].Preparing?)
  }

  ghost predicate StopOK(s: State) {
    && Terminal(s.rec.endsAs)
    && (s.rec.exited ==> s.rec.canceled && !s.rec.busy && Terminal(s.rec.status))
    && (!s.rec.exited ==> s.rec.status.Running?)
    && (s.rec.shuttingDown ==> s.rec.exited)
    && (s.log.dropped != [] ==> s.rec.exited)
  }

  /** Both lanes are accounted for, in order; a message's number is its place among the admitted. */
  ghost predicate Accounts(prompts: seq<seq<Message>>, next: seq<Message>, dropped: seq<Message>,
                           joined: seq<Message>, admitted: seq<(Message, bool)>) {
    && Flatten(prompts) + next + dropped == Lane(admitted, true)
    && joined == Lane(admitted, false)
    && (forall i :: 0 <= i < |admitted| ==> admitted[i].0.number == i)
  }

  lemma AccountsStarted(prompts: seq<seq<Message>>, joined: seq<Message>, admitted: seq<(Message, bool)>, m: Message)
    requires Accounts(prompts, [], [], joined, admitted) && m.number == |admitted|
    ensures Accounts(prompts + [[m]], [], [], joined, admitted + [(m, true)])
  {
    LaneAppend(admitted, m, true, true);
    LaneAppend(admitted, m, true, false);
  }

  lemma AccountsQueued(prompts: seq<seq<Message>>, next: seq<Message>, joined: seq<Message>, admitted: seq<(Message,
                       bool)>, m: Message)
    requires Accounts(prompts, next, [], joined, admitted) && m.number == |admitted|
    ensures Accounts(prompts, next + [m], [], joined, admitted + [(m, true)])
  {
    LaneAppend(admitted, m, true, true);
    LaneAppend(admitted, m, true, false);
    assert Flatten(prompts) + (next + [m]) + [] == Flatten(prompts) + next + [] + [m];
  }

  lemma AccountsJoined(prompts: seq<seq<Message>>, next: seq<Message>, dropped: seq<Message>, joined: seq<Message>,
                       admitted: seq<(Message, bool)>, m: Message)
    requires Accounts(prompts, next, dropped, joined, admitted) && m.number == |admitted|
    ensures Accounts(prompts, next, dropped, joined + [m], admitted + [(m, false)])
  {
    LaneAppend(admitted, m, false, true);
    LaneAppend(admitted, m, false, false);
  }

  lemma AccountsFinished(prompts: seq<seq<Message>>, next: seq<Message>, joined: seq<Message>,
                         admitted: seq<(Message, bool)>)
    requires Accounts(prompts, next, [], joined, admitted)
    ensures Accounts(prompts + [next], [], [], joined, admitted)
    ensures Accounts(prompts, [], next, joined, admitted)
  {
    assert Flatten(prompts) + next + [] == Flatten(prompts) + [] + next == Flatten(prompts) + next;
  }

  ghost predicate QueueOK(s: State) {
    && (!s.rec.busy ==> s.rec.next == [])
    && Accounts(s.log.prompts, s.rec.next, s.log.dropped, s.log.joined, s.log.admitted)
  }

  ghost predicate CallsOK(s: State) {
    && Numbered(s.rec.approvals, s.log.answered, s.log.requests)
    && (!s.rec.busy ==> s.rec.approvals == [])
    && (s.rec.ownMark ==> s.rec.approvals != [])
  }

  ghost predicate Inv(s: State) {
    TurnsOK(s) && StopOK(s) && QueueOK(s) && CallsOK(s)
  }

  lemma InitialInv(s: State)
    requires Initial(s)
    ensures Inv(s)
  {
  }

  lemma PostPreserves(s: State, text: string, written: bool)
    requires Inv(s)
    ensures Inv(AfterPost(s, Message(|s.log.admitted|, text), written))
  {
    if !s.rec.canceled && !s.rec.shuttingDown {
      var m := Message(|s.log.admitted|, text);
      AnswerPreservesWait(s);
      var a := s.(rec := AnswerDeclaredWait(s.rec).0);
      if !a.rec.busy {
        StartPreserves(a, m);
      } else {
        QueuePreserves(a, m);
        JoinPreserves(a, m);
      }
    }
  }

  lemma AnswerPreservesWait(s: State)
    requires Inv(s)
    ensures Inv(s.(rec := AnswerDeclaredWait(s.rec).0))
  {
  }

  lemma StartPreserves(s: State, m: Message)
    requires Inv(s) && !s.rec.busy && !s.rec.canceled && m.number == |s.log.admitted|
    ensures Inv(StartTurn(s, m))
  {
    AccountsStarted(s.log.prompts, s.log.joined, s.log.admitted, m);
    assert s.turns == map[];
  }

  lemma QueuePreserves(s: State, m: Message)
    requires Inv(s) && s.rec.busy && m.number == |s.log.admitted|
    ensures Inv(QueueMessage(s, m))
  {
    AccountsQueued(s.log.prompts, s.rec.next, s.log.joined, s.log.admitted, m);
  }

  lemma JoinPreserves(s: State, m: Message)
    requires Inv(s) && s.rec.busy && m.number == |s.log.admitted|
    ensures Inv(JoinTurn(s, m))
  {
    AccountsJoined(s.log.prompts, s.rec.next, s.log.dropped, s.log.joined, s.log.admitted, m);
  }

  lemma FinishPreserves(s: State, w: Worker, now: Time)
    requires Inv(s) && w in s.turns && s.turns[w].Reaped?
    ensures Inv(AfterFinish(s, w, now))
  {
    assert s.turns - {w} == map[];
    ClearPreserves(s, now);
    MissedPreserves(s.(rec := ClearTurn(s.rec, now), turns := map[]));
  }

  lemma ClearPreserves(s: State, now: Time)
    requires Inv(s) && s.rec.busy
    ensures Cleared(s.(rec := ClearTurn(s.rec, now), turns := map[]))
  {
  }

  /** Between the turn and the one its missed messages start: as Inv, but next may be left. */
  ghost predicate Cleared(s: State) {
    && TurnsOK(s) && CallsOK(s) && s.turns == map[]
    && StopOK(s.(rec := s.rec.(busy := false))) && (s.rec.canceled ==> s.rec.exited)
    && (s.rec.next != [] ==> s.log.dropped == [])
    && Accounts(s.log.prompts, s.rec.next, s.log.dropped, s.log.joined, s.log.admitted)
  }

  lemma MissedPreserves(s: State)
    requires Cleared(s)
    ensures var (r, prompt) := StartMissed(s.rec);
            Inv(if prompt != [] then Spawn(s.(rec := r), prompt)
                else s.(rec := r, log := s.log.(dropped := s.log.dropped + s.rec.next)))
  {
    if s.rec.next != [] {
      AccountsFinished(s.log.prompts, s.rec.next, s.log.joined, s.log.admitted);
    } else {
      assert s.log.dropped + s.rec.next == s.log.dropped;
    }
  }

  lemma DecisionPreserves(s: State, id: string, decision: string, answers: map<string, string>, written: bool,
                          now: Time)
    requires Inv(s)
    ensures Inv(AfterDecision(s, id, decision, answers, written, now))
  {
    var (r, verdict) := DecideApproval(s.rec, id, decision, answers, written, now);
    if verdict.Answered? {
      AnswerPreserves(s, FirstWithID(s.rec.approvals, id).value, now);
    } else {
      assert AfterDecision(s, id, decision, answers, written, now) == s;
    }
  }

  lemma AnswerPreserves(s: State, k: nat, now: Time)
    requires Inv(s) && k < |s.rec.approvals|
    ensures Inv(s.(rec := MarkApprovalWait(s.rec.(approvals := s.rec.approvals[..k] + s.rec.approvals[k + 1..]), now),
                   log := s.log.(answered := s.log.answered + [s.rec.approvals[k].serial])))
  {
    NumberedAfterAnswer(s.rec.approvals, s.log.answered, s.log.requests, k);
  }

  lemma AskPreserves(s: State, id: string, call: ToolCall, now: Time)
    requires Inv(s) && s.rec.busy
    ensures Inv(AfterAsk(s, id, call, now))
  {
    NumberedAfterAsking(s.rec.approvals, s.log.answered, s.log.requests, Approval(s.log.requests, id, id, call));
  }

  lemma TurnPreserves(s: State, w: Worker, t: Turn)
    requires Inv(s) && w in s.turns && t.prompt == s.turns[w].prompt && (t.Preparing? ==> s.turns[w].Preparing?)
    ensures Inv(s.(turns := s.turns[w := t]))
  {
  }

  lemma PublishPreserves(s: State, w: Worker)
    requires Inv(s) && Alive(s, w)
    ensures Inv(s.(rec := PublishInput(s.rec, w)))
  {
  }

  lemma StopPreserves(s: State, status: Status)
    requires Inv(s) && Terminal(status)
    ensures Inv(s.(rec := Stop(s.rec, status)))
    ensures Inv(s.(rec := CancelFromServer(s.rec)))
  {
  }

  lemma RequestPreserves(s: State, push: Option<Time>)
    requires Inv(s)
    ensures Inv(s.(rec := Interrupt(s.rec).0))
    ensures Inv(s.(rec := BeginShutdown(s.rec)))
    ensures Inv(s.(rec := HandleRunWaiting(s.rec, push).0))
  {
  }

  lemma InvPreserved(s: State, a: Action)
    requires Inv(s) && Enabled(s, a)
    ensures Inv(Step(s, a))
  {
    match a
    case Post(text, written) => PostPreserves(s, text, written);
    case Finish(w, now) => FinishPreserves(s, w, now);
    case PostApproval(id, decision, answers, written, now) => DecisionPreserves(s, id, decision, answers, written, now);
    case AskApproval(w, id, call, now) => AskPreserves(s, id, call, now);
    case PostInterrupt => RequestPreserves(s, None);
    case Restart => RequestPreserves(s, None);
    case RunWaiting(push) => RequestPreserves(s, push);
    case DesktopStop => StopPreserves(s, s.rec.endsAs);
    case StopConversations => StopPreserves(s, Canceled);
    case CancelRun => StopPreserves(s, Canceled);
    case Publish(w) =>
      PublishPreserves(s, w);
      TurnPreserves(s.(rec := PublishInput(s.rec, w)), w, Step(s, a).turns[w]);
    case _ => TurnPreserves(s, a.w, Step(s, a).turns[a.w]);
  }
}
