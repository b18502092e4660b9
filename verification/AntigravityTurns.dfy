/** Antigravity conversations: one process per turn, and a queue of which each turn takes one message.
    A turn whose process does not start, or does not take its prompt, gives up instead of closing. */
module AntigravityTurns {
  import opened Basics
  import opened ConversationRecord

  /** A goroutine of agyConversationTurn. Its process exists exactly while it is Live; told says the
      prompt was written (a local slash command carries its own). */
  datatype Turn =
    | Preparing(prompt: Message)
    | Begun(prompt: Message, slash: bool)
    | Live(prompt: Message, told: bool, signals: nat)
    | Failed(prompt: Message)
    | Reaped(prompt: Message)

  datatype History = History(admitted: seq<Message>, prompts: seq<Message>, dropped: seq<Message>)

  /** A turn's name is its place in prompts. Nothing here keeps two turns apart. */
  datatype State = State(rec: Record, turns: map<Worker, Turn>, log: History)

  datatype Action =
    | Post(text: string)
    | PostInterrupt
    | DesktopStop
    | StopConversations
    | CancelRun
    | RunWaiting(push: Option<Time>)
    | Restart
    | Begin(w: Worker, slash: bool, piped: bool)
    | Launch(w: Worker)
    | LaunchFailed(w: Worker)
    | TellPrompt(w: Worker)
    | PromptFailed(w: Worker)
    | Abandon(w: Worker)
    | Signal(w: Worker)
    | Exit(w: Worker)
    | Finish(w: Worker, now: Time)

  ghost predicate Initial(s: State) {
    && s.rec == Opened(Antigravity, s.rec.endsAs) && Terminal(s.rec.endsAs)
    && s.turns == map[] && s.log == History([], [], [])
  }

  predicate Alive(s: State, w: Worker) {
    w in s.turns && s.turns[w].Live?
  }

  predicate Enabled(s: State, a: Action) {
    match a
    case Begin(w, _, _) => w in s.turns && s.turns[w].Preparing?
    case Launch(w) => w in s.turns && s.turns[w].Begun?
    case LaunchFailed(w) => w in s.turns && s.turns[w].Begun?
    case TellPrompt(w) => Alive(s, w) && !s.turns[w].told
    case PromptFailed(w) => Alive(s, w) && !s.turns[w].told
    case Abandon(w) => w in s.turns && s.turns[w].Failed?
    case Signal(w) => Alive(s, w) && s.turns[w].told && (s.rec.canceled || s.rec.shuttingDown || s.rec.interrupted)
    case Exit(w) => Alive(s, w) && s.turns[w].told
    case Finish(w, _) => w in s.turns && s.turns[w].Reaped?
    case _ => true
  }

  /** go d.conversationTurn(run, message), or the turn's own call of itself with the next message. */
  function Spawn(s: State, m: Message): State {
    s.(turns := s.turns[|s.log.prompts| := Preparing(m)], log := s.log.(prompts := s.log.prompts + [m]))
  }

  function AfterPost(s: State, text: string): State {
    if s.rec.canceled || s.rec.shuttingDown then s
    else
      var m := Message(|s.log.admitted|, text);
      var t := s.(rec := AdmitMessage(s.rec, m, false).0, log := s.log.(admitted := s.log.admitted + [m]));
      if s.rec.busy then t else Spawn(t, m)
  }

  function AfterBegin(s: State, w: Worker, slash: bool, piped: bool): State
    requires w in s.turns
  {
    var (r, begun) := BeginAntigravity(s.rec, w, slash, piped);
    s.(rec := r, turns := if begun then s.turns[w := Begun(s.turns[w].prompt, slash)] else s.turns - {w})
  }

  function AfterFinish(s: State, w: Worker, now: Time): State {
    var (r, following) := FinishAntigravity(s.rec, now);
    var t := s.(rec := r, turns := s.turns - {w});
    if following.Some? then Spawn(t, following.value)
    else t.(log := s.log.(dropped := s.log.dropped + s.rec.next))
  }

  function Step(s: State, a: Action): State
    requires Enabled(s, a)
  {
    match a
    case Post(text) => AfterPost(s, text)
    case PostInterrupt => s.(rec := Interrupt(s.rec).0)
    case DesktopStop => s.(rec := Stop(s.rec, s.rec.endsAs))
    case StopConversations => s.(rec := Stop(s.rec, Canceled))
    case CancelRun => s.(rec := CancelFromServer(s.rec))
    case RunWaiting(push) => s.(rec := HandleRunWaiting(s.rec, push).0)
    case Restart => s.(rec := BeginShutdown(s.rec))
    case Begin(w, slash, piped) => AfterBegin(s, w, slash, piped)
    case Launch(w) => s.(turns := s.turns[w := Live(s.turns[w].prompt, s.turns[w].slash, 0)])
    case LaunchFailed(w) => s.(turns := s.turns[w := Failed(s.turns[w].prompt)])
    case TellPrompt(w) => s.(turns := s.turns[w := s.turns[w].(told := true)])
    case PromptFailed(w) => s.(turns := s.turns[w := Failed(s.turns[w].prompt)])
    case Abandon(w) => s.(rec := AbandonAntigravity(s.rec), turns := s.turns - {w})
    case Signal(w) => s.(turns := s.turns[w := s.turns[w].(signals := s.turns[w].signals + 1)])
    case Exit(w) => s.(turns := s.turns[w := Reaped(s.turns[w].prompt)])
    case Finish(w, now) => AfterFinish(s, w, now)
  }

  // ---- the invariant ----

  ghost predicate TurnsOK(s: State) {
    && s.rec.provider.Antigravity? && s.rec.codex.None? && s.rec.approvals == [] && !s.rec.ownMark
    && (forall w :: w in s.turns ==> w + 1 == |s.log.prompts| && s.turns[w].prompt == s.log.prompts[w])
    && (s.rec.busy <==> s.turns != map[])
  }

  ghost predicate StopOK(s: State) {
    && Terminal(s.rec.endsAs)
    && (s.rec.exited ==> s.rec.canceled && !s.rec.busy && Terminal(s.rec.status))
    && (!s.rec.exited ==> s.rec.status.Running?)
    && (s.rec.shuttingDown ==> s.rec.exited)
  }

  /** Every admitted message is in a turn, in the queue or dropped; the queue is in admission order, and
      a turn's message is older than the queue for as long as no turn has overtaken it. */
  ghost predicate Accounts(prompts: seq<Message>, next: seq<Message>, dropped: seq<Message>, admitted: seq<Message>) {
    && multiset(prompts) + multiset(next) + multiset(dropped) == multiset(admitted)
    && Ascending(next)
    && (forall i :: 0 <= i < |admitted| ==> admitted[i].number == i)
    && (forall m :: m in next || m in prompts ==> m.number < |admitted|)
  }

  predicate Ascending(messages: seq<Message>) {
    forall i, j :: 0 <= i < j < |messages| ==> messages[i].number < messages[j].number
  }

  ghost predicate Inv(s: State) {
    TurnsOK(s) && StopOK(s) && Accounts(s.log.prompts, s.rec.next, s.log.dropped, s.log.admitted)
  }

  lemma AccountsAdmitted(prompts: seq<Message>, next: seq<Message>, dropped: seq<Message>, admitted: seq<Message>,
                         m: Message)
    requires Accounts(prompts, next, dropped, admitted) && m.number == |admitted|
    ensures Accounts(prompts, next + [m], dropped, admitted + [m])
    ensures Accounts(prompts + [m], next, dropped, admitted + [m])
  {
    assert multiset(admitted + [m]) == multiset(admitted) + multiset{m};
  }

  lemma AccountsTaken(prompts: seq<Message>, next: seq<Message>, dropped: seq<Message>, admitted: seq<Message>)
    requires Accounts(prompts, next, dropped, admitted) && next != []
    ensures Accounts(prompts + [next[0]], next[1..], dropped, admitted)
  {
    assert next == [next[0]] + next[1..];
  }

  lemma AccountsDropped(prompts: seq<Message>, next: seq<Message>, dropped: seq<Message>, admitted: seq<Message>)
    requires Accounts(prompts, next, dropped, admitted)
    ensures Accounts(prompts, [], dropped + next, admitted)
  {
  }

  lemma PostPreserves(s: State, text: string)
    requires Inv(s)
    ensures Inv(AfterPost(s, text))
  {
    if !s.rec.canceled && !s.rec.shuttingDown {
      AccountsAdmitted(s.log.prompts, s.rec.next, s.log.dropped, s.log.admitted, Message(|s.log.admitted|, text));
      if !s.rec.busy {
        StartedPreserves(s, text);
      }
    }
  }

  lemma StartedPreserves(s: State, text: string)
    requires Inv(s) && !s.rec.busy && !s.rec.canceled && !s.rec.shuttingDown
    requires var m := Message(|s.log.admitted|, text);
             Accounts(s.log.prompts + [m], s.rec.next, s.log.dropped, s.log.admitted + [m])
    ensures Inv(AfterPost(s, text))
  {
    assert |s.log.prompts| in AfterPost(s, text).turns;
  }

  lemma FinishPreserves(s: State, w: Worker, now: Time)
    requires Inv(s) && w in s.turns && s.turns[w].Reaped?
    ensures Inv(AfterFinish(s, w, now))
  {
    assert s.turns - {w} == map[];
    if s.rec.next != [] {
      AccountsTaken(s.log.prompts, s.rec.next, s.log.dropped, s.log.admitted);
      assert |s.log.prompts| in Spawn(s, s.rec.next[0]).turns;
    }
    assert AfterFinish(s, w, now).rec.busy ==> |s.log.prompts| in AfterFinish(s, w, now).turns;
    AccountsDropped(s.log.prompts, s.rec.next, s.log.dropped, s.log.admitted);
  }

  lemma GiveUpPreserves(s: State, w: Worker, slash: bool, piped: bool)
    requires Inv(s) && w in s.turns
    ensures Inv(AfterBegin(s, w, slash, piped))
    ensures Inv(s.(rec := AbandonAntigravity(s.rec), turns := s.turns - {w}))
  {
    assert s.turns - {w} == map[];
  }

  lemma RequestPreserves(s: State, status: Status, push: Option<Time>)
    requires Inv(s) && Terminal(status)
    ensures Inv(s.(rec := Stop(s.rec, status))) && Inv(s.(rec := CancelFromServer(s.rec)))
    ensures Inv(s.(rec := Interrupt(s.rec).0)) && Inv(s.(rec := BeginShutdown(s.rec)))
    ensures Inv(s.(rec := HandleRunWaiting(s.rec, push).0))
  {
  }

  lemma InvPreserved(s: State, a: Action)
    requires Inv(s) && Enabled(s, a)
    ensures Inv(Step(s, a))
  {
    match a
    case Post(text) => PostPreserves(s, text);
    case Begin(w, slash, piped) => GiveUpPreserves(s, w, slash, piped);
    case Abandon(w) => GiveUpPreserves(s, w, true, true);
    case Finish(w, now) => FinishPreserves(s, w, now);
    case RunWaiting(push) => RequestPreserves(s, Canceled, push);
    case PostInterrupt | DesktopStop | StopConversations | CancelRun | Restart =>
      RequestPreserves(s, if a.DesktopStop? then s.rec.endsAs else Canceled, None);
    case _ =>
  }
}
