/** Codex conversations: one persistent supervisor, whose app-server takes messages by turn/start and
    turn/steer. Each action is a section under the queue lock, a request or its reply, what the
    app-server reads or announces, or an event of its process. */
module CodexSupervisor {
  import opened Basics
  import opened Approvals
  import opened ConversationRecord
  import opened ApprovalNumbers
  import Ledger = DeliveryLedger

  type TurnId = nat

  // ---- attempts to hand a batch of messages over ----

  datatype Kind = Steer(expected: TurnId) | Start

  /** What the app-server did with an attempt: not read it yet, take it, refuse it, or never see it. */
  datatype Fate = InFlight | Taken | Refused | NeverSent

  datatype Attempt = Attempt(batch: seq<Message>, kind: Kind, fate: Fate, requeued: bool)

  /** A message is only attempted again after an attempt that was put back; pending are the messages
      that may still be attempted. */
  ghost predicate Attempts(sent: seq<Attempt>, pending: seq<Message>, bound: nat) {
    && (forall i :: 0 <= i < |sent| && sent[i].requeued ==> sent[i].fate.Refused? && sent[i].kind.Steer?)
    && (forall i, m :: 0 <= i < |sent| && m in sent[i].batch && m in pending ==> sent[i].requeued)
    && (forall i, j, m :: 0 <= i < j < |sent| && m in sent[i].batch && m in sent[j].batch ==> sent[i].requeued)
    && (forall i, m :: 0 <= i < |sent| && m in sent[i].batch ==> m.number < bound)
  }

  lemma AttemptsNarrow(sent: seq<Attempt>, pending: seq<Message>, fewer: seq<Message>, bound: nat)
    requires Attempts(sent, pending, bound) && forall m :: m in fewer ==> m in pending
    ensures Attempts(sent, fewer, bound)
  {
  }

  lemma AttemptsAdmit(sent: seq<Attempt>, pending: seq<Message>, m: Message)
    requires Attempts(sent, pending, m.number)
    ensures Attempts(sent, pending + [m], m.number + 1)
  {
  }

  lemma AttemptsSend(sent: seq<Attempt>, pending: seq<Message>, rest: seq<Message>, a: Attempt, bound: nat)
    requires Attempts(sent, pending, bound) && !a.requeued
    requires forall m :: m in a.batch ==> m in pending && m !in rest && m.number < bound
    requires forall m :: m in rest ==> m in pending
    ensures Attempts(sent + [a], rest, bound)
  {
  }

  lemma AttemptsJudge(sent: seq<Attempt>, pending: seq<Message>, bound: nat, n: nat, fate: Fate)
    requires Attempts(sent, pending, bound) && n < |sent| && !sent[n].requeued
    ensures Attempts(sent[n := sent[n].(fate := fate)], pending, bound)
  {
  }

  lemma AttemptsRequeue(sent: seq<Attempt>, pending: seq<Message>, bound: nat)
    requires Attempts(sent, pending, bound) && sent != []
    requires sent[|sent| - 1].fate.Refused? && sent[|sent| - 1].kind.Steer?
    ensures var n := |sent| - 1; Attempts(sent[n := sent[n].(requeued := true)], sent[n].batch + pending, bound)
  {
  }

  // ---- the machine ----

  /** Where a supervisor's goroutine is. */
  datatype Stage =
    | Initializing
    | Cataloguing
    | Looping
    | IdleInterrupted
    | Interrupting
    | Steering(n: nat, batch: seq<Message>, expected: TurnId)
    | BeginningTurn(batch: seq<Message>)
    | StartingTurn(n: nat, batch: seq<Message>)
    | Closing

  /** A goroutine of codexConversationTurn. Its process exists exactly while it is Supervising and
      alive; turn is state.turnID, asked whether turn/interrupt was requested. */
  datatype Goroutine =
    | Entering
    | Starting
    | Supervising(stage: Stage, turn: Option<TurnId>, asked: bool, alive: bool, signals: nat)
    | Ending

  /** A request the app-server has not read yet. */
  datatype Request = Request(n: nat, batch: seq<Message>)

  datatype History = History(
    admitted: seq<Message>, sent: seq<Attempt>, accepted: seq<Message>, lost: seq<Message>,
    asked: seq<CodexRequest>, answered: seq<nat>)

  /** held are the messages the supervisor took that are neither on the app-server's stdin nor accepted.
      Nothing here keeps two supervisors apart. */
  datatype State = State(
    rec: Record, workers: map<Worker, Goroutine>, spawned: nat, wire: seq<Request>, held: seq<Message>, log: History)

  datatype Outcome = Done | Refusal | Unclear

  datatype Action =
    | Post(text: string)
    | PostInterrupt
    | PostApproval(id: string, decision: string, answers: map<string, string>, written: bool, now: Time)
    | DesktopStop
    | StopConversations
    | CancelRun
    | RunWaiting(push: Option<Time>)
    | Restart
    | Probe
    | Enter(w: Worker)
    | StartFails(w: Worker)
    | StartSucceeds(w: Worker)
    | Initialized(w: Worker)
    | InitializeFails(w: Worker)
    | Catalogued(w: Worker)
    | Tick(w: Worker, delivered: bool)
    | GraceOver(w: Worker)
    | ClearInterrupt(w: Worker)
    | InterruptReplied(w: Worker, confirmed: bool)
    | SteerReplied(w: Worker, outcome: Outcome)
    | BeginTurn(w: Worker, delivered: bool)
    | StartReplied(w: Worker, outcome: Outcome)
    | ServerReads(accepts: bool)
    | ServerStarted(w: Worker, turn: Option<TurnId>)
    | ServerCompleted(w: Worker, turn: Option<TurnId>, now: Time)
    | ServerAsks(w: Worker, id: string, requestID: string, request: CodexRequest, call: ToolCall, now: Time)
    | ServerResolved(w: Worker, requestID: string, now: Time)
    | Watch(w: Worker)
    | ProcessDies(w: Worker)
    | SeesExit(w: Worker)
    | Reaped(w: Worker)
    | End(w: Worker, now: Time)

  ghost predicate Initial(s: State) {
    && s.rec == Opened(Codex, s.rec.endsAs)
    && Terminal(s.rec.endsAs)
    && s.workers == map[] && s.spawned == 0 && s.wire == [] && s.held == []
    && s.log == History([], [], [], [], [], [])
  }

  predicate Supervises(s: State, w: Worker) {
    w in s.workers && s.workers[w].Supervising?
  }

  predicate Alive(s: State, w: Worker) {
    Supervises(s, w) && s.workers[w].alive
  }

  predicate At(s: State, w: Worker, stage: Stage) {
    Supervises(s, w) && s.workers[w].stage == stage
  }

  /** A write reaches the app-server only while the record points at its stdin and it was not closed. */
  predicate Writable(s: State) {
    s.rec.input.Some? && Alive(s, s.rec.input.value) && !s.workers[s.rec.input.value].stage.Closing?
  }

  /** A caller is told what the app-server did, or learns nothing: a timeout, an exit or a failed write. */
  predicate Tells(s: State, n: nat, outcome: Outcome) {
    && n < |s.log.sent|
    && (outcome.Done? ==> s.log.sent[n].fate.Taken?)
    && (outcome.Refusal? ==> s.log.sent[n].fate.Refused?)
  }

  ghost predicate Enabled(s: State, a: Action) {
    match a
    case PostApproval(_, _, _, written, _) => written ==> Writable(s)
    case Probe => !s.rec.canceled
    case Enter(w) => w in s.workers && s.workers[w].Entering?
    case StartFails(w) => w in s.workers && s.workers[w].Starting?
    case StartSucceeds(w) => w in s.workers && s.workers[w].Starting?
    case Initialized(w) => At(s, w, Initializing)
    case InitializeFails(w) => At(s, w, Initializing)
    case Catalogued(w) => At(s, w, Cataloguing)
    case Tick(w, delivered) => At(s, w, Looping) && (delivered ==> s.workers[w].alive)
    case GraceOver(w) => At(s, w, Looping) && s.rec.interrupted && s.workers[w].asked && s.workers[w].turn.Some?
    case ClearInterrupt(w) => At(s, w, IdleInterrupted)
    case InterruptReplied(w, _) => At(s, w, Interrupting)
    case SteerReplied(w, outcome) => Supervises(s, w) && s.workers[w].stage.Steering?
        && Tells(s, s.workers[w].stage.n, outcome)
    case BeginTurn(w, delivered) => Supervises(s, w) && s.workers[w].stage.BeginningTurn?
        && (delivered ==> s.workers[w].alive)
    case StartReplied(w, outcome) => Supervises(s, w) && s.workers[w].stage.StartingTurn?
        && Tells(s, s.workers[w].stage.n, outcome)
    case ServerReads(_) => s.wire != []
    case ServerStarted(w, _) => Alive(s, w)
    case ServerCompleted(w, _, _) => Alive(s, w)
    case ServerAsks(w, _, _, request, call, _) => Alive(s, w) && BuiltFrom(request, call)
    case ServerResolved(w, _, _) => Alive(s, w)
    case Watch(w) => Alive(s, w) && (s.rec.canceled || s.workers[w].stage.Closing?)
    case ProcessDies(w) => Alive(s, w)
    case SeesExit(w) => At(s, w, Looping) && !s.workers[w].alive
    case Reaped(w) => At(s, w, Closing) && !s.workers[w].alive
    case End(w, _) => w in s.workers && s.workers[w].Ending?
    case _ => true
  }

  function Spawn(s: State): State {
    s.(workers := s.workers[s.spawned := Entering], spawned := s.spawned + 1)
  }

  function WithStage(s: State, w: Worker, stage: Stage): State
    requires Supervises(s, w)
  {
    s.(workers := s.workers[w := s.workers[w].(stage := stage)])
  }

  function Lose(s: State, messages: seq<Message>): State {
    s.(log := s.log.(lost := s.log.lost + messages))
  }

  function AfterPost(s: State, text: string): State {
    if s.rec.canceled || s.rec.shuttingDown then s
    else
      var m := Message(|s.log.admitted|, text);
      var (r, admission, _) := AdmitMessage(s.rec, m, false);
      var t := s.(rec := r, log := s.log.(admitted := s.log.admitted + [m]));
      if admission.Started? then Spawn(t) else t
  }

  function AfterInterrupt(s: State): State {
    if s.rec.busy then Lose(s.(rec := Interrupt(s.rec).0), s.rec.next) else s
  }

  ghost function AfterDecision(s: State, id: string, decision: string, answers: map<string, string>, written: bool,
                               now: Time): State {
    var (r, verdict) := DecideApproval(s.rec, id, decision, answers, written, now);
    s.(rec := r,
       log := if verdict.Answered? then s.log.(answered := s.log.answered + [verdict.approval.serial]) else s.log)
  }

  function AfterEnter(s: State, w: Worker): State
    requires w in s.workers
  {
    var (r, entry) := EnterCodex(s.rec, w);
    s.(rec := r, workers := if entry.Supervise? then s.workers[w := Starting] else s.workers - {w})
  }

  /** The batch goes out as a request, or the write fails. */
  function SendBatch(s: State, w: Worker, batch: seq<Message>, kind: Kind, delivered: bool): State
    requires Supervises(s, w)
  {
    var n := |s.log.sent|;
    var a := Attempt(batch, kind, if delivered then InFlight else NeverSent, false);
    WithStage(s, w, if kind.Steer? then Steering(n, batch, kind.expected) else StartingTurn(n, batch)).(
      wire := if delivered then s.wire + [Request(n, batch)] else s.wire,
      held := if delivered then [] else batch,
      log := s.log.(sent := s.log.sent + [a]))
  }

  /** One pass of the supervisor's loop. */
  function AfterTick(s: State, w: Worker, delivered: bool): State
    requires At(s, w, Looping)
  {
    var g := s.workers[w];
    var (r, batch) := TickCodex(s.rec);
    var t := s.(rec := r);
    if r.canceled then Lose(WithStage(t, w, Closing), batch)
    else if r.interrupted then
      if g.turn.None? then WithStage(t, w, IdleInterrupted)
      else if !g.asked then t.(workers := t.workers[w := g.(stage := Interrupting, asked := true)])
      else t
    else
      var u := t.(workers := t.workers[w := g.(asked := false)]);
      if batch == [] then u
      else if g.turn.Some? then SendBatch(u, w, batch, Steer(g.turn.value), delivered)
      else WithStage(u, w, BeginningTurn(batch)).(held := batch)
  }

  /** Only a refusal of a turn that has ended puts the messages back; anything else gives them up. */
  function AfterSteerReply(s: State, w: Worker, outcome: Outcome): State
    requires Supervises(s, w) && s.workers[w].stage.Steering? && Tells(s, s.workers[w].stage.n, outcome)
  {
    var g := s.workers[w];
    var t := WithStage(s, w, Looping).(held := []);
    if outcome.Done? then t
    else
      var ended := outcome.Refusal? && g.turn != Some(g.stage.expected);
      var u := t.(rec := AfterSteer(t.rec, g.stage.batch, ended));
      if ended then u.(log := u.log.(sent := u.log.sent[g.stage.n := u.log.sent[g.stage.n].(requeued := true)]))
      else Lose(u, s.held)
  }

  function AfterStartReply(s: State, w: Worker, outcome: Outcome): State
    requires Supervises(s, w) && s.workers[w].stage.StartingTurn?
  {
    var t := Lose(WithStage(s, w, if outcome.Unclear? then Closing else Looping).(held := []), s.held);
    if outcome.Refusal? then t.(rec := RefuseCodexTurn(t.rec)) else t
  }

  /** Whether the supervisor is still waiting for the reply to attempt n. */
  predicate Awaits(s: State, n: nat) {
    && s.rec.codex.Some? && Supervises(s, s.rec.codex.value)
    && var stage := s.workers[s.rec.codex.value].stage;
       (stage.Steering? || stage.StartingTurn?) && stage.n == n
  }

  /** The app-server reads its stdin in order. A refusal nobody waits for is lost. */
  function AfterServerReads(s: State, accepts: bool): State
    requires s.wire != [] && s.wire[0].n < |s.log.sent|
  {
    var request := s.wire[0];
    var n := request.n;
    var t := s.(wire := s.wire[1..],
                log := s.log.(sent := s.log.sent[n := s.log.sent[n].(fate := if accepts then Taken else Refused)]));
    if accepts then t.(log := t.log.(accepted := t.log.accepted + request.batch))
    else if Awaits(s, n) then t.(held := request.batch)
    else Lose(t, request.batch)
  }

  function AfterServerStarted(s: State, w: Worker, turn: Option<TurnId>): State
    requires Supervises(s, w)
  {
    if !Listening(s.rec, w) then s
    else s.(rec := TurnStarted(s.rec), workers := s.workers[w := s.workers[w].(turn := turn)])
  }

  function AfterServerCompleted(s: State, w: Worker, turn: Option<TurnId>, now: Time): State
    requires Supervises(s, w)
  {
    if !Listening(s.rec, w) || (s.workers[w].turn.Some? && s.workers[w].turn != turn) then s
    else s.(rec := TurnCompleted(s.rec, now), workers := s.workers[w := s.workers[w].(turn := None)])
  }

  function AfterServerAsks(s: State, w: Worker, id: string, requestID: string, request: CodexRequest, call: ToolCall,
                           now: Time): State {
    if !Listening(s.rec, w) then s
    else s.(rec := RequestApproval(s.rec, Approval(|s.log.asked|, id, requestID, call), now),
            log := s.log.(asked := s.log.asked + [request]))
  }

  function WireMessages(wire: seq<Request>): seq<Message> {
    if wire == [] then [] else WireMessages(wire[..|wire| - 1]) + wire[|wire| - 1].batch
  }

  function AfterProcessDies(s: State, w: Worker): State
    requires Supervises(s, w)
  {
    Lose(s.(workers := s.workers[w := s.workers[w].(alive := false)], wire := []), WireMessages(s.wire))
  }

  function AfterEnd(s: State, w: Worker, now: Time): State {
    Lose(s.(rec := EndCodex(s.rec, w, now), workers := s.workers - {w}),
         if s.rec.codex == Some(w) then s.rec.next else [])
  }

  /** The part of Enabled a state function needs to be defined. */
  predicate Readable(s: State) {
    s.wire != [] ==> s.wire[0].n < |s.log.sent|
  }

  ghost function Step(s: State, a: Action): State
    requires Enabled(s, a) && Readable(s)
  {
    match a
    case Post(text) => AfterPost(s, text)
    case PostInterrupt => AfterInterrupt(s)
    case PostApproval(id, decision, answers, written, now) => AfterDecision(s, id, decision, answers, written, now)
    case DesktopStop => s.(rec := Stop(s.rec, s.rec.endsAs))
    case StopConversations => s.(rec := Stop(s.rec, Canceled))
    case CancelRun => s.(rec := CancelFromServer(s.rec))
    case RunWaiting(push) => s.(rec := HandleRunWaiting(s.rec, push).0)
    case Restart => s.(rec := BeginShutdown(s.rec))
    case Probe => Spawn(s)
    case Enter(w) => AfterEnter(s, w)
    case StartFails(w) => s.(workers := s.workers[w := Ending])
    case StartSucceeds(w) => s.(workers := s.workers[w := Supervising(Initializing, None, false, true, 0)])
    case Initialized(w) => WithStage(s, w, Cataloguing).(rec := PublishInput(s.rec, w))
    case InitializeFails(w) => WithStage(s, w, Closing)
    case Catalogued(w) => WithStage(s, w, Looping)
    case Tick(w, delivered) => AfterTick(s, w, delivered)
    case GraceOver(w) => WithStage(s, w, Closing)
    case ClearInterrupt(w) => s.(rec := ClearIdleInterrupt(s.rec),
                                 workers := s.workers[w := s.workers[w].(stage := Looping, asked := false)])
    case InterruptReplied(w, confirmed) => WithStage(s, w, if confirmed then Looping else Closing)
    case SteerReplied(w, outcome) => AfterSteerReply(s, w, outcome)
    case BeginTurn(w, delivered) =>
      SendBatch(s.(rec := BeginCodexTurn(s.rec)), w, s.workers[w].stage.batch, Start, delivered)
    case StartReplied(w, outcome) => AfterStartReply(s, w, outcome)
    case ServerReads(accepts) => AfterServerReads(s, accepts)
    case ServerStarted(w, turn) => AfterServerStarted(s, w, turn)
    case ServerCompleted(w, turn, now) => AfterServerCompleted(s, w, turn, now)
    case ServerAsks(w, id, requestID, request, call, now) => AfterServerAsks(s, w, id, requestID, request, call, now)
    case ServerResolved(w, requestID, now) =>
      if Listening(s.rec, w) then s.(rec := RequestResolved(s.rec, requestID, now)) else s
    case Watch(w) => s.(workers := s.workers[w := s.workers[w].(signals := s.workers[w].signals + 1)])
    case ProcessDies(w) => AfterProcessDies(s, w)
    case SeesExit(w) => WithStage(s, w, Closing)
    case Reaped(w) => s.(workers := s.workers[w := Ending])
    case End(w, now) => AfterEnd(s, w, now)
  }

  // ---- the invariant ----

  /** The record's codex is the token of the only goroutine past its entry. */
  ghost predicate TokenOK(s: State) {
    && s.rec.provider.Codex?
    && (forall w :: w in s.workers ==> w < s.spawned)
    && (forall w :: w in s.workers && !s.workers[w].Entering? ==> s.rec.codex == Some(w))
    && (s.rec.codex.Some? ==> s.rec.codex.value in s.workers && !s.workers[s.rec.codex.value].Entering?)
    && (s.rec.input.Some? ==> s.rec.codex == s.rec.input)
    && (s.rec.busy && s.rec.codex.None? ==> SomeoneEnters(s))
  }

  ghost predicate SomeoneEnters(s: State) {
    exists w :: w in s.workers && s.workers[w].Entering?
  }

  ghost predicate StopOK(s: State) {
    && Terminal(s.rec.endsAs)
    && (s.rec.exited ==> s.rec.canceled && !s.rec.busy && s.rec.codex.None? && Terminal(s.rec.status))
    && (!s.rec.exited ==> s.rec.status.Running?)
    && (s.rec.shuttingDown ==> s.rec.exited)
  }

  /** What the supervisor holds agrees with where it is and with what became of its last attempt. */
  ghost predicate HoldsOK(stage: Stage, held: seq<Message>, sent: seq<Attempt>, wire: seq<Request>, alive: bool) {
    match stage
    case BeginningTurn(batch) => held == batch
    case Steering(n, batch, expected) => AwaitsLast(n, batch, held, sent, wire, alive)
        && sent[n].kind == Steer(expected)
    case StartingTurn(n, batch) => AwaitsLast(n, batch, held, sent, wire, alive) && sent[n].kind.Start?
    case _ => held == []
  }

  ghost predicate AwaitsLast(n: nat, batch: seq<Message>, held: seq<Message>, sent: seq<Attempt>, wire: seq<Request>,
                             alive: bool) {
    && n + 1 == |sent| && sent[n].batch == batch && !sent[n].requeued
    && held == (if sent[n].fate.Refused? || sent[n].fate.NeverSent? then batch else [])
    && (sent[n].fate.Refused? || sent[n].fate.Taken? ==> wire == [])
  }

  /** Requests wait on the stdin of a live process in the order they were sent, and are unread. */
  ghost predicate WireOK(wire: seq<Request>, sent: seq<Attempt>) {
    && (forall i :: 0 <= i < |wire| ==>
        wire[i].n < |sent| && sent[wire[i].n].batch == wire[i].batch && sent[wire[i].n].fate.InFlight?)
    && (forall i, j :: 0 <= i < j < |wire| ==> wire[i].n < wire[j].n)
  }

  ghost predicate StageOK(s: State) {
    && WireOK(s.wire, s.log.sent)
    && (if s.rec.codex.Some? && Supervises(s, s.rec.codex.value) then
          var g := s.workers[s.rec.codex.value];
          HoldsOK(g.stage, s.held, s.log.sent, s.wire, g.alive) && (!g.alive ==> s.wire == [])
        else s.held == [] && s.wire == [])
  }

  /** The messages that may still be attempted. */
  function Pending(s: State): seq<Message> {
    (if s.rec.codex.Some? && Supervises(s, s.rec.codex.value) && s.workers[s.rec.codex.value].stage.BeginningTurn?
     then s.held else [])
    + s.rec.next
  }

  ghost predicate DeliveryOK(s: State) {
    && Ledger.Ledger(s.log.accepted, WireMessages(s.wire), s.held, s.rec.next, s.log.lost, s.log.admitted)
    && Attempts(s.log.sent, Pending(s), |s.log.admitted|)
  }

  /** Every pending call is what codexApproval made of its request. */
  ghost predicate AllBuilt(approvals: seq<Approval>, asked: seq<CodexRequest>) {
    forall a :: a in approvals ==> a.serial < |asked| && BuiltFrom(asked[a.serial], a.call)
  }

  ghost predicate CallsOK(s: State) {
    && Numbered(s.rec.approvals, s.log.answered, |s.log.asked|)
    && AllBuilt(s.rec.approvals, s.log.asked)
    && (s.rec.codex.None? ==> s.rec.approvals == [])
    && (s.rec.ownMark ==> s.rec.approvals != [])
  }

  ghost predicate Inv(s: State) {
    TokenOK(s) && StopOK(s) && StageOK(s) && DeliveryOK(s) && CallsOK(s)
  }

  // ---- each action keeps it ----

  lemma WireAppend(wire: seq<Request>, last: Request)
    ensures WireMessages(wire + [last]) == WireMessages(wire) + last.batch
  {
    assert (wire + [last])[..|wire|] == wire;
  }

  lemma {:induction false} WireHead(wire: seq<Request>)
    requires wire != []
    ensures WireMessages(wire) == wire[0].batch + WireMessages(wire[1..])
  {
    if |wire| > 1 {
      WireHead(wire[..|wire| - 1]);
      assert wire[..|wire| - 1][1..] == wire[1..][..|wire| - 2];
    }
  }

  /** A goroutine moves on, holding and attempting nothing new. */
  lemma WorkerPreserves(s: State, w: Worker, g: Goroutine)
    requires Inv(s) && w in s.workers && !s.workers[w].Entering? && !g.Entering?
    requires StageOK(s.(workers := s.workers[w := g])) && Pending(s.(workers := s.workers[w := g])) == Pending(s)
    ensures Inv(s.(workers := s.workers[w := g]))
  {
    if SomeoneEnters(s) {
      var e :| e in s.workers && s.workers[e].Entering?;
      assert s.workers[w := g][e].Entering?;
    }
  }

  /** A section that leaves the token, the queue and the calls alone. */
  lemma RecPreserves(s: State, r: Record)
    requires Inv(s) && TokenOK(s.(rec := r)) && StopOK(s.(rec := r))
    requires r.codex == s.rec.codex && r.next == s.rec.next && r.approvals == s.rec.approvals
             && r.ownMark == s.rec.ownMark
    ensures Inv(s.(rec := r))
  {
  }

  lemma StopPreserves(s: State, status: Status)
    requires Inv(s) && Terminal(status)
    ensures Inv(s.(rec := Stop(s.rec, status))) && Inv(s.(rec := CancelFromServer(s.rec)))
  {
    RecPreserves(s, Stop(s.rec, status));
    RecPreserves(s, CancelFromServer(s.rec));
  }

  lemma ShutdownPreserves(s: State)
    requires Inv(s)
    ensures Inv(s.(rec := BeginShutdown(s.rec)))
  {
    RecPreserves(s, BeginShutdown(s.rec));
  }

  lemma WaitingPreserves(s: State, push: Option<Time>)
    requires Inv(s)
    ensures Inv(s.(rec := HandleRunWaiting(s.rec, push).0))
  {
    var r := HandleRunWaiting(s.rec, push).0;
    var marked := s.rec.(waitingSince := r.waitingSince, answeredAt := r.answeredAt);
    assert r == marked;
    RecPreserves(s, marked);
  }

  lemma SpawnPreserves(s: State)
    requires Inv(s)
    ensures Inv(Spawn(s)) && SomeoneEnters(Spawn(s))
  {
    assert Spawn(s).workers[s.spawned].Entering?;
  }

  lemma AdmitPreserves(s: State, m: Message)
    requires Inv(s) && m.number == |s.log.admitted|
    ensures Inv(s.(rec := s.rec.(next := s.rec.next + [m]), log := s.log.(admitted := s.log.admitted + [m])))
  {
    Ledger.Admitted(s.log.accepted, WireMessages(s.wire), s.held, s.rec.next, s.log.lost, s.log.admitted, m);
    AttemptsAdmit(s.log.sent, Pending(s), m);
    var t := s.(rec := s.rec.(next := s.rec.next + [m]), log := s.log.(admitted := s.log.admitted + [m]));
    assert Pending(t) == Pending(s) + [m];
  }

  lemma AnswerPreserves(s: State)
    requires Inv(s)
    ensures Inv(s.(rec := AnswerDeclaredWait(s.rec).0))
  {
    RecPreserves(s, AnswerDeclaredWait(s.rec).0);
  }

  lemma PostPreserves(s: State, text: string)
    requires Inv(s)
    ensures Inv(AfterPost(s, text))
  {
    if !s.rec.canceled && !s.rec.shuttingDown {
      var m := Message(|s.log.admitted|, text);
      AnswerPreserves(s);
      var a := s.(rec := AnswerDeclaredWait(s.rec).0);
      AdmitPreserves(a, m);
      var t := a.(rec := a.rec.(next := a.rec.next + [m]), log := a.log.(admitted := a.log.admitted + [m]));
      if s.rec.busy {
        assert AfterPost(s, text) == t;
      } else {
        SpawnPreserves(t);
        BusyPreserves(Spawn(t));
        assert AfterPost(s, text) == Spawn(t).(rec := t.rec.(busy := true));
      }
    }
  }

  lemma BusyPreserves(s: State)
    requires Inv(s) && !s.rec.canceled && (s.rec.codex.Some? || SomeoneEnters(s))
    ensures Inv(s.(rec := s.rec.(busy := true)))
  {
    RecPreserves(s, s.rec.(busy := true));
  }

  lemma InterruptPreserves(s: State)
    requires Inv(s)
    ensures Inv(AfterInterrupt(s))
  {
    Ledger.NextLost(s.log.accepted, WireMessages(s.wire), s.held, s.rec.next, s.log.lost, s.log.admitted);
    AttemptsNarrow(s.log.sent, Pending(s), Pending(AfterInterrupt(s)), |s.log.admitted|);
  }

  lemma CallsPreserve(s: State, r: Record, asked: seq<CodexRequest>, answered: seq<nat>)
    requires Inv(s) && r == s.rec.(approvals := r.approvals, ownMark := r.ownMark, waitingSince := r.waitingSince)
    requires Numbered(r.approvals, answered, |asked|) && AllBuilt(r.approvals, asked)
    requires (r.codex.None? ==> r.approvals == []) && (r.ownMark ==> r.approvals != [])
    ensures Inv(s.(rec := r, log := s.log.(asked := asked, answered := answered)))
  {
  }

  lemma Undecided(s: State, id: string, decision: string, answers: map<string, string>, written: bool, now: Time)
    requires !DecideApproval(s.rec, id, decision, answers, written, now).1.Answered?
    ensures AfterDecision(s, id, decision, answers, written, now) == s
  {
  }

  lemma FewerBuilt(approvals: seq<Approval>, fewer: seq<Approval>, asked: seq<CodexRequest>)
    requires AllBuilt(approvals, asked) && forall a :: a in fewer ==> a in approvals
    ensures AllBuilt(fewer, asked)
  {
  }

  lemma AnsweredPreserves(s: State, k: nat, now: Time)
    requires Inv(s) && k < |s.rec.approvals|
    ensures Inv(s.(rec := MarkApprovalWait(s.rec.(approvals := s.rec.approvals[..k] + s.rec.approvals[k + 1..]), now),
                   log := s.log.(answered := s.log.answered + [s.rec.approvals[k].serial])))
  {
    var left := s.rec.approvals[..k] + s.rec.approvals[k + 1..];
    NumberedAfterAnswer(s.rec.approvals, s.log.answered, |s.log.asked|, k);
    FewerBuilt(s.rec.approvals, left, s.log.asked);
    CallsLeft(s, left, s.log.answered + [s.rec.approvals[k].serial], now);
  }

  lemma CallsLeft(s: State, left: seq<Approval>, answered: seq<nat>, now: Time)
    requires Inv(s) && Numbered(left, answered, |s.log.asked|) && AllBuilt(left, s.log.asked)
    requires s.rec.approvals == [] ==> left == []
    ensures Inv(s.(rec := MarkApprovalWait(s.rec.(approvals := left), now), log := s.log.(answered := answered)))
  {
    CallsPreserve(s, MarkApprovalWait(s.rec.(approvals := left), now), s.log.asked, answered);
  }

  lemma DecisionPreserves(s: State, id: string, decision: string, answers: map<string, string>, written: bool,
                          now: Time)
    requires Inv(s)
    ensures Inv(AfterDecision(s, id, decision, answers, written, now))
  {
    var verdict := DecideApproval(s.rec, id, decision, answers, written, now).1;
    if verdict.Answered? {
      AnsweredPreserves(s, FirstWithID(s.rec.approvals, id).value, now);
    } else {
      Undecided(s, id, decision, answers, written, now);
    }
  }

  lemma OneMoreBuilt(approvals: seq<Approval>, asked: seq<CodexRequest>, a: Approval, request: CodexRequest)
    requires AllBuilt(approvals, asked) && a.serial == |asked| && BuiltFrom(request, a.call)
    ensures AllBuilt(approvals + [a], asked + [request])
  {
  }

  lemma OneMorePreserves(s: State, a: Approval, request: CodexRequest, now: Time)
    requires Inv(s) && s.rec.codex.Some? && a.serial == |s.log.asked| && BuiltFrom(request, a.call)
    ensures Inv(s.(rec := RequestApproval(s.rec, a, now), log := s.log.(asked := s.log.asked + [request])))
  {
    var r := RequestApproval(s.rec, a, now);
    NumberedAfterAsking(s.rec.approvals, s.log.answered, |s.log.asked|, a);
    OneMoreBuilt(s.rec.approvals, s.log.asked, a, request);
    assert r.approvals == s.rec.approvals + [a] && r.ownMark == MarkApprovalWait(r, now).ownMark;
    CallsPreserve(s, r, s.log.asked + [request], s.log.answered);
  }

  lemma AsksPreserves(s: State, w: Worker, id: string, requestID: string, request: CodexRequest, call: ToolCall,
                      now: Time)
    requires Inv(s) && BuiltFrom(request, call)
    ensures Inv(AfterServerAsks(s, w, id, requestID, request, call, now))
  {
    if Listening(s.rec, w) {
      OneMorePreserves(s, Approval(|s.log.asked|, id, requestID, call), request, now);
    }
  }

  lemma ResolvedPreserves(s: State, requestID: string, now: Time)
    requires Inv(s) && s.rec.codex.Some?
    ensures Inv(s.(rec := RequestResolved(s.rec, requestID, now)))
  {
    NumberedAfterResolved(s.rec.approvals, s.log.answered, |s.log.asked|, requestID);
    WithoutKeeps(s.rec.approvals, requestID);
    CallsPreserve(s, RequestResolved(s.rec, requestID, now), s.log.asked, s.log.answered);
  }

  lemma EnterPreserves(s: State, w: Worker)
    requires Inv(s) && w in s.workers && s.workers[w].Entering?
    ensures Inv(AfterEnter(s, w))
  {
    assert s.rec.codex != Some(w);
    var t := AfterEnter(s, w);
    assert Pending(t) == Pending(s);
    if s.rec.busy && !s.rec.canceled && s.rec.codex.Some? {
      assert TokenOK(t);
    }
  }

  lemma SendPreserves(s: State, w: Worker, batch: seq<Message>, kind: Kind, delivered: bool)
    requires Inv(s) && Supervises(s, w) && s.held == batch && s.workers[w].stage == BeginningTurn(batch)
    requires delivered ==> s.workers[w].alive
    ensures Inv(SendBatch(s, w, batch, kind, delivered))
  {
    SendKeepsToken(s, w, SendBatch(s, w, batch, kind, delivered).workers[w]);
    SendKeepsStage(s, w, batch, kind, delivered);
    SendKeepsDelivery(s, w, batch, kind, delivered);
  }

  lemma SendKeepsStage(s: State, w: Worker, batch: seq<Message>, kind: Kind, delivered: bool)
    requires TokenOK(s) && StageOK(s) && Supervises(s, w) && s.held == batch
    requires delivered ==> s.workers[w].alive
    ensures StageOK(SendBatch(s, w, batch, kind, delivered))
  {
    var a := Attempt(batch, kind, if delivered then InFlight else NeverSent, false);
    WireSend(s.wire, s.log.sent, a);
  }

  lemma WireSend(wire: seq<Request>, sent: seq<Attempt>, a: Attempt)
    requires WireOK(wire, sent)
    ensures WireOK(wire, sent + [a])
    ensures a.fate.InFlight? ==> WireOK(wire + [Request(|sent|, a.batch)], sent + [a])
  {
  }

  lemma WireRead(wire: seq<Request>, sent: seq<Attempt>, fate: Fate)
    requires WireOK(wire, sent) && wire != []
    ensures WireOK(wire[1..], sent[wire[0].n := sent[wire[0].n].(fate := fate)])
    ensures wire[0].n + 1 == |sent| ==> |wire| == 1
  {
    if |wire| > 1 {
      assert wire[0].n < wire[1].n;
    }
  }

  lemma WireIgnoresRequeue(wire: seq<Request>, sent: seq<Attempt>, n: nat)
    requires WireOK(wire, sent) && n < |sent|
    ensures WireOK(wire, sent[n := sent[n].(requeued := true)])
  {
  }

  lemma SendKeepsDelivery(s: State, w: Worker, batch: seq<Message>, kind: Kind, delivered: bool)
    requires TokenOK(s) && DeliveryOK(s) && Supervises(s, w) && s.held == batch
             && s.workers[w].stage == BeginningTurn(batch)
    ensures DeliveryOK(SendBatch(s, w, batch, kind, delivered))
  {
    var t := SendBatch(s, w, batch, kind, delivered);
    var n := |s.log.sent|;
    assert Pending(s) == batch + s.rec.next && Pending(t) == s.rec.next;
    BatchIsApart(s, batch);
    AttemptsSend(s.log.sent, Pending(s), s.rec.next, t.log.sent[n], |s.log.admitted|);
    WireAppend(s.wire, Request(n, batch));
    Ledger.Sent(s.log.accepted, WireMessages(s.wire), batch, s.rec.next, s.log.lost, s.log.admitted);
  }

  lemma SendKeepsToken(s: State, w: Worker, g: Goroutine)
    requires TokenOK(s) && w in s.workers && !s.workers[w].Entering? && !g.Entering?
    ensures TokenOK(s.(workers := s.workers[w := g]))
  {
    if SomeoneEnters(s) {
      var e :| e in s.workers && s.workers[e].Entering?;
      assert s.workers[w := g][e].Entering?;
    }
  }

  lemma BatchIsApart(s: State, batch: seq<Message>)
    requires DeliveryOK(s) && s.held == batch
    ensures forall m :: m in batch ==> m !in s.rec.next && m.number < |s.log.admitted|
  {
    var before := s.log.accepted + WireMessages(s.wire);
    var way := before + batch + s.rec.next;
    forall m | m in batch ensures m !in s.rec.next && m.number < |s.log.admitted| {
      var i :| 0 <= i < |batch| && batch[i] == m;
      assert way[|before| + i] == m;
      forall j | 0 <= j < |s.rec.next| ensures s.rec.next[j] != m {
        assert way[|before| + |batch| + j] == s.rec.next[j];
      }
    }
  }

  /** The supervisor takes the whole queue. */
  lemma TakePreserves(s: State, w: Worker)
    requires Inv(s) && At(s, w, Looping)
    ensures Inv(Took(s, w))
  {
    var t := Took(s, w);
    Ledger.Taken(s.log.accepted, WireMessages(s.wire), s.rec.next, s.log.lost, s.log.admitted);
    assert Pending(t) == s.rec.next == Pending(s);
    TookKeepsToken(s, w);
  }

  lemma TookKeepsToken(s: State, w: Worker)
    requires Inv(s) && At(s, w, Looping)
    ensures TokenOK(Took(s, w)) && StopOK(Took(s, w)) && StageOK(Took(s, w))
  {
    SendKeepsToken(s, w, Took(s, w).workers[w]);
  }

  /** The supervisor moves between stages in which it holds nothing. */
  lemma MovePreserves(s: State, w: Worker, g: Goroutine)
    requires Inv(s) && Supervises(s, w) && g.Supervising? && g.alive == s.workers[w].alive
    requires HoldsOK(g.stage, s.held, s.log.sent, s.wire, g.alive)
             && g.stage.BeginningTurn? == s.workers[w].stage.BeginningTurn?
    ensures Inv(s.(workers := s.workers[w := g]))
  {
    WorkerPreserves(s, w, g);
  }

  lemma LoseNextPreserves(s: State)
    requires Inv(s)
    ensures Inv(Lose(s.(rec := s.rec.(next := [])), s.rec.next))
  {
    Ledger.NextLost(s.log.accepted, WireMessages(s.wire), s.held, s.rec.next, s.log.lost, s.log.admitted);
    AttemptsNarrow(s.log.sent, Pending(s), Pending(s.(rec := s.rec.(next := []))), |s.log.admitted|);
  }

  lemma TickPreserves(s: State, w: Worker, delivered: bool)
    requires Inv(s) && At(s, w, Looping) && (delivered ==> s.workers[w].alive)
    ensures Inv(AfterTick(s, w, delivered))
  {
    if s.rec.canceled {
      TickStops(s, w, delivered);
    } else if s.rec.interrupted {
      TickInterrupts(s, w, delivered);
    } else if s.rec.next == [] {
      TickWaits(s, w, delivered);
    } else {
      TickTakes(s, w, delivered);
    }
  }

  lemma TickStops(s: State, w: Worker, delivered: bool)
    requires Inv(s) && At(s, w, Looping) && s.rec.canceled
    ensures Inv(AfterTick(s, w, delivered))
  {
    var g := s.workers[w].(stage := Closing);
    if s.rec.next != [] && !s.rec.interrupted {
      var t := Lose(s.(rec := s.rec.(next := [])), s.rec.next);
      LoseNextPreserves(s);
      MovePreserves(t, w, g);
      assert AfterTick(s, w, delivered) == t.(workers := t.workers[w := g]);
    } else {
      MovePreserves(s, w, g);
      assert s.log.lost + [] == s.log.lost;
      assert AfterTick(s, w, delivered) == s.(workers := s.workers[w := g]);
    }
  }

  lemma TickInterrupts(s: State, w: Worker, delivered: bool)
    requires Inv(s) && At(s, w, Looping) && !s.rec.canceled && s.rec.interrupted
    ensures Inv(AfterTick(s, w, delivered))
  {
    var g := s.workers[w];
    if g.turn.None? {
      MovePreserves(s, w, g.(stage := IdleInterrupted));
      assert AfterTick(s, w, delivered) == s.(workers := s.workers[w := g.(stage := IdleInterrupted)]);
    } else if !g.asked {
      MovePreserves(s, w, g.(stage := Interrupting, asked := true));
      assert AfterTick(s, w, delivered) == s.(workers := s.workers[w := g.(stage := Interrupting, asked := true)]);
    } else {
      assert AfterTick(s, w, delivered) == s;
    }
  }

  lemma TickWaits(s: State, w: Worker, delivered: bool)
    requires Inv(s) && At(s, w, Looping) && !s.rec.canceled && !s.rec.interrupted && s.rec.next == []
    ensures Inv(AfterTick(s, w, delivered))
  {
    var g := s.workers[w].(asked := false);
    MovePreserves(s, w, g);
    assert AfterTick(s, w, delivered) == s.(workers := s.workers[w := g]);
  }

  /** The state between taking the queue and handing it over. */
  function Took(s: State, w: Worker): State
    requires Supervises(s, w)
  {
    s.(rec := s.rec.(next := []), held := s.rec.next,
       workers := s.workers[w := s.workers[w].(stage := BeginningTurn(s.rec.next), asked := false)])
  }

  lemma TickTakes(s: State, w: Worker, delivered: bool)
    requires Inv(s) && At(s, w, Looping) && (delivered ==> s.workers[w].alive)
    requires !s.rec.canceled && !s.rec.interrupted && s.rec.next != []
    ensures Inv(AfterTick(s, w, delivered))
  {
    TakePreserves(s, w);
    TickHandsOver(s, w, delivered);
    if s.workers[w].turn.Some? {
      SendPreserves(Took(s, w), w, s.rec.next, Steer(s.workers[w].turn.value), delivered);
    }
  }

  lemma TickHandsOver(s: State, w: Worker, delivered: bool)
    requires At(s, w, Looping) && !s.rec.canceled && !s.rec.interrupted && s.rec.next != []
    ensures s.workers[w].turn.None? ==> AfterTick(s, w, delivered) == Took(s, w)
    ensures s.workers[w].turn.Some? ==>
              AfterTick(s, w, delivered)
                  == SendBatch(Took(s, w), w, s.rec.next, Steer(s.workers[w].turn.value), delivered)
  {
    var t, u := AfterTick(s, w, delivered), Took(s, w);
    if s.workers[w].turn.Some? {
      assert t.workers == SendBatch(u, w, s.rec.next, Steer(s.workers[w].turn.value), delivered).workers;
    } else {
      assert t.workers == u.workers;
    }
  }

  lemma ClearPreserves(s: State, w: Worker)
    requires Inv(s) && At(s, w, IdleInterrupted)
    ensures Inv(s.(rec := ClearIdleInterrupt(s.rec),
                   workers := s.workers[w := s.workers[w].(stage := Looping, asked := false)]))
  {
    MovePreserves(s, w, s.workers[w].(stage := Looping, asked := false));
    var t := s.(workers := s.workers[w := s.workers[w].(stage := Looping, asked := false)]);
    var r := ClearIdleInterrupt(t.rec);
    StillStopped(t, r);
    RecPreserves(t, r);
  }

  /** While a supervisor runs, exited is open, so whether it is busy is free. */
  lemma StillStopped(s: State, r: Record)
    requires Inv(s) && s.rec.codex.Some?
    requires r == s.rec.(busy := r.busy, interrupted := r.interrupted)
    ensures TokenOK(s.(rec := r)) && StopOK(s.(rec := r))
  {
  }

  lemma BeginPreserves(s: State, w: Worker, delivered: bool)
    requires Inv(s) && Supervises(s, w) && s.workers[w].stage.BeginningTurn? && (delivered ==> s.workers[w].alive)
    ensures Inv(SendBatch(s.(rec := BeginCodexTurn(s.rec)), w, s.workers[w].stage.batch, Start, delivered))
  {
    var r := BeginCodexTurn(s.rec);
    StillStopped(s, r);
    RecPreserves(s, r);
    SendPreserves(s.(rec := r), w, s.workers[w].stage.batch, Start, delivered);
  }

  /** The supervisor gives up what it holds and goes on. */
  lemma GiveUpPreserves(s: State, w: Worker, stage: Stage)
    requires Inv(s) && Supervises(s, w) && (s.workers[w].stage.Steering? || s.workers[w].stage.StartingTurn?)
    requires stage.Looping? || stage.Closing?
    ensures Inv(Lose(WithStage(s, w, stage).(held := []), s.held))
  {
    var t := Lose(WithStage(s, w, stage).(held := []), s.held);
    Ledger.HeldLost(s.log.accepted, WireMessages(s.wire), s.held, s.rec.next, s.log.lost, s.log.admitted);
    SendKeepsToken(s, w, t.workers[w]);
    assert Pending(t) == Pending(s);
  }

  /** A batch whose turn had ended goes back to the head of the queue. */
  lemma RequeuePreserves(s: State, w: Worker)
    requires Inv(s) && Supervises(s, w) && s.workers[w].stage.Steering?
    requires s.workers[w].stage.n < |s.log.sent| && s.log.sent[s.workers[w].stage.n].fate.Refused?
    ensures var g := s.workers[w]; var n := g.stage.n;
            Inv(WithStage(s, w, Looping).(held := [], rec := AfterSteer(s.rec, g.stage.batch, true),
                  log := s.log.(sent := s.log.sent[n := s.log.sent[n].(requeued := true)])))
  {
    var g := s.workers[w];
    var n := g.stage.n;
    var sent := s.log.sent[n := s.log.sent[n].(requeued := true)];
    var t := WithStage(s, w, Looping).(held := [], rec := AfterSteer(s.rec, g.stage.batch, true),
                                       log := s.log.(sent := sent));
    Ledger.Requeued(s.log.accepted, WireMessages(s.wire), s.held, s.rec.next, s.log.lost, s.log.admitted);
    AttemptsRequeue(s.log.sent, Pending(s), |s.log.admitted|);
    assert Pending(t) == g.stage.batch + Pending(s);
    WireIgnoresRequeue(s.wire, s.log.sent, n);
    SendKeepsToken(s, w, t.workers[w]);
    assert StageOK(t);
  }

  lemma SteerReplyPreserves(s: State, w: Worker, outcome: Outcome)
    requires Inv(s) && Supervises(s, w) && s.workers[w].stage.Steering? && Tells(s, s.workers[w].stage.n, outcome)
    ensures Inv(AfterSteerReply(s, w, outcome))
  {
    var g := s.workers[w];
    if outcome.Refusal? && g.turn != Some(g.stage.expected) {
      RequeuePreserves(s, w);
    } else {
      GiveUpPreserves(s, w, Looping);
      if outcome.Done? {
        assert AfterSteerReply(s, w, outcome) == Lose(WithStage(s, w, Looping).(held := []), s.held);
      }
    }
  }

  lemma StartReplyPreserves(s: State, w: Worker, outcome: Outcome)
    requires Inv(s) && Supervises(s, w) && s.workers[w].stage.StartingTurn?
    ensures Inv(AfterStartReply(s, w, outcome))
  {
    var stage := if outcome.Unclear? then Closing else Looping;
    GiveUpPreserves(s, w, stage);
    var t := Lose(WithStage(s, w, stage).(held := []), s.held);
    StillStopped(t, RefuseCodexTurn(t.rec));
    RecPreserves(t, RefuseCodexTurn(t.rec));
  }

  lemma ReadPreserves(s: State, accepts: bool)
    requires Inv(s) && s.wire != []
    ensures Inv(AfterServerReads(s, accepts))
  {
    ReadKeepsStage(s, accepts);
    ReadKeepsDelivery(s, accepts);
  }

  lemma ReadKeepsStage(s: State, accepts: bool)
    requires TokenOK(s) && StageOK(s) && s.wire != []
    ensures StageOK(AfterServerReads(s, accepts))
    ensures Awaits(s, s.wire[0].n) ==> |s.wire| == 1 && s.held == []
  {
    WireRead(s.wire, s.log.sent, if accepts then Taken else Refused);
  }

  lemma ReadKeepsDelivery(s: State, accepts: bool)
    requires Inv(s) && s.wire != []
    ensures DeliveryOK(AfterServerReads(s, accepts))
  {
    var t := AfterServerReads(s, accepts);
    var x, rest := s.wire[0].batch, WireMessages(s.wire[1..]);
    ReadKeepsStage(s, accepts);
    WireHead(s.wire);
    AttemptsJudge(s.log.sent, Pending(s), |s.log.admitted|, s.wire[0].n, if accepts then Taken else Refused);
    assert Pending(t) == Pending(s);
    if accepts {
      Ledger.Accepted(s.log.accepted, x, rest, s.held, s.rec.next, s.log.lost, s.log.admitted);
    } else if Awaits(s, s.wire[0].n) {
      assert rest == [] && x + rest == x;
      Ledger.Returned(s.log.accepted, x, s.rec.next, s.log.lost, s.log.admitted);
    } else {
      Ledger.RefusedUnheard(s.log.accepted, x, rest, s.held, s.rec.next, s.log.lost, s.log.admitted);
    }
  }

  lemma DiesPreserves(s: State, w: Worker)
    requires Inv(s) && Alive(s, w)
    ensures Inv(AfterProcessDies(s, w))
  {
    var t := AfterProcessDies(s, w);
    Ledger.WireLost(s.log.accepted, WireMessages(s.wire), s.held, s.rec.next, s.log.lost, s.log.admitted);
    SendKeepsToken(s, w, t.workers[w]);
    assert Pending(t) == Pending(s);
  }

  lemma StartedPreserves(s: State, w: Worker, turn: Option<TurnId>)
    requires Inv(s) && Supervises(s, w)
    ensures Inv(AfterServerStarted(s, w, turn))
  {
    if Listening(s.rec, w) {
      MovePreserves(s, w, s.workers[w].(turn := turn));
      var t := s.(workers := s.workers[w := s.workers[w].(turn := turn)]);
      StillStopped(t, TurnStarted(t.rec));
      RecPreserves(t, TurnStarted(t.rec));
    }
  }

  lemma CompletedPreserves(s: State, w: Worker, turn: Option<TurnId>, now: Time)
    requires Inv(s) && Supervises(s, w)
    ensures Inv(AfterServerCompleted(s, w, turn, now))
  {
    if Listening(s.rec, w) && (s.workers[w].turn.None? || s.workers[w].turn == turn) {
      MovePreserves(s, w, s.workers[w].(turn := None));
      var t := s.(workers := s.workers[w := s.workers[w].(turn := None)]);
      var m := MarkApprovalWait(t.rec.(approvals := []), now);
      CallsPreserve(t, m, t.log.asked, t.log.answered);
      var u := t.(rec := m);
      StillStopped(u, TurnCompleted(t.rec, now));
      RecPreserves(u, TurnCompleted(t.rec, now));
    }
  }

  lemma EndPreserves(s: State, w: Worker, now: Time)
    requires Inv(s) && w in s.workers && s.workers[w].Ending?
    ensures Inv(AfterEnd(s, w, now))
  {
    LoseNextPreserves(s);
    var t := AfterEnd(s, w, now);
    assert Pending(t) == [];
    AttemptsNarrow(s.log.sent, Pending(s), [], |s.log.admitted|);
    EndKeepsToken(s, w, now);
  }

  lemma EndKeepsToken(s: State, w: Worker, now: Time)
    requires Inv(s) && w in s.workers && s.workers[w].Ending?
    ensures TokenOK(AfterEnd(s, w, now)) && StopOK(AfterEnd(s, w, now)) && StageOK(AfterEnd(s, w, now))
  {
  }

  predicate IsPost(a: Action) {
    a.Post? || a.PostInterrupt? || a.PostApproval? || a.DesktopStop? || a.StopConversations? || a.CancelRun?
    || a.RunWaiting? || a.Restart? || a.Probe?
  }

  predicate IsAnnounced(a: Action) {
    a.ServerStarted? || a.ServerCompleted? || a.ServerAsks? || a.ServerResolved?
  }

  predicate IsLifetime(a: Action) {
    a.StartFails? || a.StartSucceeds? || a.Reaped?
  }

  predicate IsLoop(a: Action) {
    a.Tick? || a.ClearInterrupt? || a.SteerReplied? || a.BeginTurn? || a.StartReplied?
  }

  lemma InvPreserved(s: State, a: Action)
    requires Inv(s) && Enabled(s, a)
    ensures Readable(s) && Inv(Step(s, a))
  {
    if IsPost(a) {
      PostsPreserve(s, a);
    } else if IsAnnounced(a) {
      AnnouncedPreserves(s, a);
    } else if a.ServerReads? {
      ReadPreserves(s, a.accepts);
    } else if a.ProcessDies? {
      DiedPreserves(s, a);
    } else if a.Watch? {
      WatchedPreserves(s, a);
    } else if a.Enter? {
      EnteredPreserves(s, a);
    } else if a.End? {
      EndedPreserves(s, a);
    } else if a.Initialized? {
      InitializedPreserves(s, a);
    } else if IsLifetime(a) {
      ProcessTurnsPreserves(s, a);
    } else if IsLoop(a) {
      LoopPreserves(s, a);
    } else {
      MovePreserves(s, a.w, s.workers[a.w].(stage := Step(s, a).workers[a.w].stage));
    }
  }

  lemma PostsPreserve(s: State, a: Action)
    requires Inv(s) && Enabled(s, a) && IsPost(a)
    ensures Inv(Step(s, a))
  {
    match a
    case Post(text) => PostPreserves(s, text);
    case PostInterrupt => InterruptPreserves(s);
    case PostApproval(id, decision, answers, written, now) => DecisionPreserves(s, id, decision, answers, written, now);
    case DesktopStop => StopPreserves(s, s.rec.endsAs);
    case RunWaiting(push) => WaitingPreserves(s, push);
    case Restart => ShutdownPreserves(s);
    case Probe => SpawnPreserves(s);
    case _ => StopPreserves(s, Canceled);
  }

  lemma AnnouncedPreserves(s: State, a: Action)
    requires Inv(s) && Enabled(s, a) && IsAnnounced(a)
    ensures Inv(Step(s, a))
  {
    match a
    case ServerStarted(_, _) => TurnStartedPreserves(s, a);
    case ServerCompleted(_, _, _) => TurnCompletedPreserves(s, a);
    case ServerAsks(_, _, _, _, _, _) => AskedPreserves(s, a);
    case ServerResolved(_, _, _) => RequestResolvedPreserves(s, a);
  }

  lemma TurnStartedPreserves(s: State, a: Action)
    requires Inv(s) && Enabled(s, a) && a.ServerStarted?
    ensures Inv(Step(s, a))
  {
    StartedPreserves(s, a.w, a.turn);
  }

  lemma TurnCompletedPreserves(s: State, a: Action)
    requires Inv(s) && Enabled(s, a) && a.ServerCompleted?
    ensures Inv(Step(s, a))
  {
    CompletedPreserves(s, a.w, a.turn, a.now);
  }

  lemma AskedPreserves(s: State, a: Action)
    requires Inv(s) && Enabled(s, a) && a.ServerAsks?
    ensures Inv(Step(s, a))
  {
    AsksPreserves(s, a.w, a.id, a.requestID, a.request, a.call, a.now);
  }

  lemma RequestResolvedPreserves(s: State, a: Action)
    requires Inv(s) && Enabled(s, a) && a.ServerResolved?
    ensures Inv(Step(s, a))
  {
    if Listening(s.rec, a.w) {
      ResolvedPreserves(s, a.requestID, a.now);
    }
  }

  lemma DiedPreserves(s: State, a: Action)
    requires Inv(s) && Enabled(s, a) && a.ProcessDies?
    ensures Inv(Step(s, a))
  {
    DiesPreserves(s, a.w);
  }

  lemma WatchedPreserves(s: State, a: Action)
    requires Inv(s) && Enabled(s, a) && a.Watch?
    ensures Inv(Step(s, a))
  {
    MovePreserves(s, a.w, s.workers[a.w].(signals := s.workers[a.w].signals + 1));
  }

  lemma EnteredPreserves(s: State, a: Action)
    requires Inv(s) && Enabled(s, a) && a.Enter?
    ensures Inv(Step(s, a))
  {
    EnterPreserves(s, a.w);
  }

  lemma EndedPreserves(s: State, a: Action)
    requires Inv(s) && Enabled(s, a) && a.End?
    ensures Inv(Step(s, a))
  {
    EndPreserves(s, a.w, a.now);
  }

  lemma InitializedPreserves(s: State, a: Action)
    requires Inv(s) && Enabled(s, a) && a.Initialized?
    ensures Inv(Step(s, a))
  {
    PublishPreserves(s, a.w);
  }

  lemma ProcessTurnsPreserves(s: State, a: Action)
    requires Inv(s) && Enabled(s, a) && IsLifetime(a)
    ensures Inv(Step(s, a))
  {
    WorkerPreserves(s, a.w, if a.StartSucceeds? then Supervising(Initializing, None, false, true, 0) else Ending);
  }

  lemma LoopPreserves(s: State, a: Action)
    requires Inv(s) && Enabled(s, a) && IsLoop(a)
    ensures Inv(Step(s, a))
  {
    match a
    case Tick(_, _) => TickedPreserves(s, a);
    case ClearInterrupt(_) => ClearedPreserves(s, a);
    case SteerReplied(_, _) => SteeredPreserves(s, a);
    case BeginTurn(_, _) => BegunPreserves(s, a);
    case StartReplied(_, _) => StartedTurnPreserves(s, a);
  }

  lemma TickedPreserves(s: State, a: Action)
    requires Inv(s) && Enabled(s, a) && a.Tick?
    ensures Inv(Step(s, a))
  {
    TickPreserves(s, a.w, a.delivered);
  }

  lemma ClearedPreserves(s: State, a: Action)
    requires Inv(s) && Enabled(s, a) && a.ClearInterrupt?
    ensures Inv(Step(s, a))
  {
    ClearPreserves(s, a.w);
  }

  lemma SteeredPreserves(s: State, a: Action)
    requires Inv(s) && Enabled(s, a) && a.SteerReplied?
    ensures Inv(Step(s, a))
  {
    SteerReplyPreserves(s, a.w, a.outcome);
  }

  lemma BegunPreserves(s: State, a: Action)
    requires Inv(s) && Enabled(s, a) && a.BeginTurn?
    ensures Inv(Step(s, a))
  {
    BeginPreserves(s, a.w, a.delivered);
  }

  lemma StartedTurnPreserves(s: State, a: Action)
    requires Inv(s) && Enabled(s, a) && a.StartReplied?
    ensures Inv(Step(s, a))
  {
    StartReplyPreserves(s, a.w, a.outcome);
  }

  lemma PublishPreserves(s: State, w: Worker)
    requires Inv(s) && At(s, w, Initializing)
    ensures Inv(WithStage(s, w, Cataloguing).(rec := PublishInput(s.rec, w)))
  {
    MovePreserves(s, w, s.workers[w].(stage := Cataloguing));
    var t := WithStage(s, w, Cataloguing);
    RecPreserves(t, PublishInput(t.rec, w));
  }
}
