/** What every run of a Codex conversation keeps. */
module CodexRuns {
  import opened Basics
  import opened Approvals
  import opened ConversationRecord
  import opened CodexSupervisor
  import Ledger = DeliveryLedger

  ghost predicate Steps(s: State, a: Action, t: State) {
    Enabled(s, a) && Readable(s) && t == Step(s, a)
  }

  ghost predicate StepAt(run: seq<State>, actions: seq<Action>, i: nat)
    requires |run| == |actions| + 1 && i < |actions|
  {
    Steps(run[i], actions[i], run[i + 1])
  }

  ghost predicate IsRun(run: seq<State>, actions: seq<Action>) {
    && |run| == |actions| + 1
    && Initial(run[0])
    && (forall i :: 0 <= i < |actions| ==> StepAt(run, actions, i))
  }

  lemma {:induction false} InvThroughout(run: seq<State>, actions: seq<Action>, i: nat)
    requires IsRun(run, actions) && i < |run|
    ensures Inv(run[i])
  {
    if i > 0 {
      InvThroughout(run, actions, i - 1);
      assert StepAt(run, actions, i - 1);
      InvPreserved(run[i - 1], actions[i - 1]);
    }
  }

  /** Never two app-servers: the live processes of any moment are one and the same, and none is left
      once exited is closed. */
  lemma OneSupervisorAtATime(run: seq<State>, actions: seq<Action>, i: nat, v: Worker, w: Worker)
    requires IsRun(run, actions) && i < |run|
    requires Alive(run[i], v) && Alive(run[i], w)
    ensures v == w && run[i].rec.codex == Some(v) && !run[i].rec.exited
  {
    InvThroughout(run, actions, i);
  }

  /** What the app-server accepted is in admission order, each message at most once and as it was
      admitted; and every admitted message is accounted for exactly once. */
  lemma DeliveredInOrder(run: seq<State>, actions: seq<Action>, i: nat)
    requires IsRun(run, actions) && i < |run|
    ensures var log := run[i].log;
            var places := multiset(log.accepted) + multiset(WireMessages(run[i].wire)) + multiset(run[i].held)
                          + multiset(run[i].rec.next) + multiset(log.lost);
            && Ledger.InOrder(log.accepted, log.admitted)
            && places == multiset(log.admitted)
            && (forall k :: 0 <= k < |log.admitted| ==> places[log.admitted[k]] == 1)
  {
    InvThroughout(run, actions, i);
    var s := run[i];
    forall k | 0 <= k < |s.log.admitted| ensures multiset(s.log.admitted)[s.log.admitted[k]] == 1 {
      OncePerNumber(s.log.admitted, k);
    }
    var way := s.log.accepted + WireMessages(s.wire) + s.held + s.rec.next;
    forall k | 0 <= k < |s.log.accepted| ensures s.log.accepted[k] == way[k] {
    }
  }

  // ---- posts, ticks and announcements ----

  /** A message posted to a conversation that is not stopped goes to the end of the queue. */
  lemma PostedIsQueued(run: seq<State>, actions: seq<Action>, i: nat)
    requires IsRun(run, actions) && i < |actions| && actions[i].Post?
    ensures var s, t, m := run[i], run[i + 1], Message(|run[i].log.admitted|, actions[i].text);
            if s.rec.canceled || s.rec.shuttingDown then t == s
            else
              && t.log.admitted == s.log.admitted + [m] && t.rec.next == s.rec.next + [m] && t.rec.busy
              && t.workers == if s.rec.busy then s.workers else s.workers[s.spawned := Entering]
  {
    InvThroughout(run, actions, i);
    assert StepAt(run, actions, i);
  }

  /** An interrupt of a busy conversation marks it and gives the whole queue up; any other does nothing. */
  lemma InterruptGivesUpTheQueue(run: seq<State>, actions: seq<Action>, i: nat)
    requires IsRun(run, actions) && i < |actions| && actions[i].PostInterrupt?
    ensures var s, t := run[i], run[i + 1];
            if s.rec.busy then t.rec.interrupted && t.rec.next == [] && t.log.lost == s.log.lost + s.rec.next
            else t == s
  {
    InvThroughout(run, actions, i);
    assert StepAt(run, actions, i);
  }

  /** The tick steers the whole queue into the turn that runs, unless the answer was interrupted or the
      conversation stopped. */
  ghost predicate SteersQueue(s: State, a: Action, t: State, batch: seq<Message>, kind: Kind) {
    && a.Tick? && !s.rec.interrupted && !s.rec.canceled && s.rec.next != [] && t.rec.next == []
    && Supervises(s, a.w) && s.workers[a.w].turn.Some? && kind == Steer(s.workers[a.w].turn.value)
    && batch == s.rec.next
  }

  /** A turn is started with the batch the tick took for it. */
  ghost predicate StartsTurn(s: State, a: Action, t: State, batch: seq<Message>, kind: Kind) {
    && a.BeginTurn? && kind.Start? && t.rec.busy
    && Supervises(s, a.w) && s.workers[a.w].stage == BeginningTurn(batch)
  }

  /** Each attempt is one of the two. */
  ghost predicate Attempted(s: State, a: Action, t: State) {
    |t.log.sent| > |s.log.sent| ==>
      var last := t.log.sent[|t.log.sent| - 1];
      && |t.log.sent| == |s.log.sent| + 1
      && (SteersQueue(s, a, t, last.batch, last.kind) || StartsTurn(s, a, t, last.batch, last.kind))
  }

  lemma NewAttempts(run: seq<State>, actions: seq<Action>, i: nat)
    requires IsRun(run, actions) && i < |actions|
    ensures Attempted(run[i], actions[i], run[i + 1])
  {
    InvThroughout(run, actions, i);
    assert StepAt(run, actions, i);
    if actions[i].Tick? {
      TickAttempts(run[i], actions[i]);
    } else if IsLoop(actions[i]) {
      LoopAttempts(run[i], actions[i]);
    } else if actions[i].ServerReads? {
    } else {
      OthersSendNothing(run[i], actions[i]);
    }
  }

  lemma TickAttempts(s: State, a: Action)
    requires Readable(s) && Enabled(s, a) && a.Tick?
    ensures Attempted(s, a, Step(s, a))
  {
  }

  lemma LoopAttempts(s: State, a: Action)
    requires Readable(s) && Enabled(s, a) && (a.ClearInterrupt? || a.SteerReplied? || a.BeginTurn? || a.StartReplied?)
    ensures Attempted(s, a, Step(s, a))
  {
  }

  /** A tick that sees a queue, no turn, no interrupt and no stop takes the whole queue for a turn of its own. */
  lemma TickTakesTheQueue(run: seq<State>, actions: seq<Action>, i: nat)
    requires IsRun(run, actions) && i < |actions| && actions[i].Tick?
    requires run[i].rec.next != [] && !run[i].rec.interrupted && !run[i].rec.canceled
    ensures var s, t, w := run[i], run[i + 1], actions[i].w;
            && Supervises(s, w)
            && if s.workers[w].turn.Some? then |t.log.sent| == |s.log.sent| + 1
               else Supervises(t, w) && t.workers[w].stage == BeginningTurn(s.rec.next) && t.rec.next == []
  {
    assert StepAt(run, actions, i);
  }

  /** The supervisor w is where it says, and its goroutine is otherwise as it was. */
  predicate MovedTo(s: State, t: State, w: Worker, stage: Stage) {
    Supervises(s, w) && Supervises(t, w) && t.workers[w] == s.workers[w].(stage := stage)
  }

  /** A steered batch is taken, goes back to the head of the queue when it was refused and its turn has ended
      since, and is given up otherwise: in doubt it is never sent again. */
  lemma SteerAnswered(run: seq<State>, actions: seq<Action>, i: nat)
    requires IsRun(run, actions) && i < |actions| && actions[i].SteerReplied?
    ensures var s, t, w, outcome := run[i], run[i + 1], actions[i].w, actions[i].outcome;
            && MovedTo(s, t, w, Looping) && t.held == [] && s.workers[w].stage.Steering?
            && var g := s.workers[w];
               if outcome.Refusal? && g.turn != Some(g.stage.expected)
               then t.rec.next == g.stage.batch + s.rec.next && t.rec.busy && t.log.lost == s.log.lost
               else t.rec == s.rec && t.log.lost == s.log.lost + if outcome.Done? then [] else s.held
  {
    assert StepAt(run, actions, i);
  }

  /** A turn that the app-server refused leaves the conversation idle; without an answer the supervisor gives up. */
  lemma StartAnswered(run: seq<State>, actions: seq<Action>, i: nat)
    requires IsRun(run, actions) && i < |actions| && actions[i].StartReplied?
    ensures var s, t, w, outcome := run[i], run[i + 1], actions[i].w, actions[i].outcome;
            && MovedTo(s, t, w, if outcome.Unclear? then Closing else Looping)
            && t.rec == s.rec.(busy := s.rec.busy && !outcome.Refusal?) && t.log.lost == s.log.lost + s.held
  {
    assert StepAt(run, actions, i);
  }

  /** A tick that sees the stop gives up the queue it took and closes; one that sees an interrupt asks the
      app-server once to end its turn, and leaves the queue. */
  lemma TickStopsOrInterrupts(run: seq<State>, actions: seq<Action>, i: nat)
    requires IsRun(run, actions) && i < |actions| && actions[i].Tick?
    ensures var s, t, w := run[i], run[i + 1], actions[i].w;
            && Supervises(s, w) && Supervises(t, w)
            && var g := s.workers[w];
               && (s.rec.canceled ==>
                   && t.workers[w] == g.(stage := Closing) && t.log.sent == s.log.sent
                   && t.log.lost == s.log.lost + if s.rec.interrupted then [] else s.rec.next)
               && (s.rec.interrupted && !s.rec.canceled ==>
                   && t.rec == s.rec && t.log == s.log
                   && t.workers[w] == if g.turn.None? then g.(stage := IdleInterrupted)
                                      else if g.asked then g else g.(stage := Interrupting, asked := true))
  {
    assert StepAt(run, actions, i);
  }

  /** A turn the app-server announces is the one later messages are steered into, if the conversation listens. */
  lemma AnnouncementCounts(run: seq<State>, actions: seq<Action>, i: nat)
    requires IsRun(run, actions) && i < |actions| && actions[i].ServerStarted?
    ensures var s, a, t := run[i], actions[i], run[i + 1];
            if s.rec.codex == Some(a.w) && !s.rec.canceled
            then Supervises(t, a.w) && t.workers[a.w].turn == a.turn && t.rec == s.rec.(busy := true)
            else t == s
  {
    assert StepAt(run, actions, i);
  }

  /** The app-server's end of a turn counts when the conversation listens and the turn is the one that runs,
      or none is known to run: then the calls go, and the conversation is busy with its queue only. */
  lemma CompletionCounts(run: seq<State>, actions: seq<Action>, i: nat)
    requires IsRun(run, actions) && i < |actions| && actions[i].ServerCompleted?
    ensures var s, a, t := run[i], actions[i], run[i + 1];
            && Supervises(s, a.w)
            && var turn := s.workers[a.w].turn;
               if s.rec.codex == Some(a.w) && !s.rec.canceled && (turn.None? || turn == a.turn)
               then t.rec.approvals == [] && !t.rec.interrupted && (t.rec.busy <==> s.rec.next != [])
                    && Supervises(t, a.w) && t.workers[a.w].turn.None?
               else t == s
  {
    assert StepAt(run, actions, i);
  }

  // ---- decisions ----

  /** The first pending call with the id, never answered before, is answered on an open stdin by a decision that
      fits it, and is pending no more. */
  ghost predicate AnswersOne(s: State, a: Action, t: State) {
    && Writable(s)
    && a.PostApproval? && a.decision in {"allow", "always", "deny", "answer"}
    && exists k: nat :: IsFirst(s.rec.approvals, a.id, k)
         && CodexAccepts(s.rec.approvals[k].call, a.decision, a.answers)
         && s.rec.approvals[k].serial !in s.log.answered
         && t.log.answered == s.log.answered + [s.rec.approvals[k].serial]
         && t.rec.approvals == s.rec.approvals[..k] + s.rec.approvals[k + 1..]
  }

  /** No request of the app-server's is answered twice, and only by a decision that fits it, while it is pending
      and the app-server can still read it. */
  lemma AnsweredOnceOnAnOpenStdin(run: seq<State>, actions: seq<Action>, i: nat)
    requires IsRun(run, actions) && i < |actions|
    ensures forall j, k :: 0 <= j < k < |run[i].log.answered| ==> run[i].log.answered[j] != run[i].log.answered[k]
    ensures run[i + 1].log.answered == run[i].log.answered || AnswersOne(run[i], actions[i], run[i + 1])
  {
    InvThroughout(run, actions, i);
    assert StepAt(run, actions, i);
    if actions[i].PostApproval? {
      AnswerTakesOne(run[i], actions[i]);
    } else {
      OthersAnswerNothing(run[i], actions[i]);
    }
  }

  lemma OthersAnswerNothing(s: State, a: Action)
    requires Readable(s) && Enabled(s, a) && !a.PostApproval?
    ensures Step(s, a).log.answered == s.log.answered
  {
    if IsLoop(a) {
      LoopAnswersNothing(s, a);
    }
  }

  lemma LoopAnswersNothing(s: State, a: Action)
    requires Readable(s) && Enabled(s, a) && IsLoop(a)
    ensures Step(s, a).log.answered == s.log.answered
  {
  }

  lemma AnswerTakesOne(s: State, a: Action)
    requires Inv(s) && Enabled(s, a) && a.PostApproval?
    ensures Step(s, a).log.answered == s.log.answered || AnswersOne(s, a, Step(s, a))
  {
    FirstWithIDIs(s.rec.approvals, a.id);
    var at := FirstWithID(s.rec.approvals, a.id);
    if at.Some? {
      AnsweredExactly(s.rec, a.id, a.decision, a.answers, a.written, a.now, at.value);
      assert s.rec.approvals[at.value].serial !in s.log.answered;
    }
  }

  /** And every decision that fits is answered, when the write to the open stdin works. */
  lemma FittingIsAnswered(run: seq<State>, actions: seq<Action>, i: nat, k: nat)
    requires IsRun(run, actions) && i < |actions| && actions[i].PostApproval? && actions[i].written
    requires actions[i].decision in {"allow", "always", "deny", "answer"}
    requires IsFirst(run[i].rec.approvals, actions[i].id, k)
    requires CodexAccepts(run[i].rec.approvals[k].call, actions[i].decision, actions[i].answers)
    ensures run[i + 1].log.answered == run[i].log.answered + [run[i].rec.approvals[k].serial]
  {
    InvThroughout(run, actions, i);
    assert StepAt(run, actions, i);
    var a := actions[i];
    AnsweredExactly(run[i].rec, a.id, a.decision, a.answers, a.written, a.now, k);
  }

  /** A message is attempted a second time only after the app-server refused to steer it in. */
  lemma NoBlindRetry(run: seq<State>, actions: seq<Action>, i: nat, j: nat, k: nat, m: Message)
    requires IsRun(run, actions) && i < |run| && j < k < |run[i].log.sent|
    requires m in run[i].log.sent[j].batch && m in run[i].log.sent[k].batch
    ensures run[i].log.sent[j].requeued && run[i].log.sent[j].fate.Refused? && run[i].log.sent[j].kind.Steer?
  {
    InvThroughout(run, actions, i);
  }

  ghost predicate NewlyRequeued(s: State, t: State, n: nat) {
    n < |t.log.sent| && t.log.sent[n].requeued && (n < |s.log.sent| ==> !s.log.sent[n].requeued)
  }

  /** A refusal of attempt n, a steer of a turn that has ended since, has reached the supervisor. */
  ghost predicate PutsBack(s: State, a: Action, n: nat) {
    && a.SteerReplied? && a.outcome.Refusal?
    && Supervises(s, a.w) && s.workers[a.w].stage.Steering? && s.workers[a.w].stage.n == n
    && n < |s.log.sent| && s.log.sent[n].fate.Refused?
    && s.log.sent[n].kind == Steer(s.workers[a.w].stage.expected)
    && s.workers[a.w].turn != Some(s.workers[a.w].stage.expected)
  }

  /** Messages are put back only on a refusal that reached the supervisor, of a turn that has ended:
      never after a timeout, an exit or a failed write. They go back to the head of the queue. */
  lemma RequeuedOnlyWhenTheTurnEnded(run: seq<State>, actions: seq<Action>, i: nat, n: nat)
    requires IsRun(run, actions) && i < |actions| && NewlyRequeued(run[i], run[i + 1], n)
    ensures PutsBack(run[i], actions[i], n)
    ensures run[i + 1].rec.next == run[i].log.sent[n].batch + run[i].rec.next
  {
    InvThroughout(run, actions, i);
    assert StepAt(run, actions, i);
    if IsLoop(actions[i]) {
      LoopRequeues(run[i], actions[i], n);
    } else if actions[i].ServerReads? {
    } else {
      OthersSendNothing(run[i], actions[i]);
    }
  }

  lemma LoopRequeues(s: State, a: Action, n: nat)
    requires Inv(s) && Enabled(s, a) && IsLoop(a) && NewlyRequeued(s, Step(s, a), n)
    ensures PutsBack(s, a, n) && Step(s, a).rec.next == s.log.sent[n].batch + s.rec.next
  {
    if a.SteerReplied? {
      SteerRequeues(s, a.w, a.outcome, n);
    } else if a.Tick? {
      TickRequeuesNothing(s, a.w, a.delivered, n);
    } else {
      OtherLoopsRequeueNothing(s, a, n);
    }
  }

  lemma TickRequeuesNothing(s: State, w: Worker, delivered: bool, n: nat)
    requires At(s, w, Looping)
    ensures !NewlyRequeued(s, AfterTick(s, w, delivered), n)
  {
  }

  lemma OtherLoopsRequeueNothing(s: State, a: Action, n: nat)
    requires Readable(s) && Enabled(s, a) && (a.ClearInterrupt? || a.BeginTurn? || a.StartReplied?)
    ensures !NewlyRequeued(s, Step(s, a), n)
  {
  }

  lemma SteerRequeues(s: State, w: Worker, outcome: Outcome, n: nat)
    requires Inv(s) && Supervises(s, w) && s.workers[w].stage.Steering? && Tells(s, s.workers[w].stage.n, outcome)
    requires NewlyRequeued(s, AfterSteerReply(s, w, outcome), n)
    ensures PutsBack(s, SteerReplied(w, outcome), n)
    ensures AfterSteerReply(s, w, outcome).rec.next == s.log.sent[n].batch + s.rec.next
  {
  }

  lemma OthersSendNothing(s: State, a: Action)
    requires Inv(s) && Enabled(s, a) && !IsLoop(a) && !a.ServerReads?
    ensures Step(s, a).log.sent == s.log.sent && Step(s, a).log.accepted == s.log.accepted
  {
    if a.PostApproval? {
      DecisionSendsNothing(s, a.id, a.decision, a.answers, a.written, a.now);
    }
  }

  lemma DecisionSendsNothing(s: State, id: string, decision: string, answers: map<string, string>, written: bool,
                             now: Time)
    ensures var t := AfterDecision(s, id, decision, answers, written, now);
            t.log.sent == s.log.sent && t.log.accepted == s.log.accepted && t.workers == s.workers
            && t.rec.canceled == s.rec.canceled && t.rec.exited == s.rec.exited && t.rec.codex == s.rec.codex
  {
  }

  /** Once exited is closed it stays closed with a terminal status, no supervisor is left or starts,
      and nothing more is admitted, attempted or accepted. */
  lemma {:induction false} NothingAfterExit(run: seq<State>, actions: seq<Action>, i: nat, j: nat)
    requires IsRun(run, actions) && i <= j < |run| && run[i].rec.exited
    ensures run[j].rec.exited && Terminal(run[j].rec.status)
    ensures forall w :: w in run[j].workers ==> run[j].workers[w].Entering?
    ensures run[j].log.sent == run[i].log.sent && run[j].log.accepted == run[i].log.accepted
             && run[j].log.admitted == run[i].log.admitted
    decreases j - i
  {
    InvThroughout(run, actions, j);
    InvThroughout(run, actions, i);
    if i < j {
      assert StepAt(run, actions, i);
      ExitIsFinal(run[i], actions[i]);
      NothingAfterExit(run, actions, i + 1, j);
    }
  }

  lemma ExitIsFinal(s: State, a: Action)
    requires Inv(s) && Enabled(s, a) && s.rec.exited
    ensures var t := Step(s, a);
            && t.rec.exited && t.log.sent == s.log.sent && t.log.accepted == s.log.accepted
               && t.log.admitted == s.log.admitted
  {
    if a.PostApproval? {
      DecisionSendsNothing(s, a.id, a.decision, a.answers, a.written, a.now);
    }
  }

  // ---- a stop starts none of the queued messages ----

  /** The conversation is canceled, and the message is queued or given up. */
  ghost predicate SetAside(s: State, m: Message) {
    s.rec.canceled && (m in s.rec.next || m in s.log.lost)
  }

  /** It stays so, and no attempt that is new in t carries it. */
  ghost predicate LeftAside(s: State, t: State, m: Message) {
    && SetAside(t, m)
    && |s.log.sent| <= |t.log.sent|
    && (forall k :: 0 <= k < |s.log.sent| ==> t.log.sent[k].batch == s.log.sent[k].batch)
    && (forall k :: |s.log.sent| <= k < |t.log.sent| ==> m !in t.log.sent[k].batch)
  }

  lemma DecisionLeavesAside(s: State, a: Action, m: Message)
    requires Inv(s) && Enabled(s, a) && a.PostApproval? && SetAside(s, m)
    ensures LeftAside(s, Step(s, a), m)
  {
    DecisionSendsNothing(s, a.id, a.decision, a.answers, a.written, a.now);
  }

  /** Most posts to a canceled conversation touch neither its queue nor its log. */
  lemma PostLeavesAside(s: State, a: Action, m: Message)
    requires Inv(s) && Enabled(s, a) && IsPost(a) && !a.PostApproval? && SetAside(s, m)
    ensures LeftAside(s, Step(s, a), m)
  {
    if a.PostInterrupt? {
      InterruptLeavesAside(s, m);
    } else {
      PostsKeepQueue(s, a);
    }
  }

  lemma InterruptLeavesAside(s: State, m: Message)
    requires SetAside(s, m)
    ensures LeftAside(s, AfterInterrupt(s), m)
  {
  }

  predicate SameQueue(s: State, t: State) {
    t.log == s.log && t.rec.next == s.rec.next && (s.rec.canceled ==> t.rec.canceled)
  }

  lemma PostsKeepQueue(s: State, a: Action)
    requires Readable(s) && s.rec.canceled && Enabled(s, a) && IsPost(a) && !a.PostApproval? && !a.PostInterrupt?
    ensures SameQueue(s, Step(s, a))
  {
    match a
    case Post(_) => assert Step(s, a) == s;
    case RunWaiting(push) => PushKeepsQueue(s, push);
    case _ =>
  }

  lemma PushKeepsQueue(s: State, push: Option<Time>)
    ensures SameQueue(s, s.(rec := HandleRunWaiting(s.rec, push).0))
  {
  }

  lemma TickLeavesAside(s: State, w: Worker, delivered: bool, m: Message)
    requires At(s, w, Looping) && SetAside(s, m)
    ensures LeftAside(s, AfterTick(s, w, delivered), m)
  {
  }

  lemma SteerLeavesAside(s: State, w: Worker, outcome: Outcome, m: Message)
    requires Supervises(s, w) && s.workers[w].stage.Steering? && Tells(s, s.workers[w].stage.n, outcome)
             && SetAside(s, m)
    ensures LeftAside(s, AfterSteerReply(s, w, outcome), m)
  {
  }

  lemma BeginLeavesAside(s: State, w: Worker, delivered: bool, m: Message)
    requires Inv(s) && Supervises(s, w) && s.workers[w].stage.BeginningTurn? && SetAside(s, m)
    ensures LeftAside(s, SendBatch(s.(rec := BeginCodexTurn(s.rec)), w, s.workers[w].stage.batch, Start, delivered), m)
  {
    Ledger.Elsewhere(s.log.accepted, WireMessages(s.wire), s.held, s.rec.next, s.log.lost, s.log.admitted, m);
    assert s.rec.codex == Some(w);
    assert s.held == s.workers[w].stage.batch;
  }

  lemma LoopLeavesAside(s: State, a: Action, m: Message)
    requires Inv(s) && Enabled(s, a) && IsLoop(a) && SetAside(s, m)
    ensures LeftAside(s, Step(s, a), m)
  {
    if a.Tick? {
      TickLeavesAside(s, a.w, a.delivered, m);
    } else if a.SteerReplied? {
      SteerLeavesAside(s, a.w, a.outcome, m);
    } else if a.BeginTurn? {
      BeginLeavesAside(s, a.w, a.delivered, m);
    } else {
      ReplyLeavesAside(s, a, m);
    }
  }

  lemma ReplyLeavesAside(s: State, a: Action, m: Message)
    requires Readable(s) && Enabled(s, a) && (a.ClearInterrupt? || a.StartReplied?) && SetAside(s, m)
    ensures LeftAside(s, Step(s, a), m)
  {
  }

  lemma AnnouncedLeavesAside(s: State, a: Action, m: Message)
    requires Inv(s) && Enabled(s, a) && IsAnnounced(a) && SetAside(s, m)
    ensures LeftAside(s, Step(s, a), m)
  {
    assert Step(s, a) == s;
  }

  lemma ReadLeavesAside(s: State, accepts: bool, m: Message)
    requires Readable(s) && s.wire != [] && SetAside(s, m)
    ensures LeftAside(s, AfterServerReads(s, accepts), m)
  {
  }

  lemma WorkerLeavesAside(s: State, a: Action, m: Message)
    requires Inv(s) && Enabled(s, a) && !IsPost(a) && !IsLoop(a) && !IsAnnounced(a) && !a.ServerReads? && SetAside(s, m)
    ensures LeftAside(s, Step(s, a), m)
  {
  }

  lemma StepLeavesAside(s: State, a: Action, m: Message)
    requires Inv(s) && Enabled(s, a) && SetAside(s, m)
    ensures LeftAside(s, Step(s, a), m)
  {
    if a.PostApproval? {
      DecisionLeavesAside(s, a, m);
    } else if IsPost(a) {
      PostLeavesAside(s, a, m);
    } else if IsLoop(a) {
      LoopLeavesAside(s, a, m);
    } else if IsAnnounced(a) {
      AnnouncedLeavesAside(s, a, m);
    } else if a.ServerReads? {
      ReadLeavesAside(s, a.accepts, m);
    } else {
      WorkerLeavesAside(s, a, m);
    }
  }

  lemma {:induction false} AsideThroughout(run: seq<State>, actions: seq<Action>, i: nat, j: nat, m: Message)
    requires IsRun(run, actions) && i <= j < |run| && SetAside(run[i], m)
    ensures LeftAside(run[i], run[j], m)
  {
    if i < j {
      AsideThroughout(run, actions, i, j - 1, m);
      InvThroughout(run, actions, j - 1);
      assert StepAt(run, actions, j - 1);
      StepLeavesAside(run[j - 1], actions[j - 1], m);
    }
  }

  /** From the moment a conversation is canceled no attempt carries a message that is queued then, and the
      app-server never accepts it: a stop starts none of the queued messages. */
  lemma QueuedAreNeverStarted(run: seq<State>, actions: seq<Action>, i: nat, j: nat, m: Message)
    requires IsRun(run, actions) && i <= j < |run| && run[i].rec.canceled && m in run[i].rec.next
    ensures |run[i].log.sent| <= |run[j].log.sent|
    ensures forall k :: |run[i].log.sent| <= k < |run[j].log.sent| ==> m !in run[j].log.sent[k].batch
    ensures m !in run[j].log.accepted
  {
    AsideThroughout(run, actions, i, j, m);
    InvThroughout(run, actions, j);
    var s := run[j];
    Ledger.Elsewhere(s.log.accepted, WireMessages(s.wire), s.held, s.rec.next, s.log.lost, s.log.admitted, m);
  }

  // ---- what a command is answered with ----

  /** In every run, a pending call is what codexApproval made of the request with its number; whatever reply
      fits it says what the decision means, and for a command that lists its decisions is one of those listed. */
  lemma CommandsAreAnsweredAsListed(run: seq<State>, actions: seq<Action>, i: nat, k: nat,
                                    decision: string, answers: map<string, string>, reply: Reply)
    requires IsRun(run, actions) && i < |run| && k < |run[i].rec.approvals|
    requires ReplyFits(run[i].rec.approvals[k].call, decision, answers, reply)
    ensures var a := run[i].rec.approvals[k];
            && a.serial < |run[i].log.asked| && WellFormed(a.call)
            && var request := run[i].log.asked[a.serial];
            && SaysWhatIsMeant(request, decision, reply)
            && (request.Command? && decision == "deny" ==>
                 reply.Decided? && reply.word != "accept" && reply.word != "acceptForSession")
            && (request.Command? && request.available != [] ==>
                 && reply.Decided?
                 && (Lists(request.available, reply.word)
                     || (reply.word == "cancel" && ListsCancel(request.available))))
  {
    InvThroughout(run, actions, i);
    var a := run[i].rec.approvals[k];
    assert BuiltFrom(run[i].log.asked[a.serial], a.call);
    var request := run[i].log.asked[a.serial];
    BuiltIsWellFormed(request, a.call);
    SentAsMeant(request, a.call, decision, answers, reply);
    if request.Command? && request.available != [] {
      CommandsGetAListedWord(request, a.call, decision, answers, reply);
    }
  }
}
