/** What every run of a Claude conversation keeps. */
module ClaudeRuns {
  import opened Basics
  import opened Approvals
  import opened ConversationRecord
  import opened ClaudeTurns

  ghost predicate Steps(s: State, a: Action, t: State) {
    Enabled(s, a) && t == Step(s, a)
  }

  ghost predicate StepAt(run: seq<State>, actions: seq<Action>, i: nat)
    requires |run| == |actions| + 1 && i < |actions|
  {
    Steps(run[i], actions[i], run[i + 1])
  }

  ghost predicate IsRun(run: seq<State>, actions: seq<Action>) {
    && |run| == |actions| + 1
    && Initial(run[0])
    && (forall i :: 0 <= i < |actions| ==> StepAt(run, actions, i))
  }

  lemma {:induction false} InvThroughout(run: seq<State>, actions: seq<Action>, i: nat)
    requires IsRun(run, actions) && i < |run|
    ensures Inv(run[i])
  {
    if i == 0 {
      InitialInv(run[0]);
    } else {
      InvThroughout(run, actions, i - 1);
      assert StepAt(run, actions, i - 1);
      InvPreserved(run[i - 1], actions[i - 1]);
    }
  }

  /** Never two processes: at any moment of any run the live processes are one and the same, and none
      is left once exited is closed. */
  lemma OneProcessAtATime(run: seq<State>, actions: seq<Action>, i: nat, v: Worker, w: Worker)
    requires IsRun(run, actions) && i < |run|
    requires Alive(run[i], v) && Alive(run[i], w)
    ensures v == w && run[i].rec.busy && !run[i].rec.exited
  {
    InvThroughout(run, actions, i);
  }

  lemma ExitIsFinal(s: State, a: Action)
    requires Inv(s) && Enabled(s, a) && s.rec.exited
    ensures Step(s, a).rec.exited && Step(s, a).turns == map[]
    ensures Step(s, a).log.prompts == s.log.prompts && Step(s, a).log.admitted == s.log.admitted
  {
    InvPreserved(s, a);
    assert s.turns == map[];
  }

  /** Once exited is closed it stays closed with a terminal status, nothing is admitted and no turn ever starts. */
  lemma {:induction false} NothingAfterExit(run: seq<State>, actions: seq<Action>, i: nat, j: nat)
    requires IsRun(run, actions) && i <= j < |run| && run[i].rec.exited
    ensures run[j].rec.exited && Terminal(run[j].rec.status) && run[j].turns == map[]
    ensures run[j].log.prompts == run[i].log.prompts && run[j].log.admitted == run[i].log.admitted
    decreases j - i
  {
    InvThroughout(run, actions, j);
    if i < j {
      InvThroughout(run, actions, i);
      assert StepAt(run, actions, i);
      ExitIsFinal(run[i], actions[i]);
      NothingAfterExit(run, actions, i + 1, j);
    } else {
      assert run[i].turns == map[];
    }
  }

  function Messages(admitted: seq<(Message, bool)>): seq<Message> {
    seq(|admitted|, i requires 0 <= i < |admitted| => admitted[i].0)
  }

  lemma {:induction false} LanesPartition(admitted: seq<(Message, bool)>)
    ensures multiset(Lane(admitted, true)) + multiset(Lane(admitted, false)) == multiset(Messages(admitted))
  {
    if admitted == [] {
      assert Messages(admitted) == [];
    } else {
      var init, last := admitted[..|admitted| - 1], admitted[|admitted| - 1];
      LanesPartition(init);
      assert Messages(admitted) == Messages(init) + [last.0];
    }
  }

  /** Prompts and next keep the admission order of the messages that wait for a turn of their own, and
      what joined a turn keeps that of the others; messages are only dropped by a stop. */
  lemma LanesKeepOrder(run: seq<State>, actions: seq<Action>, i: nat)
    requires IsRun(run, actions) && i < |run|
    ensures var log := run[i].log;
            && Flatten(log.prompts) + run[i].rec.next + log.dropped == Lane(log.admitted, true)
            && log.joined == Lane(log.admitted, false)
            && (log.dropped != [] ==> run[i].rec.canceled)
  {
    InvThroughout(run, actions, i);
  }

  /** Every admitted message is in exactly one place: on a turn's stdin, in the prompt of a turn, in
      next, or among those a stop dropped. */
  lemma Conservation(run: seq<State>, actions: seq<Action>, i: nat)
    requires IsRun(run, actions) && i < |run|
    ensures var log := run[i].log;
            var places := multiset(Flatten(log.prompts)) + multiset(run[i].rec.next)
                          + multiset(log.joined) + multiset(log.dropped);
            && places == multiset(Messages(log.admitted))
            && (forall k :: 0 <= k < |log.admitted| ==> places[log.admitted[k].0] == 1)
  {
    InvThroughout(run, actions, i);
    PlacesPartition(run[i].log.prompts, run[i].rec.next, run[i].log.dropped, run[i].log.joined, run[i].log.admitted);
  }

  lemma PlacesPartition(prompts: seq<seq<Message>>, next: seq<Message>, dropped: seq<Message>, joined: seq<Message>,
                        admitted: seq<(Message, bool)>)
    requires Accounts(prompts, next, dropped, joined, admitted)
    ensures var places := multiset(Flatten(prompts)) + multiset(next) + multiset(joined) + multiset(dropped);
            && places == multiset(Messages(admitted))
            && (forall k :: 0 <= k < |admitted| ==> places[admitted[k].0] == 1)
  {
    LanesPartition(admitted);
    forall k | 0 <= k < |admitted| ensures multiset(Messages(admitted))[admitted[k].0] == 1 {
      OncePerNumber(Messages(admitted), k);
    }
  }

  /** next becomes exactly the prompt of the following turn, unless the conversation was stopped. */
  lemma NextIsTheFollowingPrompt(run: seq<State>, actions: seq<Action>, i: nat)
    requires IsRun(run, actions) && i < |actions| && actions[i].Finish?
    ensures var s, t := run[i], run[i + 1];
            && t.rec.next == []
            && (if s.rec.next != [] && !s.rec.canceled
                then t.log.prompts == s.log.prompts + [s.rec.next] && t.rec.busy && t.log.dropped == s.log.dropped
                else t.log.prompts == s.log.prompts && !t.rec.busy && t.log.dropped == s.log.dropped + s.rec.next)
  {
    InvThroughout(run, actions, i);
    assert StepAt(run, actions, i);
  }

  // ---- where a message goes ----

  /** A post to a conversation that is not stopped admits its message; it starts a turn when there is none, joins
      the turn in progress exactly when that turn's stdin took it, and waits in next otherwise. */
  lemma PostedWhere(run: seq<State>, actions: seq<Action>, i: nat)
    requires IsRun(run, actions) && i < |actions| && actions[i].Post?
    ensures var s, t, m := run[i], run[i + 1], Message(|run[i].log.admitted|, actions[i].text);
            if s.rec.canceled || s.rec.shuttingDown then t == s
            else
              && Messages(t.log.admitted) == Messages(s.log.admitted) + [m]
              && t.rec.busy
              && t.log.prompts == s.log.prompts + (if s.rec.busy then [] else [[m]])
              && (if s.rec.busy && s.rec.input.Some? && actions[i].written
                  then Writable(s) && t.log.joined == s.log.joined + [m] && t.rec.next == s.rec.next
                  else t.log.joined == s.log.joined && t.rec.next == s.rec.next + if s.rec.busy then [m] else [])
  {
    InvThroughout(run, actions, i);
    assert StepAt(run, actions, i);
    var s := run[i];
    if !s.rec.canceled && !s.rec.shuttingDown {
      var m := Message(|s.log.admitted|, actions[i].text);
      MessagesOneMore(s.log.admitted, m, run[i + 1].log.admitted[|s.log.admitted|].1);
    }
  }

  lemma MessagesOneMore(admitted: seq<(Message, bool)>, m: Message, waits: bool)
    ensures Messages(admitted + [(m, waits)]) == Messages(admitted) + [m]
  {
  }

  /** Nothing but a post that the turn's stdin took makes a message join. */
  lemma JoinedOnlyWhenWritten(run: seq<State>, actions: seq<Action>, i: nat)
    requires IsRun(run, actions) && i < |actions|
    ensures var s, a := run[i], actions[i];
            run[i + 1].log.joined != s.log.joined <==>
            a.Post? && !s.rec.canceled && !s.rec.shuttingDown && s.rec.busy && s.rec.input.Some? && a.written
  {
    assert StepAt(run, actions, i);
    if actions[i].Post? {
      PostedWhere(run, actions, i);
    }
  }

  // ---- interrupts ----

  /** A turn that has its place among the prompts is never started again. */
  lemma {:induction false} PromptsGrow(run: seq<State>, actions: seq<Action>, i: nat, j: nat)
    requires IsRun(run, actions) && i <= j < |run|
    ensures |run[i].log.prompts| <= |run[j].log.prompts|
  {
    if i < j {
      PromptsGrow(run, actions, i, j - 1);
      assert StepAt(run, actions, j - 1);
    }
  }

  /** What a step does to the interrupt and to the turns there are. */
  ghost predicate InterruptMoves(s: State, a: Action, t: State) {
    && (t.rec.interrupted <==> !a.Finish? && (s.rec.interrupted || (a.PostInterrupt? && s.rec.busy)))
    && (forall w :: w in t.turns && w !in s.turns ==> w == |s.log.prompts| && (a.Finish? || !s.rec.busy))
    && (t.rec.busy || a.Finish? || !s.rec.busy)
    && (a.Finish? ==> forall w :: w in s.turns ==> w !in t.turns)
  }

  lemma FinishEndsInterrupt(s: State, w: Worker, now: Time)
    requires Inv(s) && w in s.turns && s.turns[w].Reaped?
    ensures InterruptMoves(s, Finish(w, now), AfterFinish(s, w, now))
  {
  }

  lemma DecisionKeepsInterrupt(s: State, a: Action)
    requires Enabled(s, a) && a.PostApproval?
    ensures InterruptMoves(s, a, Step(s, a))
  {
  }

  predicate IsRequest(a: Action) {
    a.PostInterrupt? || a.DesktopStop? || a.StopConversations? || a.CancelRun? || a.RunWaiting? || a.Restart?
  }

  lemma RequestsInterrupt(s: State, a: Action)
    requires Enabled(s, a) && IsRequest(a)
    ensures InterruptMoves(s, a, Step(s, a))
  {
  }

  lemma PostKeepsInterrupt(s: State, a: Action)
    requires Enabled(s, a) && a.Post?
    ensures InterruptMoves(s, a, Step(s, a))
  {
  }

  lemma InterruptStep(s: State, a: Action)
    requires Inv(s) && Enabled(s, a)
    ensures InterruptMoves(s, a, Step(s, a))
  {
    if a.Post? {
      PostKeepsInterrupt(s, a);
    } else if IsRequest(a) {
      RequestsInterrupt(s, a);
    } else if a.Finish? {
      FinishEndsInterrupt(s, a.w, a.now);
    } else if a.PostApproval? {
      DecisionKeepsInterrupt(s, a);
    }
  }

  lemma {:induction false} IdleIsNotInterrupted(run: seq<State>, actions: seq<Action>, i: nat)
    requires IsRun(run, actions) && i < |run| && !run[i].rec.busy
    ensures !run[i].rec.interrupted
  {
    if i > 0 {
      InvThroughout(run, actions, i - 1);
      assert StepAt(run, actions, i - 1);
      InterruptStep(run[i - 1], actions[i - 1]);
      if !run[i - 1].rec.busy {
        IdleIsNotInterrupted(run, actions, i - 1);
      }
    }
  }

  /** An interrupt came while the turn was there. */
  ghost predicate InterruptedIn(run: seq<State>, actions: seq<Action>, j: nat, w: Worker)
    requires |run| == |actions| + 1 && j < |run|
  {
    exists k :: 0 <= k < j && actions[k].PostInterrupt? && w in run[k].turns
  }

  lemma InterruptedOneMore(run: seq<State>, actions: seq<Action>, j: nat, w: Worker)
    requires |run| == |actions| + 1 && j < |actions|
    ensures InterruptedIn(run, actions, j + 1, w) <==>
            InterruptedIn(run, actions, j, w) || (actions[j].PostInterrupt? && w in run[j].turns)
  {
  }

  /** A turn is interrupted exactly when an interrupt came while it was there, since its very start. */
  lemma {:induction false} InterruptedExactly(run: seq<State>, actions: seq<Action>, j: nat, w: Worker)
    requires IsRun(run, actions) && j < |run| && w in run[j].turns
    ensures run[j].rec.interrupted <==> InterruptedIn(run, actions, j, w)
  {
    if j > 0 {
      var s := run[j - 1];
      InvThroughout(run, actions, j - 1);
      assert StepAt(run, actions, j - 1);
      InterruptStep(s, actions[j - 1]);
      InterruptedOneMore(run, actions, j - 1, w);
      if w in s.turns {
        InterruptedExactly(run, actions, j - 1, w);
      } else {
        if !s.rec.busy {
          IdleIsNotInterrupted(run, actions, j - 1);
        }
        forall k | 0 <= k < j - 1 ensures w !in run[k].turns {
          InvThroughout(run, actions, k);
          PromptsGrow(run, actions, k, j - 1);
        }
      }
    }
  }

  // ---- decisions ----

  /** A tool call is answered on the wire at most once, only while its turn's stdin is open, and only by a
      decision that fits it. */
  lemma AnsweredOnceOnAnOpenStdin(run: seq<State>, actions: seq<Action>, i: nat)
    requires IsRun(run, actions) && i < |actions|
    ensures forall j, k :: 0 <= j < k < |run[i].log.answered| ==> run[i].log.answered[j] != run[i].log.answered[k]
    ensures run[i + 1].log.answered == run[i].log.answered || AnswersOne(run[i], actions[i], run[i + 1])
  {
    InvThroughout(run, actions, i);
    assert StepAt(run, actions, i);
    if actions[i].PostApproval? {
      AnswerTakesOne(run[i], actions[i]);
    }
  }

  /** The first pending call with the id, never answered before, is answered on an open stdin by a decision that
      fits it, and is pending no more. */
  ghost predicate AnswersOne(s: State, a: Action, t: State) {
    && Writable(s)
    && a.PostApproval? && a.decision in {"allow", "always", "deny", "answer"}
    && exists k: nat :: IsFirst(s.rec.approvals, a.id, k)
         && AnswersAccepted(s.rec.approvals[k].call, a.decision, a.answers)
         && s.rec.approvals[k].serial !in s.log.answered
         && t.log.answered == s.log.answered + [s.rec.approvals[k].serial]
         && t.rec.approvals == s.rec.approvals[..k] + s.rec.approvals[k + 1..]
  }

  lemma AnswerTakesOne(s: State, a: Action)
    requires Inv(s) && Enabled(s, a) && a.PostApproval?
    ensures Step(s, a).log.answered == s.log.answered || AnswersOne(s, a, Step(s, a))
  {
    FirstWithIDIs(s.rec.approvals, a.id);
    var at := FirstWithID(s.rec.approvals, a.id);
    if at.Some? {
      AnsweredExactly(s.rec, a.id, a.decision, a.answers, a.written, a.now, at.value);
      assert s.rec.approvals[at.value].serial !in s.log.answered;
    }
  }

  /** And every decision that fits is answered, when the write to the open stdin works. */
  lemma FittingIsAnswered(run: seq<State>, actions: seq<Action>, i: nat, k: nat)
    requires IsRun(run, actions) && i < |actions| && actions[i].PostApproval? && actions[i].written
    requires actions[i].decision in {"allow", "always", "deny", "answer"}
    requires IsFirst(run[i].rec.approvals, actions[i].id, k)
    requires AnswersAccepted(run[i].rec.approvals[k].call, actions[i].decision, actions[i].answers)
    ensures run[i + 1].log.answered == run[i].log.answered + [run[i].rec.approvals[k].serial]
  {
    InvThroughout(run, actions, i);
    assert StepAt(run, actions, i);
    var a := actions[i];
    AnsweredExactly(run[i].rec, a.id, a.decision, a.answers, a.written, a.now, k);
  }
}
