/** What every run of an Antigravity conversation keeps, and where its order fails. */
module AntigravityRuns {
  import opened Basics
  import opened ConversationRecord
  import opened AntigravityTurns

  ghost predicate Steps(s: State, a: Action, t: State) {
    Enabled(s, a) && t == Step(s, a)
  }

  ghost predicate StepAt(run: seq<State>, actions: seq<Action>, i: nat)
    requires |run| == |actions| + 1 && i < |actions|
  {
    Steps(run[i], actions[i], run[i + 1])
  }

  ghost predicate IsRun(run: seq<State>, actions: seq<Action>) {
    && |run| == |actions| + 1
    && Initial(run[0])
    && (forall i :: 0 <= i < |actions| ==> StepAt(run, actions, i))
  }

  lemma {:induction false} InvThroughout(run: seq<State>, actions: seq<Action>, i: nat)
    requires IsRun(run, actions) && i < |run|
    ensures Inv(run[i])
  {
    if i > 0 {
      InvThroughout(run, actions, i - 1);
      assert StepAt(run, actions, i - 1);
      InvPreserved(run[i - 1], actions[i - 1]);
    }
  }

  /** Never two processes, and none once exited is closed. */
  lemma OneProcessAtATime(run: seq<State>, actions: seq<Action>, i: nat, v: Worker, w: Worker)
    requires IsRun(run, actions) && i < |run|
    requires Alive(run[i], v) && Alive(run[i], w)
    ensures v == w && run[i].rec.busy && !run[i].rec.exited
  {
    InvThroughout(run, actions, i);
  }

  /** Once exited is closed it stays closed with a terminal status, and no turn ever starts. */
  lemma {:induction false} NothingAfterExit(run: seq<State>, actions: seq<Action>, i: nat, j: nat)
    requires IsRun(run, actions) && i <= j < |run| && run[i].rec.exited
    ensures run[j].rec.exited && Terminal(run[j].rec.status) && run[j].turns == map[] && run[j].log == run[i].log
    decreases j - i
  {
    InvThroughout(run, actions, i);
    InvThroughout(run, actions, j);
    if i < j {
      assert StepAt(run, actions, i);
      NothingAfterExit(run, actions, i + 1, j);
    }
  }

  /** Every admitted message is in exactly one place: a turn's prompt, the queue, or among the dropped. */
  lemma Conservation(run: seq<State>, actions: seq<Action>, i: nat)
    requires IsRun(run, actions) && i < |run|
    ensures var log := run[i].log;
            var places := multiset(log.prompts) + multiset(run[i].rec.next) + multiset(log.dropped);
            && places == multiset(log.admitted)
            && (forall k :: 0 <= k < |log.admitted| ==> places[log.admitted[k]] == 1)
  {
    InvThroughout(run, actions, i);
    var admitted := run[i].log.admitted;
    forall k | 0 <= k < |admitted| ensures multiset(admitted)[admitted[k]] == 1 {
      OncePerNumber(admitted, k);
    }
  }

  /** A turn hands over to the oldest queued message, unless it was interrupted or stopped: only then is
      the queue dropped. */
  lemma HandsOverInOrder(run: seq<State>, actions: seq<Action>, i: nat)
    requires IsRun(run, actions) && i < |actions| && actions[i].Finish?
    ensures var s, t := run[i], run[i + 1];
            if s.rec.next != [] && !s.rec.interrupted && !s.rec.canceled
            then t.log.prompts == s.log.prompts + [s.rec.next[0]] && t.rec.next == s.rec.next[1..] && t.rec.busy
                 && forall m :: m in s.rec.next[1..] ==> s.rec.next[0].number < m.number
            else t.log.prompts == s.log.prompts && t.rec.next == [] && !t.rec.busy
                 && t.log.dropped == s.log.dropped + s.rec.next
    ensures !run[i].rec.shuttingDown && (run[i].rec.canceled ==> run[i + 1].rec.status == run[i].rec.endsAs)
  {
    InvThroughout(run, actions, i);
    assert StepAt(run, actions, i);
  }

  /** A message posted to a conversation that is not stopped waits behind the turn in progress, or is the prompt
      of a turn of its own. */
  lemma PostedWhere(run: seq<State>, actions: seq<Action>, i: nat)
    requires IsRun(run, actions) && i < |actions| && actions[i].Post?
    ensures var s, t, m := run[i], run[i + 1], Message(|run[i].log.admitted|, actions[i].text);
            if s.rec.canceled || s.rec.shuttingDown then t == s
            else
              && t.log.admitted == s.log.admitted + [m] && t.rec.busy
              && (if s.rec.busy then t.rec.next == s.rec.next + [m] && t.log.prompts == s.log.prompts
                  else t.rec.next == s.rec.next && t.log.prompts == s.log.prompts + [m])
  {
    InvThroughout(run, actions, i);
    assert StepAt(run, actions, i);
  }

  // ---- interrupts ----

  /** The turn is past its opening section. */
  predicate UnderWay(s: State, w: Worker) {
    w in s.turns && !s.turns[w].Preparing?
  }

  /** It never comes before that section again. */
  predicate NotBefore(s: State, w: Worker) {
    w < |s.log.prompts| && (w in s.turns ==> !s.turns[w].Preparing?)
  }

  lemma {:induction false} OpensOnce(run: seq<State>, actions: seq<Action>, k: nat, j: nat, w: Worker)
    requires IsRun(run, actions) && k <= j < |run| && UnderWay(run[k], w)
    ensures NotBefore(run[j], w)
  {
    InvThroughout(run, actions, k);
    if k < j {
      OpensOnce(run, actions, k, j - 1, w);
      assert StepAt(run, actions, j - 1);
    }
  }

  /** What a step does to the interrupt of a turn that is past its opening section. */
  ghost predicate InterruptMoves(s: State, a: Action, t: State, w: Worker) {
    if UnderWay(s, w) then t.rec.interrupted <==> s.rec.interrupted || a.PostInterrupt?
    else a.Begin? && a.w == w && w in s.turns && !t.rec.interrupted
  }

  lemma FinishOpensNone(s: State, a: Action, w: Worker)
    requires Inv(s) && Enabled(s, a) && a.Finish?
    ensures !UnderWay(Step(s, a), w)
  {
    assert s.turns - {a.w} == map[];
  }

  lemma InterruptStep(s: State, a: Action, w: Worker)
    requires Inv(s) && Enabled(s, a) && UnderWay(Step(s, a), w)
    ensures InterruptMoves(s, a, Step(s, a), w)
  {
    if a.Finish? {
      FinishOpensNone(s, a, w);
    }
  }

  /** An interrupt came after the turn's opening section. */
  ghost predicate InterruptedSince(run: seq<State>, actions: seq<Action>, j: nat, w: Worker)
    requires |run| == |actions| + 1 && j < |run|
  {
    exists k :: 0 <= k < j && actions[k].PostInterrupt? && UnderWay(run[k], w)
  }

  lemma InterruptedOneMore(run: seq<State>, actions: seq<Action>, j: nat, w: Worker)
    requires |run| == |actions| + 1 && j < |actions|
    ensures InterruptedSince(run, actions, j + 1, w) <==>
            InterruptedSince(run, actions, j, w) || (actions[j].PostInterrupt? && UnderWay(run[j], w))
  {
  }

  /** A turn past its opening section is interrupted exactly when an interrupt came after that section: the
      section forgets an interrupt that came before it. */
  lemma {:induction false} InterruptedExactly(run: seq<State>, actions: seq<Action>, j: nat, w: Worker)
    requires IsRun(run, actions) && j < |run| && UnderWay(run[j], w)
    ensures run[j].rec.interrupted <==> InterruptedSince(run, actions, j, w)
  {
    if j > 0 {
      InvThroughout(run, actions, j - 1);
      assert StepAt(run, actions, j - 1);
      InterruptStep(run[j - 1], actions[j - 1], w);
      InterruptedOneMore(run, actions, j - 1, w);
      if UnderWay(run[j - 1], w) {
        InterruptedExactly(run, actions, j - 1, w);
      } else {
        forall k | 0 <= k < j - 1 ensures !UnderWay(run[k], w) {
          if UnderWay(run[k], w) {
            OpensOnce(run, actions, k, j - 1, w);
          }
        }
      }
    }
  }

  /** The end of a turn drops the queue exactly when the conversation was stopped, or an interrupt came after
      the turn's opening section. */
  lemma DroppedExactly(run: seq<State>, actions: seq<Action>, i: nat)
    requires IsRun(run, actions) && i < |actions| && actions[i].Finish? && run[i].rec.next != []
    ensures var s, t := run[i], run[i + 1];
            if s.rec.canceled || InterruptedSince(run, actions, i, actions[i].w)
            then t.log.dropped == s.log.dropped + s.rec.next && t.log.prompts == s.log.prompts && t.rec.next == []
            else t.log.dropped == s.log.dropped && t.log.prompts == s.log.prompts + [s.rec.next[0]]
                 && t.rec.next == s.rec.next[1..]
  {
    assert StepAt(run, actions, i);
    InterruptedExactly(run, actions, i, actions[i].w);
    HandsOverInOrder(run, actions, i);
  }

  /** A run in which the turn in progress is interrupted before its opening section. */
  function Hasty(first: string, second: string): (states: seq<State>) {
    var m0, m1 := Message(0, first), Message(1, second);
    var start := Opened(Antigravity, Canceled);
    var busy := start.(busy := true);
    var queued := busy.(next := [m1]);
    var piped := queued.(input := Some(0));
    var one, two := History([m0], [m0], []), History([m0, m1], [m0], []);
    [ State(start, map[], History([], [], [])),
      State(busy, map[0 := Preparing(m0)], one),
      State(queued, map[0 := Preparing(m0)], two),
      State(queued.(interrupted := true), map[0 := Preparing(m0)], two),
      State(piped, map[0 := Begun(m0, false)], two),
      State(piped, map[0 := Live(m0, false, 0)], two),
      State(piped, map[0 := Live(m0, true, 0)], two),
      State(piped, map[0 := Reaped(m0)], two),
      State(busy, map[1 := Preparing(m1)], History([m0, m1], [m0, m1], [])) ]
  }

  function HastyActions(first: string, second: string): seq<Action> {
    [Post(first), Post(second), PostInterrupt, Begin(0, false, true), Launch(0), TellPrompt(0), Exit(0),
     Finish(0, 0)]
  }

  /** So an interrupt can be accepted and lost: nothing signals the turn, and the queue goes on after it. */
  lemma InterruptLost(first: string, second: string)
    ensures var run, actions := Hasty(first, second), HastyActions(first, second);
            && IsRun(run, actions)
            && actions[2].PostInterrupt? && run[2].rec.busy && run[3].rec.interrupted
            && run[7].rec.next != [] && run[8].log.prompts == run[7].log.prompts + [Message(1, second)]
  {
    var run, actions := Hasty(first, second), HastyActions(first, second);
    assert forall k :: 0 <= k < |actions| ==> StepAt(run, actions, k);
  }

  /** Order of the turns: those started so far and those queued come in admission order. */
  predicate InOrder(s: State) {
    Ascending(s.log.prompts + s.rec.next)
  }

  /** A turn is started from an idle conversation in order exactly when nothing is left in the queue. */
  lemma StartsInOrder(s: State, text: string)
    requires Inv(s) && InOrder(s) && !s.rec.busy && !s.rec.canceled
    ensures InOrder(AfterPost(s, text)) <==> s.rec.next == []
  {
    var t := AfterPost(s, text);
    var m := Message(|s.log.admitted|, text);
    assert t.log.prompts + t.rec.next == s.log.prompts + [m] + s.rec.next;
    if s.rec.next == [] {
      assert s.log.prompts + s.rec.next == s.log.prompts;
    } else {
      var order := t.log.prompts + t.rec.next;
      assert order[|s.log.prompts|] == m && order[|s.log.prompts| + 1] == s.rec.next[0];
      assert s.rec.next[0] in s.rec.next;
    }
  }

  /** Every other step keeps the order. */
  lemma OthersKeepOrder(s: State, a: Action)
    requires Inv(s) && InOrder(s) && Enabled(s, a) && !(a.Post? && !s.rec.busy)
    ensures InOrder(Step(s, a))
  {
    if a.Post? {
      QueuesInOrder(s, a.text);
    } else if a.Finish? {
      FinishesInOrder(s, a.w, a.now);
    } else {
      assert Step(s, a).log.prompts == s.log.prompts && Step(s, a).rec.next == s.rec.next;
    }
  }

  lemma QueuesInOrder(s: State, text: string)
    requires Inv(s) && InOrder(s) && s.rec.busy
    ensures InOrder(AfterPost(s, text))
  {
    if !s.rec.canceled && !s.rec.shuttingDown {
      var m := Message(|s.log.admitted|, text);
      var order := s.log.prompts + s.rec.next;
      assert s.log.prompts + (s.rec.next + [m]) == order + [m];
      forall i | 0 <= i < |order| ensures order[i].number < m.number {
        assert order[i] in s.log.prompts || order[i] in s.rec.next;
      }
    }
  }

  lemma FinishesInOrder(s: State, w: Worker, now: Time)
    requires Inv(s) && InOrder(s)
    ensures InOrder(AfterFinish(s, w, now))
  {
    var t := AfterFinish(s, w, now);
    if t.log.prompts != s.log.prompts {
      assert t.log.prompts + t.rec.next == s.log.prompts + s.rec.next;
    } else {
      AscendingPrefix(s.log.prompts, s.rec.next);
      assert t.log.prompts + t.rec.next == s.log.prompts;
    }
  }

  lemma AscendingPrefix(a: seq<Message>, b: seq<Message>)
    requires Ascending(a + b)
    ensures Ascending(a)
  {
    forall i, j | 0 <= i < j < |a| ensures a[i].number < a[j].number {
      assert (a + b)[i] == a[i] && (a + b)[j] == a[j];
    }
  }

  /** In a run where every turn started by a post found an empty queue, turns come in admission order. */
  lemma {:induction false} TurnsInOrder(run: seq<State>, actions: seq<Action>, i: nat)
    requires IsRun(run, actions) && i < |run|
    requires forall k :: 0 <= k < i && actions[k].Post? && !run[k].rec.busy ==> run[k].rec.next == []
    ensures InOrder(run[i])
  {
    if i > 0 {
      TurnsInOrder(run, actions, i - 1);
      InvThroughout(run, actions, i - 1);
      assert StepAt(run, actions, i - 1);
      var s, a := run[i - 1], actions[i - 1];
      if a.Post? && !s.rec.busy {
        if s.rec.canceled {
          assert run[i] == s;
        } else {
          StartsInOrder(s, a.text);
        }
      } else {
        OthersKeepOrder(s, a);
      }
    }
  }

  /** The states of a run in which a turn does not start and leaves its queue behind. */
  function Leftover(first: string, second: string, third: string): (states: seq<State>) {
    var m0, m1, m2 := Message(0, first), Message(1, second), Message(2, third);
    var start := Opened(Antigravity, Canceled);
    var busy := start.(busy := true);
    var queued := busy.(next := [m1]);
    [ State(start, map[], History([], [], [])),
      State(busy, map[0 := Preparing(m0)], History([m0], [m0], [])),
      State(busy, map[0 := Begun(m0, true)], History([m0], [m0], [])),
      State(queued, map[0 := Begun(m0, true)], History([m0, m1], [m0], [])),
      State(queued, map[0 := Failed(m0)], History([m0, m1], [m0], [])),
      State(queued.(busy := false), map[], History([m0, m1], [m0], [])),
      State(queued, map[1 := Preparing(m2)], History([m0, m1, m2], [m0, m2], [])) ]
  }

  function LeftoverActions(first: string, second: string, third: string): seq<Action> {
    [Post(first), Begin(0, true, false), Post(second), LaunchFailed(0), Abandon(0), Post(third)]
  }

  /** Without that, order fails: a turn that did not start leaves its queue behind, and the next message
      posted is taken up before it. */
  lemma LeftoversAreOvertaken(first: string, second: string, third: string)
    ensures var run, actions := Leftover(first, second, third), LeftoverActions(first, second, third);
            IsRun(run, actions) && InOrder(run[5]) && !InOrder(run[6])
  {
    var run, actions := Leftover(first, second, third), LeftoverActions(first, second, third);
    assert forall k :: 0 <= k < |actions| ==> StepAt(run, actions, k);
    OvertakenState(first, second, third);
  }

  lemma OvertakenState(first: string, second: string, third: string)
    ensures var run := Leftover(first, second, third);
            Initial(run[0]) && InOrder(run[5]) && !InOrder(run[6])
  {
    var run := Leftover(first, second, third);
    assert run[5].log.prompts + run[5].rec.next == [Message(0, first), Message(1, second)];
    var order := run[6].log.prompts + run[6].rec.next;
    assert order[1] == Message(2, third) && order[2] == Message(1, second);
  }
}
