/** When a stop of a Claude conversation completes, over fair infinite runs. */
module ClaudeStops {
  import opened Basics
  import opened ConversationRecord
  import opened ClaudeTurns
  import opened ClaudeRuns
  import Liveness

  /** How many steps of its last turn a stopped conversation still waits for. */
  function Measure(s: State): nat {
    if s.log.prompts == [] || |s.log.prompts| - 1 !in s.turns then 0
    else
      match s.turns[|s.log.prompts| - 1]
      case Preparing(_) => 6
      case Live(_, published, _, signals) =>
        if !published then 5 else if signals == 0 then 4 else if signals == 1 then 3 else 2
      case Reaped(_, _) => 1
  }

  /** The step a stopped conversation waits for: its process starts or fails to, is told to stop,
      is killed, is waited for, and the turn's closing section runs. */
  predicate Serves(s: State, a: Action) {
    && s.log.prompts != []
    && var w := |s.log.prompts| - 1;
      && w in s.turns
      && match s.turns[w]
         case Preparing(_) => a == Launch(w) || a == LaunchFailed(w)
         case Live(_, published, _, signals) =>
           if !published then a == Publish(w) else if signals < 2 then a == Signal(w) else a == Exit(w)
         case Reaped(_, _) => a.Finish? && a.w == w
  }

  lemma SomethingServes(s: State)
    requires Inv(s) && s.rec.canceled && s.turns != map[]
    ensures exists a :: Enabled(s, a) && Serves(s, a)
  {
    var w: Worker :| w in s.turns;
    var a := match s.turns[w]
      case Preparing(_) => Launch(w)
      case Live(_, published, _, signals) =>
        if !published then Publish(w) else if signals < 2 then Signal(w) else Exit(w)
      case Reaped(_, _) => Finish(w, 0);
    assert Enabled(s, a) && Serves(s, a);
  }

  ghost predicate Stopping(s: State) {
    Inv(s) && s.rec.canceled && (s.rec.busy || s.rec.exited)
  }

  /** Still stopping, no turn started, and no further from the end; closer if the step served. */
  ghost predicate NoFurther(s: State, t: State, served: bool) {
    && t.rec.canceled && (t.rec.busy || t.rec.exited)
    && t.log.prompts == s.log.prompts
    && Measure(t) <= Measure(s)
    && (served ==> Measure(t) < Measure(s))
  }

  lemma StoppingStep(s: State, a: Action)
    requires Stopping(s) && Enabled(s, a)
    ensures Stopping(Step(s, a)) && NoFurther(s, Step(s, a), Serves(s, a))
  {
    InvPreserved(s, a);
    match a
    case Finish(_, _) =>
    case Launch(_) | LaunchFailed(_) | Publish(_) | CloseStdin(_) | Signal(_) | Exit(_) => StoppingProcess(s, a);
    case _ => StoppingRequest(s, a);
  }

  lemma StoppingRequest(s: State, a: Action)
    requires Stopping(s) && Enabled(s, a)
    requires !a.Finish? && !a.Launch? && !a.LaunchFailed? && !a.Publish? && !a.CloseStdin? && !a.Signal? && !a.Exit?
    ensures NoFurther(s, Step(s, a), Serves(s, a))
  {
    if Serves(s, a) {
      OnlyProcessesServe(s, a);
    }
    match a
    case Post(text, written) =>
    case PostApproval(id, decision, answers, written, now) =>
    case AskApproval(_, id, call, now) =>
    case _ =>
  }

  lemma OnlyProcessesServe(s: State, a: Action)
    requires Serves(s, a)
    ensures a.Finish? || a.Launch? || a.LaunchFailed? || a.Publish? || a.Signal? || a.Exit?
  {
  }

  lemma StoppingProcess(s: State, a: Action)
    requires Stopping(s) && Enabled(s, a)
    requires a.Launch? || a.LaunchFailed? || a.Publish? || a.CloseStdin? || a.Signal? || a.Exit?
    ensures NoFurther(s, Step(s, a), Serves(s, a))
  {
  }

  ghost predicate StepsFrom(run: nat -> State, act: nat -> Action, i: nat) {
    Steps(run(i), act(i), run(i + 1))
  }

  ghost predicate IsInfiniteRun(run: nat -> State, act: nat -> Action) {
    && Initial(run(0))
    && (forall i: nat :: StepsFrom(run, act, i))
  }

  lemma {:induction false} InfiniteInv(run: nat -> State, act: nat -> Action, i: nat)
    requires IsInfiniteRun(run, act)
    ensures Inv(run(i))
  {
    if i > 0 {
      InfiniteInv(run, act, i - 1);
      assert StepsFrom(run, act, i - 1);
      InvPreserved(run(i - 1), act(i - 1));
    }
  }

  lemma StoppingOneMore(run: nat -> State, act: nat -> Action, i: nat)
    requires IsInfiniteRun(run, act) && Stopping(run(i))
    ensures Stopping(run(i + 1)) && NoFurther(run(i), run(i + 1), Serves(run(i), act(i)))
  {
    assert StepsFrom(run, act, i);
    StoppingStep(run(i), act(i));
  }

  /** Fair until no turn is left: the step the last turn waits for is not put off for ever. */
  ghost predicate FairRun(run: nat -> State, act: nat -> Action) {
    Liveness.Fair((i: nat) => run(i).turns == map[], (i: nat) => Serves(run(i), act(i)))
  }

  lemma StoppingEnds(run: nat -> State, act: nat -> Action, i: nat) returns (j: nat)
    requires IsInfiniteRun(run, act) && FairRun(run, act) && Stopping(run(i))
    ensures i <= j && run(j).rec.exited
  {
    var measure := (k: nat) => Measure(run(k));
    var good := (k: nat) => Stopping(run(k));
    var done := (k: nat) => run(k).turns == map[];
    var served := (k: nat) => Serves(run(k), act(k));
    forall k: nat | good(k) && !done(k)
      ensures good(k + 1) && measure(k + 1) <= measure(k) && (served(k) ==> measure(k + 1) < measure(k))
    {
      StoppingOneMore(run, act, k);
    }
    j := Liveness.Ends(measure, good, done, served, i);
  }

  predicate IsStopRequest(a: Action) {
    a.DesktopStop? || a.StopConversations?
  }

  lemma {:induction false} IdleCancelStrands(run: nat -> State, act: nat -> Action, i: nat, j: nat)
    requires IsInfiniteRun(run, act) && i <= j
    requires run(i).rec.canceled && !run(i).rec.busy && !run(i).rec.exited
    requires forall k: nat :: i <= k < j ==> !IsStopRequest(act(k))
    ensures run(j).rec.canceled && !run(j).rec.busy && !run(j).rec.exited
    decreases j - i
  {
    if i < j {
      InfiniteInv(run, act, i);
      assert StepsFrom(run, act, i);
      assert run(i).turns == map[];
      assert !IsStopRequest(act(i));
      IdleCancelStrands(run, act, i + 1, j);
    }
  }

  /** When a stop completes. In every fair run, once canceled is set exited gets closed exactly if a turn
      was in progress then, or a stop request follows: cancelRun on an idle conversation only sets the
      flag, and nothing else ever closes it. */
  lemma StopCompletes(run: nat -> State, act: nat -> Action, i: nat)
    requires IsInfiniteRun(run, act) && FairRun(run, act) && run(i).rec.canceled
    ensures (exists j: nat :: i <= j && run(j).rec.exited)
            <==> (run(i).rec.busy || run(i).rec.exited || exists k: nat :: i <= k && IsStopRequest(act(k)))
  {
    InfiniteInv(run, act, i);
    if run(i).rec.busy || run(i).rec.exited {
      var j := StoppingEnds(run, act, i);
    } else if k: nat :| i <= k && IsStopRequest(act(k)) {
      var j := StopRequestCloses(run, act, i, k);
    } else {
      forall j: nat | i <= j ensures !run(j).rec.exited {
        IdleCancelStrands(run, act, i, j);
      }
    }
  }

  lemma StopRequestCloses(run: nat -> State, act: nat -> Action, i: nat, k: nat) returns (j: nat)
    requires IsInfiniteRun(run, act) && i <= k && IsStopRequest(act(k))
    requires run(i).rec.canceled && !run(i).rec.busy && !run(i).rec.exited
    ensures i <= j && run(j).rec.exited
  {
    var stops := (m: nat) => IsStopRequest(act(m));
    var first := Liveness.First(stops, i, k);
    forall m: nat | i <= m < first ensures !IsStopRequest(act(m)) {
      assert !stops(m);
    }
    IdleCancelStrands(run, act, i, first);
    InfiniteInv(run, act, first);
    assert StepsFrom(run, act, first);
    j := first + 1;
  }

  // ---- a cancel that nothing acts on ----

  function Fresh(canceled: bool): State {
    State(Opened(Claude, Canceled).(canceled := canceled), map[], History([], [], [], [], 0, []))
  }

  /** The server cancels a conversation that waits for its first message; after that it only says, again and
      again, that nobody is waited for. */
  function IdleRun(i: nat): State {
    Fresh(i > 0)
  }

  function IdleAction(i: nat): Action {
    if i == 0 then CancelRun else RunWaiting(None)
  }

  /** A fair run in which a canceled conversation never closes exited. */
  lemma CancelWithoutEnd()
    ensures IsInfiniteRun(IdleRun, IdleAction) && FairRun(IdleRun, IdleAction)
    ensures forall i: nat :: i > 0 ==> IdleRun(i).rec.canceled && !IdleRun(i).rec.exited
  {
    forall i: nat ensures StepsFrom(IdleRun, IdleAction, i) {
    }
    NothingToServe(IdleRun, IdleAction);
  }

  lemma NothingToServe(run: nat -> State, act: nat -> Action)
    requires forall i: nat :: run(i).turns == map[]
    ensures FairRun(run, act)
  {
    var done, served := (i: nat) => run(i).turns == map[], (i: nat) => Serves(run(i), act(i));
    forall i: nat ensures Liveness.ServedFrom(done, served, i) {
      assert done(i);
    }
  }
}
