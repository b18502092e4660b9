/** When a stop of an Antigravity conversation completes: it does if the turn's process started. */
module AntigravityStops {
  import opened Basics
  import opened ConversationRecord
  import opened AntigravityTurns
  import opened AntigravityRuns
  import Liveness

  function Measure(s: State): nat {
    if s.log.prompts == [] || |s.log.prompts| - 1 !in s.turns then 0
    else
      match s.turns[|s.log.prompts| - 1]
      case Preparing(_) => 7
      case Begun(_, _) => 6
      case Live(_, told, signals) => if !told then 5 else if signals == 0 then 4 else 3
      case Failed(_) => 2
      case Reaped(_) => 1
  }

  /** The step a stopped conversation waits for. */
  predicate Serves(s: State, a: Action) {
    && s.log.prompts != []
    && var w := |s.log.prompts| - 1;
      && w in s.turns
      && match s.turns[w]
         case Preparing(_) => a.Begin? && a.w == w
         case Begun(_, _) => a == Launch(w) || a == LaunchFailed(w)
         case Live(_, told, signals) =>
           if !told then a == TellPrompt(w) || a == PromptFailed(w)
           else if signals == 0 then a == Signal(w)
           else a == Exit(w)
         case Failed(_) => a == Abandon(w)
         case Reaped(_) => a.Finish? && a.w == w
  }

  /** A turn ends without its closing section: no pipe, no process, or no prompt taken. */
  predicate GivesUp(a: Action) {
    a.Abandon? || (a.Begin? && !a.slash && !a.piped)
  }

  predicate IsStopRequest(a: Action) {
    a.DesktopStop? || a.StopConversations?
  }

  ghost predicate Stopping(s: State) {
    Inv(s) && s.rec.canceled && s.rec.busy && !s.rec.exited
  }

  /** A canceled conversation whose last turn gave up. */
  ghost predicate Stranded(s: State) {
    Inv(s) && s.rec.canceled && !s.rec.busy && !s.rec.exited
  }

  /** While a stopped conversation's turn is in progress nothing brings it further from its end, which is
      either the closing section or giving up. */
  lemma StoppingStep(s: State, a: Action)
    requires Stopping(s) && Enabled(s, a)
    ensures if GivesUp(a) then Stranded(Step(s, a))
            else if a.Finish? then Step(s, a).rec.exited
            else Stopping(Step(s, a)) && NoFurther(s, Step(s, a), Serves(s, a))
  {
    InvPreserved(s, a);
    if GivesUp(a) {
      assert s.turns - {a.w} == map[];
    } else if !a.Finish? {
      StoppingGoesOn(s, a);
    }
  }

  ghost predicate NoFurther(s: State, t: State, served: bool) {
    && t.rec.canceled && t.rec.busy && !t.rec.exited && t.log.prompts == s.log.prompts
    && Measure(t) <= Measure(s) && (served ==> Measure(t) < Measure(s))
  }

  lemma StoppingGoesOn(s: State, a: Action)
    requires Stopping(s) && Enabled(s, a) && !GivesUp(a) && !a.Finish?
    ensures NoFurther(s, Step(s, a), Serves(s, a))
  {
    match a
    case Post(_) | PostInterrupt | DesktopStop | StopConversations | CancelRun | RunWaiting(_) | Restart =>
      assert Step(s, a).turns == s.turns && Step(s, a).log.prompts == s.log.prompts;
      PostsServeNothing(s, a);
    case _ =>
  }

  predicate IsPost(a: Action) {
    a.Post? || a.PostInterrupt? || a.DesktopStop? || a.StopConversations? || a.CancelRun? || a.RunWaiting? || a.Restart?
  }

  lemma PostsServeNothing(s: State, a: Action)
    requires IsPost(a)
    ensures !Serves(s, a)
  {
  }

  ghost predicate StepsFrom(run: nat -> State, act: nat -> Action, i: nat) {
    Steps(run(i), act(i), run(i + 1))
  }

  ghost predicate IsInfiniteRun(run: nat -> State, act: nat -> Action) {
    && Initial(run(0))
    && (forall i: nat :: StepsFrom(run, act, i))
  }

  /** Fair until no turn is left: the step the last turn waits for is not put off for ever. */
  ghost predicate FairRun(run: nat -> State, act: nat -> Action) {
    Liveness.Fair((i: nat) => run(i).turns == map[], (i: nat) => Serves(run(i), act(i)))
  }

  lemma {:induction false} InfiniteInv(run: nat -> State, act: nat -> Action, i: nat)
    requires IsInfiniteRun(run, act)
    ensures Inv(run(i))
  {
    if i > 0 {
      InfiniteInv(run, act, i - 1);
      assert StepsFrom(run, act, i - 1);
      InvPreserved(run(i - 1), act(i - 1));
    }
  }

  lemma StoppingOneMore(run: nat -> State, act: nat -> Action, k: nat)
    requires IsInfiniteRun(run, act) && Stopping(run(k)) && !GivesUp(act(k))
    ensures run(k + 1).rec.exited || (Stopping(run(k + 1)) && NoFurther(run(k), run(k + 1), Serves(run(k), act(k))))
  {
    assert StepsFrom(run, act, k);
    StoppingStep(run(k), act(k));
  }

  /** An exited conversation's turns are over, so its measure is zero. */
  lemma ExitedMeasure(s: State)
    requires Inv(s) && s.rec.exited
    ensures s.turns == map[] && Measure(s) == 0
  {
  }

  lemma StoppingEnds(run: nat -> State, act: nat -> Action, i: nat) returns (j: nat)
    requires IsInfiniteRun(run, act) && FairRun(run, act) && Stopping(run(i))
    requires forall k: nat :: i <= k ==> !GivesUp(act(k))
    ensures i <= j && run(j).rec.exited
  {
    var measure := (k: nat) => Measure(run(k));
    var good := (k: nat) => k >= i && Inv(run(k)) && (run(k).rec.exited || Stopping(run(k)));
    var done := (k: nat) => run(k).turns == map[];
    var served := (k: nat) => Serves(run(k), act(k));
    forall k: nat | good(k) && !done(k)
      ensures good(k + 1) && measure(k + 1) <= measure(k) && (served(k) ==> measure(k + 1) < measure(k))
    {
      InfiniteInv(run, act, k + 1);
      if run(k).rec.exited {
        ExitedMeasure(run(k));
      } else {
        StoppingOneMore(run, act, k);
        if run(k + 1).rec.exited {
          ExitedMeasure(run(k + 1));
          StoppingMeasure(run(k));
        }
      }
    }
    j := Liveness.Ends(measure, good, done, served, i);
  }

  lemma StoppingMeasure(s: State)
    requires Stopping(s)
    ensures Measure(s) > 0
  {
    var w: Worker :| w in s.turns;
  }

  lemma {:induction false} StrandedUntil(run: nat -> State, act: nat -> Action, i: nat, j: nat)
    requires IsInfiniteRun(run, act) && i <= j && Stranded(run(i))
    requires forall k: nat :: i <= k < j ==> !IsStopRequest(act(k))
    ensures Stranded(run(j))
    decreases j - i
  {
    if i < j {
      assert StepsFrom(run, act, i);
      assert !IsStopRequest(act(i));
      StrandedUntil(run, act, i + 1, j);
    }
  }

  /** From a stranded conversation exited gets closed exactly if a stop request follows. */
  lemma StrandedCloses(run: nat -> State, act: nat -> Action, i: nat)
    requires IsInfiniteRun(run, act) && Stranded(run(i))
    ensures (exists j: nat :: i <= j && run(j).rec.exited) <==> (exists k: nat :: i <= k && IsStopRequest(act(k)))
  {
    if k: nat :| i <= k && IsStopRequest(act(k)) {
      var stops := (m: nat) => IsStopRequest(act(m));
      var first := Liveness.First(stops, i, k);
      forall m: nat | i <= m < first ensures !IsStopRequest(act(m)) {
        assert !stops(m);
      }
      StrandedUntil(run, act, i, first);
      assert StepsFrom(run, act, first);
      assert run(first + 1).rec.exited;
    } else {
      forall j: nat | i <= j ensures !run(j).rec.exited {
        StrandedUntil(run, act, i, j);
      }
    }
  }

  lemma {:induction false} StoppingUntil(run: nat -> State, act: nat -> Action, i: nat, g: nat)
    requires IsInfiniteRun(run, act) && i <= g && Stopping(run(i)) && GivesUp(act(g))
    requires forall k: nat :: i <= k < g ==> !GivesUp(act(k))
    ensures Stopping(run(g)) && forall k: nat :: i <= k <= g ==> !run(k).rec.exited
    decreases g - i
  {
    if i < g {
      StoppingOneMore(run, act, i);
      if run(i + 1).rec.exited {
        ExitedGivesUpNothing(run, act, i + 1, g);
      }
      StoppingUntil(run, act, i + 1, g);
    }
  }

  lemma {:induction false} ExitedGivesUpNothing(run: nat -> State, act: nat -> Action, i: nat, j: nat)
    requires IsInfiniteRun(run, act) && i <= j && run(i).rec.exited
    ensures !GivesUp(act(j))
    decreases j - i
  {
    InfiniteInv(run, act, i);
    assert StepsFrom(run, act, i);
    if i < j {
      ExitedGivesUpNothing(run, act, i + 1, j);
    }
  }

  /** When a stop completes. In every fair run, a conversation canceled while a turn is in progress
      closes exited exactly if that turn does not give up, or a stop request follows its giving up. */
  lemma StopCompletes(run: nat -> State, act: nat -> Action, i: nat)
    requires IsInfiniteRun(run, act) && FairRun(run, act) && Stopping(run(i))
    ensures (exists j: nat :: i <= j && run(j).rec.exited)
            <==> ((forall k: nat :: i <= k ==> !GivesUp(act(k)))
                  || exists g: nat, k: nat :: i <= g < k && GivesUp(act(g)) && IsStopRequest(act(k)))
  {
    if g: nat :| i <= g && GivesUp(act(g)) {
      var gives := (m: nat) => GivesUp(act(m));
      var first := Liveness.First(gives, i, g);
      forall m: nat | i <= m < first ensures !GivesUp(act(m)) {
        assert !gives(m);
      }
      GivenUp(run, act, i, first);
    } else {
      var j := StoppingEnds(run, act, i);
    }
  }

  /** The turn gives up at first, while the conversation is still open; from there only a stop request closes it. */
  lemma GivenUp(run: nat -> State, act: nat -> Action, i: nat, first: nat)
    requires IsInfiniteRun(run, act) && Stopping(run(i)) && i <= first && GivesUp(act(first))
    requires forall m: nat :: i <= m < first ==> !GivesUp(act(m))
    ensures (exists j: nat :: i <= j && run(j).rec.exited)
            <==> exists g: nat, k: nat :: i <= g < k && GivesUp(act(g)) && IsStopRequest(act(k))
  {
    GivenUpStrands(run, act, i, first);
    StrandedCloses(run, act, first + 1);
    if j: nat :| i <= j && run(j).rec.exited {
      assert j > first;
      var k: nat :| first + 1 <= k && IsStopRequest(act(k));
      assert i <= first < k && GivesUp(act(first));
    }
    if g: nat, k: nat :| i <= g < k && GivesUp(act(g)) && IsStopRequest(act(k)) {
      assert first <= g;
      assert first + 1 <= k;
      var j: nat :| first + 1 <= j && run(j).rec.exited;
      assert i <= j;
    }
  }

  lemma GivenUpStrands(run: nat -> State, act: nat -> Action, i: nat, first: nat)
    requires IsInfiniteRun(run, act) && Stopping(run(i)) && i <= first && GivesUp(act(first))
    requires forall m: nat :: i <= m < first ==> !GivesUp(act(m))
    ensures Stranded(run(first + 1)) && forall k: nat :: i <= k <= first ==> !run(k).rec.exited
  {
    StoppingUntil(run, act, i, first);
    assert StepsFrom(run, act, first);
    StoppingStep(run(first), act(first));
  }

  // ---- a stop that is lost ----

  /** A conversation of one local command, whose turn is canceled and then cannot start its process; after
      that the server only says, again and again, that nobody is waited for. */
  function LostRun(i: nat): State {
    var rec, prompt := Opened(Antigravity, Canceled), Message(0, "/help");
    var log := History([prompt], [prompt], []);
    if i == 0 then State(rec, map[], History([], [], []))
    else if i == 1 then State(rec.(busy := true), map[0 := Preparing(prompt)], log)
    else if i == 2 then State(rec.(busy := true), map[0 := Begun(prompt, true)], log)
    else if i == 3 then State(rec.(busy := true, canceled := true), map[0 := Begun(prompt, true)], log)
    else if i == 4 then State(rec.(busy := true, canceled := true), map[0 := Failed(prompt)], log)
    else State(rec.(canceled := true), map[], log)
  }

  function LostAction(i: nat): Action {
    if i == 0 then Post("/help")
    else if i == 1 then Begin(0, true, false)
    else if i == 2 then CancelRun
    else if i == 3 then LaunchFailed(0)
    else if i == 4 then Abandon(0)
    else RunWaiting(None)
  }

  lemma LostSteps(i: nat)
    ensures StepsFrom(LostRun, LostAction, i)
  {
    var s := LostRun(i);
    if i == 0 {
      assert s.turns[0 := Preparing(Message(0, "/help"))] == LostRun(1).turns;
      assert [] + [Message(0, "/help")] == [Message(0, "/help")];
    } else if i < 5 {
      assert s.turns - {0} == map[];
    }
  }

  /** A fair run in which a conversation canceled in mid-turn never closes exited. */
  lemma StopLost()
    ensures IsInfiniteRun(LostRun, LostAction) && FairRun(LostRun, LostAction)
    ensures LostRun(3).rec.canceled && LostRun(3).rec.busy && forall i: nat :: !LostRun(i).rec.exited
  {
    forall i: nat ensures StepsFrom(LostRun, LostAction, i) {
      LostSteps(i);
    }
    OverFrom(LostRun, LostAction, 5);
  }

  lemma OverFrom(run: nat -> State, act: nat -> Action, n: nat)
    requires forall i: nat :: i >= n ==> run(i).turns == map[]
    ensures FairRun(run, act)
  {
    var done, served := (i: nat) => run(i).turns == map[], (i: nat) => Serves(run(i), act(i));
    forall i: nat ensures Liveness.ServedFrom(done, served, i) {
      assert done(if i < n then n else i);
    }
  }
}
