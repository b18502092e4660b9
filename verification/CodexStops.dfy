/** When a stop of a Codex conversation completes, whatever the app-server does, over fair infinite runs. */
module CodexStops {
  import opened Basics
  import opened ConversationRecord
  import opened CodexSupervisor
  import opened CodexRuns
  import Liveness

  function Rank(g: Goroutine): nat {
    match g
    case Entering => 1
    case Starting => 14
    case Ending => 4
    case Supervising(stage, _, _, alive, signals) =>
      match stage
      case Initializing => 13
      case Cataloguing => 12
      case BeginningTurn(_) => 11
      case Steering(_, _, _) => 10
      case StartingTurn(_, _) => 10
      case Interrupting => 10
      case IdleInterrupted => 10
      case Looping => 9
      case Closing => if !alive then 5 else if signals == 0 then 8 else if signals == 1 then 7 else 6
  }

  function Measure(s: State): nat {
    if s.rec.exited then 0
    else if s.rec.codex.Some? && s.rec.codex.value in s.workers then Rank(s.workers[s.rec.codex.value])
    else 1
  }

  /** The step a stopped conversation waits for. A request in flight need not be answered: any way its
      call returns serves. */
  predicate Serves(s: State, a: Action) {
    if s.rec.codex.None? then a.Enter?
    else
      var w := s.rec.codex.value;
      && w in s.workers
      && match s.workers[w]
         case Entering => false
         case Starting => a == StartFails(w) || a == StartSucceeds(w)
         case Ending => a.End? && a.w == w
         case Supervising(stage, _, _, alive, signals) =>
           match stage
           case Initializing => a == Initialized(w) || a == InitializeFails(w)
           case Cataloguing => a == Catalogued(w)
           case BeginningTurn(_) => a.BeginTurn? && a.w == w
           case Steering(_, _, _) => a.SteerReplied? && a.w == w
           case StartingTurn(_, _) => a.StartReplied? && a.w == w
           case Interrupting => a.InterruptReplied? && a.w == w
           case IdleInterrupted => a == ClearInterrupt(w)
           case Looping => (a.Tick? || a.GraceOver? || a.SeesExit?) && a.w == w
           case Closing => if !alive then a == Reaped(w) else if signals < 2 then a == Watch(w) else a == ProcessDies(w)
  }

  /** Some such step is possible even if the app-server never answers. */
  lemma SomethingServes(s: State)
    requires Owes(s) && !s.rec.exited
    ensures exists a :: Enabled(s, a) && Serves(s, a) && !a.ServerReads? && !(a.SteerReplied? && !a.outcome.Unclear?)
             && !(a.StartReplied? && !a.outcome.Unclear?)
  {
    if s.rec.codex.None? {
      var e :| e in s.workers && s.workers[e].Entering?;
      assert Enabled(s, Enter(e)) && Serves(s, Enter(e));
    } else {
      var w := s.rec.codex.value;
      var a := match s.workers[w]
        case Starting => StartFails(w)
        case Ending => End(w, 0)
        case Supervising(stage, _, _, alive, signals) =>
          (match stage
           case Initializing => InitializeFails(w)
           case Cataloguing => Catalogued(w)
           case BeginningTurn(_) => BeginTurn(w, false)
           case Steering(_, _, _) => SteerReplied(w, Unclear)
           case StartingTurn(_, _) => StartReplied(w, Unclear)
           case Interrupting => InterruptReplied(w, false)
           case IdleInterrupted => ClearInterrupt(w)
           case Looping => Tick(w, false)
           case Closing => if !alive then Reaped(w) else if signals < 2 then Watch(w) else ProcessDies(w));
      assert Enabled(s, a) && Serves(s, a);
    }
  }

  /** A stopped conversation some goroutine still has to close, or that is closed. */
  ghost predicate Owes(s: State) {
    Inv(s) && s.rec.canceled && (s.rec.exited || s.rec.codex.Some? || SomeoneEnters(s))
  }

  ghost predicate NoFurther(s: State, t: State, served: bool) {
    && t.rec.canceled && (t.rec.exited || t.rec.codex.Some? || SomeoneEnters(t))
    && Measure(t) <= Measure(s)
    && (served ==> Measure(t) < Measure(s))
  }

  lemma StoppingStep(s: State, a: Action)
    requires Owes(s) && !s.rec.exited && Enabled(s, a)
    ensures Owes(Step(s, a)) && NoFurther(s, Step(s, a), Serves(s, a))
  {
    InvPreserved(s, a);
    StoppingMeasure(s, a);
  }

  lemma StoppingMeasure(s: State, a: Action)
    requires Owes(s) && !s.rec.exited && Enabled(s, a) && Readable(s)
    ensures NoFurther(s, Step(s, a), Serves(s, a))
  {
    if IsPost(a) || IsAnnounced(a) || a.ServerReads? {
      OnlyWorkersServe(s, a);
      StoppingOther(s, a);
    } else if a.Enter? {
      StoppingEnter(s, a.w);
    } else if a.End? {
      StoppingEnd(s, a.w, a.now);
    } else {
      StoppingWorker(s, a);
    }
  }

  lemma OnlyWorkersServe(s: State, a: Action)
    requires IsPost(a) || IsAnnounced(a) || a.ServerReads?
    ensures !Serves(s, a)
  {
  }

  /** What is posted to, announced to or read from a canceled conversation moves no goroutine. */
  lemma StoppingOther(s: State, a: Action)
    requires Inv(s) && s.rec.canceled && Enabled(s, a) && (IsPost(a) || IsAnnounced(a) || a.ServerReads?)
    ensures SameWorkers(s, Step(s, a))
  {
    if a.PostApproval? {
      DecisionSendsNothing(s, a.id, a.decision, a.answers, a.written, a.now);
    } else if IsPost(a) {
      CanceledPost(s, a);
    } else if IsAnnounced(a) {
      CanceledAnnounced(s, a);
    } else {
      CanceledRead(s, a.accepts);
    }
  }

  lemma CanceledAnnounced(s: State, a: Action)
    requires Readable(s) && s.rec.canceled && Enabled(s, a) && IsAnnounced(a)
    ensures Step(s, a) == s
  {
  }

  lemma CanceledRead(s: State, accepts: bool)
    requires Readable(s) && s.wire != []
    ensures SameWorkers(s, AfterServerReads(s, accepts))
  {
  }

  predicate SameWorkers(s: State, t: State) {
    t.workers == s.workers && t.rec.codex == s.rec.codex && t.rec.canceled == s.rec.canceled
  }

  lemma CanceledPost(s: State, a: Action)
    requires Readable(s) && s.rec.canceled && Enabled(s, a) && IsPost(a) && !a.PostApproval?
    ensures SameWorkers(s, Step(s, a))
  {
    match a
    case Post(_) => assert Step(s, a) == s;
    case PostInterrupt => CanceledInterrupt(s);
    case RunWaiting(push) => CanceledPush(s, push);
    case _ =>
  }

  lemma CanceledInterrupt(s: State)
    ensures SameWorkers(s, AfterInterrupt(s))
  {
  }

  lemma CanceledPush(s: State, push: Option<Time>)
    ensures SameWorkers(s, s.(rec := HandleRunWaiting(s.rec, push).0))
  {
  }

  lemma StoppingEnter(s: State, w: Worker)
    requires Owes(s) && !s.rec.exited && w in s.workers && s.workers[w].Entering?
    ensures NoFurther(s, AfterEnter(s, w), Serves(s, Enter(w)))
  {
    if s.rec.codex.Some? {
      assert s.rec.codex.value in AfterEnter(s, w).workers;
    }
  }

  lemma StoppingEnd(s: State, w: Worker, now: Time)
    requires Owes(s) && !s.rec.exited && w in s.workers && s.workers[w].Ending?
    ensures NoFurther(s, AfterEnd(s, w, now), true)
  {
  }

  lemma StoppingWorker(s: State, a: Action)
    requires Owes(s) && !s.rec.exited && Enabled(s, a)
    requires !IsPost(a) && !IsAnnounced(a) && !a.ServerReads? && !a.Enter? && !a.End?
    ensures NoFurther(s, Step(s, a), Serves(s, a))
  {
    if IsLoop(a) {
      LoopCloser(s, a);
    } else {
      LifeCloser(s, a);
    }
    assert s.rec.codex == Some(a.w);
  }

  ghost predicate Closer(s: State, t: State, w: Worker, served: bool) {
    && w in s.workers && w in t.workers && t.rec.codex == s.rec.codex && t.rec.canceled == s.rec.canceled
       && t.rec.exited == s.rec.exited
    && Rank(t.workers[w]) <= Rank(s.workers[w])
    && (served ==> Rank(t.workers[w]) < Rank(s.workers[w]))
  }

  lemma LoopCloser(s: State, a: Action)
    requires Inv(s) && s.rec.canceled && Enabled(s, a) && IsLoop(a)
    ensures Closer(s, Step(s, a), a.w, true)
  {
    match a
    case Tick(_, _) => TickedCloser(s, a);
    case ClearInterrupt(_) => ClearedCloser(s, a);
    case SteerReplied(_, _) => SteeredCloser(s, a);
    case BeginTurn(_, _) => BegunCloser(s, a);
    case StartReplied(_, _) => StartedCloser(s, a);
  }

  lemma TickedCloser(s: State, a: Action)
    requires Readable(s) && s.rec.canceled && Enabled(s, a) && a.Tick?
    ensures Closer(s, Step(s, a), a.w, true)
  {
    TickCloser(s, a.w, a.delivered);
  }

  lemma ClearedCloser(s: State, a: Action)
    requires Readable(s) && Enabled(s, a) && a.ClearInterrupt?
    ensures Closer(s, Step(s, a), a.w, true)
  {
  }

  lemma SteeredCloser(s: State, a: Action)
    requires Readable(s) && Enabled(s, a) && a.SteerReplied?
    ensures Closer(s, Step(s, a), a.w, true)
  {
    SteerCloser(s, a.w, a.outcome);
  }

  lemma BegunCloser(s: State, a: Action)
    requires Readable(s) && Enabled(s, a) && a.BeginTurn?
    ensures Closer(s, Step(s, a), a.w, true)
  {
  }

  lemma StartedCloser(s: State, a: Action)
    requires Readable(s) && Enabled(s, a) && a.StartReplied?
    ensures Closer(s, Step(s, a), a.w, true)
  {
    StartCloser(s, a.w, a.outcome);
  }

  lemma TickCloser(s: State, w: Worker, delivered: bool)
    requires s.rec.canceled && At(s, w, Looping)
    ensures Closer(s, AfterTick(s, w, delivered), w, true)
  {
  }

  lemma SteerCloser(s: State, w: Worker, outcome: Outcome)
    requires Supervises(s, w) && s.workers[w].stage.Steering? && Tells(s, s.workers[w].stage.n, outcome)
    ensures Closer(s, AfterSteerReply(s, w, outcome), w, true)
  {
  }

  lemma StartCloser(s: State, w: Worker, outcome: Outcome)
    requires Supervises(s, w) && s.workers[w].stage.StartingTurn?
    ensures Closer(s, AfterStartReply(s, w, outcome), w, true)
  {
  }

  lemma LifeCloser(s: State, a: Action)
    requires Inv(s) && s.rec.canceled && Enabled(s, a) && !IsLoop(a)
    requires !IsPost(a) && !IsAnnounced(a) && !a.ServerReads? && !a.Enter? && !a.End?
    ensures Closer(s, Step(s, a), a.w, Serves(s, a))
  {
    if a.StartFails? || a.StartSucceeds? {
      ProcessStartsCloser(s, a);
    } else if a.Initialized? || a.InitializeFails? {
      InitializeCloser(s, a);
    } else if a.Catalogued? || a.GraceOver? {
      CatalogueCloser(s, a);
    } else if a.InterruptReplied? {
      InterruptCloser(s, a);
    } else if a.Watch? {
      WatchCloser(s, a);
    } else if a.ProcessDies? {
      DiesCloser(s, a);
    } else {
      ExitCloser(s, a);
    }
  }

  lemma ProcessStartsCloser(s: State, a: Action)
    requires Inv(s) && s.rec.canceled && Enabled(s, a) && (a.StartFails? || a.StartSucceeds?)
    ensures Closer(s, Step(s, a), a.w, Serves(s, a))
  {
  }

  lemma InitializeCloser(s: State, a: Action)
    requires Inv(s) && s.rec.canceled && Enabled(s, a) && (a.Initialized? || a.InitializeFails?)
    ensures Closer(s, Step(s, a), a.w, Serves(s, a))
  {
  }

  lemma CatalogueCloser(s: State, a: Action)
    requires Inv(s) && s.rec.canceled && Enabled(s, a) && (a.Catalogued? || a.GraceOver?)
    ensures Closer(s, Step(s, a), a.w, Serves(s, a))
  {
  }

  lemma InterruptCloser(s: State, a: Action)
    requires Inv(s) && s.rec.canceled && Enabled(s, a) && a.InterruptReplied?
    ensures Closer(s, Step(s, a), a.w, Serves(s, a))
  {
  }

  lemma WatchCloser(s: State, a: Action)
    requires Inv(s) && s.rec.canceled && Enabled(s, a) && a.Watch?
    ensures Closer(s, Step(s, a), a.w, Serves(s, a))
  {
  }

  lemma DiesCloser(s: State, a: Action)
    requires Inv(s) && s.rec.canceled && Enabled(s, a) && a.ProcessDies?
    ensures Closer(s, Step(s, a), a.w, Serves(s, a))
  {
  }

  lemma ExitCloser(s: State, a: Action)
    requires Inv(s) && s.rec.canceled && Enabled(s, a) && (a.SeesExit? || a.Reaped?)
    ensures Closer(s, Step(s, a), a.w, Serves(s, a))
  {
  }

  ghost predicate StepsFrom(run: nat -> State, act: nat -> Action, i: nat) {
    Steps(run(i), act(i), run(i + 1))
  }

  ghost predicate IsInfiniteRun(run: nat -> State, act: nat -> Action) {
    && Initial(run(0))
    && (forall i: nat :: StepsFrom(run, act, i))
  }

  lemma {:induction false} InfiniteInv(run: nat -> State, act: nat -> Action, i: nat)
    requires IsInfiniteRun(run, act)
    ensures Inv(run(i))
  {
    if i > 0 {
      InfiniteInv(run, act, i - 1);
      assert StepsFrom(run, act, i - 1);
      InvPreserved(run(i - 1), act(i - 1));
    }
  }

  lemma StoppingOneMore(run: nat -> State, act: nat -> Action, i: nat)
    requires IsInfiniteRun(run, act) && Owes(run(i)) && !run(i).rec.exited
    ensures Owes(run(i + 1)) && NoFurther(run(i), run(i + 1), Serves(run(i), act(i)))
  {
    assert StepsFrom(run, act, i);
    StoppingStep(run(i), act(i));
  }

  /** Fair for as long as a goroutine is left that could close exited: the step it waits for is not put off for ever. */
  ghost predicate FairRun(run: nat -> State, act: nat -> Action) {
    Liveness.Fair((i: nat) => run(i).rec.exited || Idle(run(i)), (i: nat) => Serves(run(i), act(i)))
  }

  /** Nothing of the conversation runs. */
  ghost predicate Idle(s: State) {
    s.rec.codex.None? && !SomeoneEnters(s)
  }

  lemma StoppingEnds(run: nat -> State, act: nat -> Action, i: nat) returns (j: nat)
    requires IsInfiniteRun(run, act) && FairRun(run, act) && Owes(run(i))
    ensures i <= j && run(j).rec.exited
  {
    var measure := (k: nat) => Measure(run(k));
    var good := (k: nat) => Owes(run(k));
    var done := (k: nat) => run(k).rec.exited || Idle(run(k));
    var served := (k: nat) => Serves(run(k), act(k));
    forall k: nat | good(k) && !done(k)
      ensures good(k + 1) && measure(k + 1) <= measure(k) && (served(k) ==> measure(k + 1) < measure(k))
    {
      StoppingOneMore(run, act, k);
    }
    j := Liveness.Ends(measure, good, done, served, i);
  }

  predicate IsStopRequest(a: Action) {
    a.DesktopStop? || a.StopConversations?
  }

  /** A canceled conversation of which nothing runs. */
  ghost predicate Stranded(s: State) {
    Inv(s) && s.rec.canceled && !s.rec.exited && Idle(s)
  }

  /** With nothing running, nothing but a post can happen. */
  lemma OnlyPostsRemain(s: State, a: Action)
    requires Stranded(s) && Enabled(s, a)
    ensures IsPost(a)
  {
  }

  lemma PostKeepsOpen(s: State, a: Action)
    requires Stranded(s) && Enabled(s, a) && Readable(s) && IsPost(a) && !a.PostApproval?
    ensures Step(s, a).rec.exited <==> IsStopRequest(a)
  {
  }

  lemma StrandedStep(s: State, a: Action)
    requires Stranded(s) && Enabled(s, a) && Readable(s)
    ensures if IsStopRequest(a) then Step(s, a).rec.exited else Stranded(Step(s, a))
  {
    InvPreserved(s, a);
    OnlyPostsRemain(s, a);
    StoppingOther(s, a);
    if a.PostApproval? {
      DecisionSendsNothing(s, a.id, a.decision, a.answers, a.written, a.now);
    } else {
      PostKeepsOpen(s, a);
    }
  }

  ghost predicate StrandedAt(run: nat -> State, i: nat) {
    Stranded(run(i))
  }

  lemma StrandedOneMore(run: nat -> State, act: nat -> Action, i: nat)
    requires IsInfiniteRun(run, act) && StrandedAt(run, i) && !IsStopRequest(act(i))
    ensures StrandedAt(run, i + 1)
  {
    assert StepsFrom(run, act, i);
    StrandedStep(run(i), act(i));
  }

  lemma {:induction false} StrandedUntil(run: nat -> State, act: nat -> Action, i: nat, j: nat)
    requires IsInfiniteRun(run, act) && i <= j && StrandedAt(run, i)
    requires forall k: nat :: i <= k < j ==> !IsStopRequest(act(k))
    ensures StrandedAt(run, j)
    decreases j - i
  {
    if i < j {
      assert !IsStopRequest(act(i));
      StrandedOneMore(run, act, i);
      StrandedUntil(run, act, i + 1, j);
    }
  }

  /** When a stop completes. In every fair run, once canceled is set exited gets closed exactly if a
      supervisor or a starting goroutine was there then, or a stop request follows: cancelRun on a
      conversation of which nothing runs only sets the flag. */
  lemma StopCompletes(run: nat -> State, act: nat -> Action, i: nat)
    requires IsInfiniteRun(run, act) && FairRun(run, act) && run(i).rec.canceled
    ensures (exists j: nat :: i <= j && run(j).rec.exited)
            <==> (run(i).rec.exited || !Idle(run(i)) || exists k: nat :: i <= k && IsStopRequest(act(k)))
  {
    InfiniteInv(run, act, i);
    if run(i).rec.exited || !Idle(run(i)) {
      var j := StoppingEnds(run, act, i);
    } else if k: nat :| i <= k && IsStopRequest(act(k)) {
      var stops := (m: nat) => IsStopRequest(act(m));
      var first := Liveness.First(stops, i, k);
      forall m: nat | i <= m < first ensures !IsStopRequest(act(m)) {
        assert !stops(m);
      }
      StrandedUntil(run, act, i, first);
      assert Stranded(run(first));
      assert StepsFrom(run, act, first);
      StrandedStep(run(first), act(first));
      assert run(first + 1).rec.exited;
    } else {
      forall j: nat | i <= j ensures !run(j).rec.exited {
        StrandedUntil(run, act, i, j);
      }
    }
  }
}
