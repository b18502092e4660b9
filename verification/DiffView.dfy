/** The changes view of the desktop (desktop/src/gitDiff.js): what it shows belongs to the run and folder
    selected, whatever the order in which the agent answers. */
module DiffView {
  import opened Basics

  /** What is shown: whose changes, of which folder, asked for by which request. */
  datatype Shown = Shown(run: string, folder: Option<string>, request: nat)

  /** A question to the agent that is not answered yet. A refresh takes a number of its own; a check of the
      counts borrows the number of the moment. */
  datatype Question = Question(refresh: bool, request: nat, run: string, folder: Option<string>)

  datatype View = View(
    runID: Option<string>, folder: Option<string>, generation: nat, active: bool, consoleVisible: bool,
    result: Option<Shown>, banner: Option<Shown>, busy: bool, asked: seq<Question>, history: seq<nat>)

  /** The agent's answer: the changes of a run, with something to count or not, or a failure. */
  datatype Answer = Changes(run: string, counts: bool) | Failure

  const START := View(None, None, 0, false, true, None, None, false, [], [])

  function Clear(v: View): View {
    v.(result := None, banner := None)
  }

  function Refresh(v: View): View {
    if !v.active || v.runID.None? then v
    else v.(generation := v.generation + 1, busy := true,
            asked := v.asked + [Question(true, v.generation + 1, v.runID.value, v.folder)])
  }

  function CheckStats(v: View): View {
    if v.runID.None? then v else v.(asked := v.asked + [Question(false, v.generation, v.runID.value, v.folder)])
  }

  function SetFolder(v: View, chosen: Option<string>): View {
    if chosen == v.folder then v
    else
      var w := Clear(v).(folder := chosen, generation := v.generation + 1, busy := false);
      if w.active && w.runID.Some? then Refresh(w) else CheckStats(w)
  }

  function Selected(v: View, id: Option<string>, chosen: Option<string>): View {
    Clear(v).(runID := id, folder := chosen, generation := v.generation + 1)
  }

  function Select(v: View, id: Option<string>, chosen: Option<string>): View {
    if id == v.runID then SetFolder(v, chosen)
    else
      var w := Selected(v, id, chosen);
      if w.active then (if id.Some? then Refresh(w) else w.(active := false, consoleVisible := true)) else CheckStats(w)
  }

  function ToggleConsole(v: View): View {
    if v.consoleVisible && !v.active then v else v.(consoleVisible := !v.consoleVisible)
  }

  function ToggleChanges(v: View): View {
    if v.active && !v.consoleVisible then v
    else Refresh(v.(active := !v.active, generation := v.generation + 1, busy := false))
  }

  function Disconnect(v: View): View {
    Clear(v).(generation := v.generation + 1, busy := false)
  }

  predicate Current(v: View, q: Question) {
    q.request == v.generation && v.runID == Some(q.run) && q.folder == v.folder
  }

  function RefreshAnswered(v: View, q: Question, answer: Answer): View {
    var w :=
      if !Current(v, q) || !v.active then v
      else if answer.Failure? || answer.run != q.run then Clear(v)
      else
        var shown := Some(Shown(q.run, q.folder, q.request));
        v.(result := shown, banner := if answer.counts then shown else None, history := v.history + [q.request]);
    if q.request == v.generation then w.(busy := false) else w
  }

  function StatsAnswered(v: View, q: Question, answer: Answer): View {
    match answer
    case Failure => if q.request == v.generation && v.runID == Some(q.run) then v.(banner := None) else v
    case Changes(run, counts) =>
      if Current(v, q) && run == q.run
      then v.(banner := if counts then Some(Shown(q.run, q.folder, q.request)) else None)
      else v
  }

  /** The k-th open question is answered, in any order. */
  function Answered(v: View, k: nat, answer: Answer): View
    requires k < |v.asked|
  {
    var w := v.(asked := v.asked[..k] + v.asked[k + 1..]);
    if v.asked[k].refresh then RefreshAnswered(w, v.asked[k], answer) else StatsAnswered(w, v.asked[k], answer)
  }

  class GitDiff {
    var runID: Option<string>
    var folder: Option<string>
    var generation: nat
    var active: bool
    var consoleVisible: bool
    var result: Option<Shown>
    var banner: Option<Shown>
    var busy: bool
    var asked: seq<Question>
    ghost var history: seq<nat>

    ghost function Fields(): View
      reads this
    {
      View(runID, folder, generation, active, consoleVisible, result, banner, busy, asked, history)
    }

    constructor ()
      ensures Fields() == START
    {
      runID, folder, generation, active, consoleVisible := None, None, 0, false, true;
      result, banner, busy, asked, history := None, None, false, [], [];
    }

    method ClearShown()
      modifies this
      ensures Fields() == Clear(old(Fields()))
    {
      result, banner := None, None;
    }

    method StartRefresh()
      modifies this
      ensures Fields() == Refresh(old(Fields()))
      ensures Fields() == if !old(active) || old(runID).None? then old(Fields()) else old(Fields()).(
                generation := old(generation) + 1, busy := true,
                asked := old(asked) + [Question(true, old(generation) + 1, old(runID).value, old(folder))])
    {
      if !active || runID.None? {
        return;
      }
      generation := generation + 1;
      busy := true;
      asked := asked + [Question(true, generation, runID.value, folder)];
    }

    method StartCheck()
      modifies this
      ensures Fields() == CheckStats(old(Fields()))
      ensures Fields() == if old(runID).None? then old(Fields()) else old(Fields()).(
                asked := old(asked) + [Question(false, old(generation), old(runID).value, old(folder))])
    {
      if runID.Some? {
        asked := asked + [Question(false, generation, runID.value, folder)];
      }
    }

    method ChooseFolder(chosen: Option<string>)
      modifies this
      ensures Fields() == SetFolder(old(Fields()), chosen)
      ensures chosen == old(folder) ==> Fields() == old(Fields())
      ensures chosen != old(folder) ==> Fields() == old(Fields()).(
                folder := chosen, result := None, banner := None, busy := active && runID.Some?,
                generation := old(generation) + if active && runID.Some? then 2 else 1,
                asked := old(asked) + if runID.None? then [] else [Question(active, generation, runID.value, chosen)])
    {
      if chosen == folder {
        return;
      }
      folder := chosen;
      generation := generation + 1;
      ClearShown();
      busy := false;
      if active && runID.Some? {
        StartRefresh();
      } else {
        StartCheck();
      }
    }

    method SelectRun(id: Option<string>, chosen: Option<string>)
      modifies this
      ensures Fields() == Select(old(Fields()), id, chosen)
      ensures id != old(runID) ==> Fields() == old(Fields()).(
                runID := id, folder := chosen, result := None, banner := None,
                active := old(active) && id.Some?, consoleVisible := old(consoleVisible) || (old(active) && id.None?),
                busy := old(busy) || (old(active) && id.Some?),
                generation := old(generation) + if old(active) && id.Some? then 2 else 1,
                asked := old(asked) + if id.None? then [] else [Question(old(active), generation, id.value, chosen)])
    {
      if id == runID {
        ChooseFolder(chosen);
        return;
      }
      MoveTo(id, chosen);
      if active {
        if id.Some? {
          StartRefresh();
        } else {
          active, consoleVisible := false, true;
        }
      } else {
        StartCheck();
      }
    }

    method MoveTo(id: Option<string>, chosen: Option<string>)
      modifies this
      ensures Fields() == Selected(old(Fields()), id, chosen)
    {
      runID, folder, generation := id, chosen, generation + 1;
      ClearShown();
    }

    method PressConsole()
      modifies this
      ensures Fields() == ToggleConsole(old(Fields()))
      ensures Fields() == old(Fields()).(consoleVisible := !old(consoleVisible) || !old(active))
    {
      if consoleVisible && !active {
        return;
      }
      consoleVisible := !consoleVisible;
    }

    method PressChanges()
      modifies this
      ensures Fields() == ToggleChanges(old(Fields()))
      ensures Fields() == if old(active && !consoleVisible) then old(Fields()) else
                var loads := !old(active) && old(runID).Some?;
                old(Fields()).(
                  active := !old(active), busy := loads, generation := old(generation) + if loads then 2 else 1,
                  asked := old(asked)
                           + if loads then [Question(true, old(generation) + 2, old(runID).value, old(folder))] else [])
    {
      if active && !consoleVisible {
        return;
      }
      active := !active;
      generation := generation + 1;
      busy := false;
      if active {
        StartRefresh();
      }
    }

    method AgentLost()
      modifies this
      ensures Fields() == Disconnect(old(Fields()))
      ensures Fields() == old(Fields()).(result := None, banner := None, busy := false,
                                         generation := old(generation) + 1)
    {
      generation := generation + 1;
      ClearShown();
      busy := false;
    }

    method FinishRefresh(q: Question, answer: Answer)
      modifies this
      ensures Fields() == RefreshAnswered(old(Fields()), q, answer)
      ensures var awaited := q.request == old(generation) && old(runID) == Some(q.run) && q.folder == old(folder)
                             && old(active);
              var shown := Some(Shown(q.run, q.folder, q.request));
              && (awaited && answer.Changes? && answer.run == q.run ==>
                  result == shown && banner == if answer.counts then shown else None)
              && (awaited && (answer.Failure? || answer.run != q.run) ==> result.None? && banner.None?)
              && (!awaited ==> result == old(result) && banner == old(banner))
      ensures Fields() == old(Fields()).(result := result, banner := banner, history := history,
                                         busy := old(busy) && q.request != old(generation))
    {
      if q.request == generation && runID == Some(q.run) && q.folder == folder && active {
        if answer.Failure? || answer.run != q.run {
          ClearShown();
        } else {
          result := Some(Shown(q.run, q.folder, q.request));
          banner := if answer.counts then result else None;
          history := history + [q.request];
        }
      }
      if q.request == generation {
        busy := false;
      }
    }

    method FinishCheck(q: Question, answer: Answer)
      modifies this
      ensures Fields() == StatsAnswered(old(Fields()), q, answer)
      ensures var asked := q.request == old(generation) && old(runID) == Some(q.run);
              banner == if asked && answer.Failure? then None
                        else if asked && q.folder == old(folder) && answer.Changes? && answer.run == q.run
                        then (if answer.counts then Some(Shown(q.run, q.folder, q.request)) else None)
                        else old(banner)
      ensures Fields() == old(Fields()).(banner := banner)
    {
      if answer.Failure? {
        if q.request == generation && runID == Some(q.run) {
          banner := None;
        }
      } else if q.request == generation && runID == Some(q.run) && q.folder == folder && answer.run == q.run {
        banner := if answer.counts then Some(Shown(q.run, q.folder, q.request)) else None;
      }
    }
  }

  // ---- every order of events ----

  datatype Event =
    | PressRefresh
    | PressChanges
    | PressConsole
    | Check
    | Choose(folder: Option<string>)
    | Pick(run: Option<string>, folder: Option<string>)
    | Lost
    | Answers(k: nat, answer: Answer)

  predicate Possible(v: View, e: Event) {
    match e
    case Answers(k, _) => k < |v.asked|
    case Check => !v.active
    case _ => true
  }

  function After(v: View, e: Event): View
    requires Possible(v, e)
  {
    match e
    case PressRefresh => Refresh(v)
    case PressChanges => ToggleChanges(v)
    case PressConsole => ToggleConsole(v)
    case Check => CheckStats(v)
    case Choose(folder) => SetFolder(v, folder)
    case Pick(run, folder) => Select(v, run, folder)
    case Lost => Disconnect(v)
    case Answers(k, answer) => Answered(v, k, answer)
  }

  // ---- the invariants ----

  /** What is shown is of the run and folder selected, and one of the two panes is shown. */
  predicate Fresh(v: View) {
    && (v.result.Some? ==> v.runID == Some(v.result.value.run) && v.folder == v.result.value.folder)
    && (v.banner.Some? ==> v.runID == Some(v.banner.value.run) && v.folder == v.banner.value.folder)
    && (v.consoleVisible || v.active)
  }

  /** The numbers of the open questions and of the results shown. */
  ghost predicate NumbersOK(generation: nat, asked: seq<Question>, history: seq<nat>) {
    && (forall i :: 0 <= i < |asked| ==> asked[i].request <= generation)
    && (forall i, j :: 0 <= i < j < |asked| && asked[i].refresh && asked[j].refresh ==>
        asked[i].request != asked[j].request)
    && (forall i, j :: 0 <= i < |asked| && 0 <= j < |history| && asked[i].refresh ==> asked[i].request != history[j])
    && (forall i :: 0 <= i < |history| ==> history[i] <= generation)
    && (forall i, j :: 0 <= i < j < |history| ==> history[i] < history[j])
  }

  /** A refresh of the present number is open. */
  ghost predicate Loading(v: View) {
    exists i :: 0 <= i < |v.asked| && v.asked[i].refresh && v.asked[i].request == v.generation
  }

  /** The result shown is the last of the history. */
  predicate LastShown(v: View) {
    v.result.Some? ==> v.history != [] && v.history[|v.history| - 1] == v.result.value.request
  }

  /** The mark says what it should: busy exactly while a refresh of the present number is open. */
  ghost predicate Right(v: View) {
    v.busy <==> Loading(v)
  }

  /** It does while the changes view is open; a closed view is not loading. */
  ghost predicate BusyOK(v: View) {
    if v.active then Right(v) else !Loading(v)
  }

  ghost predicate Inv(v: View) {
    Fresh(v) && NumbersOK(v.generation, v.asked, v.history) && LastShown(v) && BusyOK(v)
  }

  lemma RefreshKeeps(v: View)
    requires Fresh(v) && NumbersOK(v.generation, v.asked, v.history) && LastShown(v) && (v.runID.None? ==> BusyOK(v))
    ensures v.active ==> Inv(Refresh(v))
  {
    if v.active && v.runID.Some? {
      var q := Question(true, v.generation + 1, v.runID.value, v.folder);
      assert Refresh(v).asked[|v.asked|] == q;
    }
  }

  /** Nothing loads once the generation moves on without a new question. */
  lemma MovedOn(v: View, w: View)
    requires NumbersOK(v.generation, v.asked, v.history) && w.generation > v.generation
    requires forall q :: q in w.asked && q !in v.asked ==> !q.refresh
    ensures !Loading(w)
  {
    forall i | 0 <= i < |w.asked| && w.asked[i].refresh ensures w.asked[i].request != w.generation {
      if w.asked[i] in v.asked {
        var j :| 0 <= j < |v.asked| && v.asked[j] == w.asked[i];
      }
    }
  }

  lemma NumbersOfCheck(generation: nat, asked: seq<Question>, history: seq<nat>, q: Question)
    requires NumbersOK(generation, asked, history) && !q.refresh && q.request == generation
    ensures NumbersOK(generation, asked + [q], history)
  {
  }

  /** A closed view, or one without a run, asks for the counts only. */
  lemma CheckKeeps(v: View, w: View)
    requires NumbersOK(v.generation, v.asked, v.history) && w.generation == v.generation + 1
    requires w.asked == v.asked && w.history == v.history && Fresh(w) && LastShown(w)
             && (w.active ==> w.runID.None? && !w.busy)
    ensures Inv(CheckStats(w))
  {
    if w.runID.Some? {
      NumbersOfCheck(w.generation, w.asked, w.history, Question(false, w.generation, w.runID.value, w.folder));
    }
    MovedOn(v, CheckStats(w));
  }

  lemma FolderKeeps(v: View, chosen: Option<string>)
    requires Inv(v)
    ensures Inv(SetFolder(v, chosen))
  {
    if chosen != v.folder {
      var w := Clear(v).(folder := chosen, generation := v.generation + 1, busy := false);
      if w.active && w.runID.Some? {
        RefreshKeeps(w);
        assert SetFolder(v, chosen) == Refresh(w);
      } else {
        CheckKeeps(v, w);
        assert SetFolder(v, chosen) == CheckStats(w);
      }
    }
  }

  lemma SelectKeeps(v: View, id: Option<string>, chosen: Option<string>)
    requires Inv(v)
    ensures Inv(Select(v, id, chosen))
  {
    if id == v.runID {
      FolderKeeps(v, chosen);
    } else {
      var w := Selected(v, id, chosen);
      if w.active && id.Some? {
        RefreshKeeps(w);
      } else if w.active {
        MovedOn(v, w);
        assert Select(v, id, chosen) == w.(active := false, consoleVisible := true);
      } else {
        CheckKeeps(v, w);
      }
    }
  }

  lemma ChangesKeeps(v: View)
    requires Inv(v)
    ensures Inv(ToggleChanges(v))
  {
    if !(v.active && !v.consoleVisible) {
      var w := v.(active := !v.active, generation := v.generation + 1, busy := false);
      MovedOn(v, w);
      if v.active {
        assert ToggleChanges(v) == w;
      } else {
        RefreshKeeps(w);
        assert ToggleChanges(v) == Refresh(w);
      }
    }
  }

  lemma WithoutQuestion(v: View, k: nat)
    requires NumbersOK(v.generation, v.asked, v.history) && k < |v.asked|
    ensures var rest := v.asked[..k] + v.asked[k + 1..];
            && NumbersOK(v.generation, rest, v.history)
            && (v.asked[k].refresh ==> v.asked[k].request !in v.history)
            && (v.asked[k].refresh ==> forall i :: 0 <= i < |rest| && rest[i].refresh ==>
                rest[i].request != v.asked[k].request)
  {
    var rest := v.asked[..k] + v.asked[k + 1..];
    assert forall i :: 0 <= i < |rest| ==> rest[i] == v.asked[if i < k then i else i + 1];
  }

  lemma LoadingAfter(v: View, k: nat)
    requires NumbersOK(v.generation, v.asked, v.history) && k < |v.asked|
    ensures var w := v.(asked := v.asked[..k] + v.asked[k + 1..]);
            Loading(w) <==> Loading(v) && !(v.asked[k].refresh && v.asked[k].request == v.generation)
  {
    var rest := v.asked[..k] + v.asked[k + 1..];
    WithoutQuestion(v, k);
    if i :| 0 <= i < |v.asked| && i != k && v.asked[i].refresh && v.asked[i].request == v.generation {
      assert rest[if i < k then i else i - 1] == v.asked[i];
    }
    if i :| 0 <= i < |rest| && rest[i].refresh && rest[i].request == v.generation {
      assert v.asked[if i < k then i else i + 1] == rest[i];
    }
  }

  lemma ShowNumbers(generation: nat, asked: seq<Question>, history: seq<nat>, n: nat)
    requires NumbersOK(generation, asked, history) && n == generation && n !in history
    requires forall i :: 0 <= i < |asked| && asked[i].refresh ==> asked[i].request != n
    ensures NumbersOK(generation, asked, history + [n])
  {
  }

  lemma RefreshAnsweredFresh(w: View, q: Question, answer: Answer)
    requires Fresh(w) && LastShown(w)
    ensures Fresh(RefreshAnswered(w, q, answer)) && LastShown(RefreshAnswered(w, q, answer))
  {
  }

  lemma RefreshAnsweredNumbers(w: View, q: Question, answer: Answer)
    requires NumbersOK(w.generation, w.asked, w.history) && q.refresh && q.request !in w.history
    requires forall i :: 0 <= i < |w.asked| && w.asked[i].refresh ==> w.asked[i].request != q.request
    ensures var t := RefreshAnswered(w, q, answer); NumbersOK(t.generation, t.asked, t.history)
  {
    if q.request == w.generation {
      ShowNumbers(w.generation, w.asked, w.history, q.request);
    }
    var t := RefreshAnswered(w, q, answer);
    assert t.generation == w.generation && t.asked == w.asked;
    assert t.history == w.history || (q.request == w.generation && t.history == w.history + [q.request]);
  }

  lemma StatsAnsweredKeeps(w: View, q: Question, answer: Answer)
    requires Fresh(w) && LastShown(w)
    ensures var t := StatsAnswered(w, q, answer);
            && Fresh(t) && LastShown(t)
            && t == w.(banner := t.banner)
  {
  }

  lemma AnsweredBusy(v: View, k: nat, answer: Answer)
    requires Inv(v) && k < |v.asked|
    ensures BusyOK(Answered(v, k, answer))
  {
    var w := v.(asked := v.asked[..k] + v.asked[k + 1..]);
    var t := Answered(v, k, answer);
    LoadingAfter(v, k);
    assert t.asked == w.asked && t.generation == w.generation && t.active == v.active;
    assert Loading(t) == Loading(w);
  }

  lemma AnsweredKeeps(v: View, k: nat, answer: Answer)
    requires Inv(v) && k < |v.asked|
    ensures Inv(Answered(v, k, answer))
  {
    var w := v.(asked := v.asked[..k] + v.asked[k + 1..]);
    WithoutQuestion(v, k);
    AnsweredBusy(v, k, answer);
    if v.asked[k].refresh {
      RefreshAnsweredFresh(w, v.asked[k], answer);
      RefreshAnsweredNumbers(w, v.asked[k], answer);
    } else {
      StatsAnsweredKeeps(w, v.asked[k], answer);
    }
  }

  lemma CheckNowKeeps(v: View)
    requires Inv(v) && !v.active
    ensures Inv(CheckStats(v))
  {
    if v.runID.Some? {
      NumbersOfCheck(v.generation, v.asked, v.history, Question(false, v.generation, v.runID.value, v.folder));
    }
  }

  lemma InvPreserved(v: View, e: Event)
    requires Inv(v) && Possible(v, e)
    ensures Inv(After(v, e))
  {
    match e
    case PressRefresh => RefreshKeeps(v);
    case PressChanges => ChangesKeeps(v);
    case PressConsole =>
      assert Loading(ToggleConsole(v)) == Loading(v);
    case Check => CheckNowKeeps(v);
    case Choose(folder) => FolderKeeps(v, folder);
    case Pick(run, folder) => SelectKeeps(v, run, folder);
    case Lost => MovedOn(v, Disconnect(v));
    case Answers(k, answer) => AnsweredKeeps(v, k, answer);
  }

  // ---- runs ----

  ghost predicate StepAt(run: seq<View>, events: seq<Event>, i: nat)
    requires |run| == |events| + 1 && i < |events|
  {
    Possible(run[i], events[i]) && run[i + 1] == After(run[i], events[i])
  }

  ghost predicate IsRun(run: seq<View>, events: seq<Event>) {
    && |run| == |events| + 1
    && run[0] == START
    && forall i :: 0 <= i < |events| ==> StepAt(run, events, i)
  }

  lemma {:induction false} RunInv(run: seq<View>, events: seq<Event>, i: nat)
    requires IsRun(run, events) && i < |run|
    ensures Inv(run[i])
  {
    if i > 0 {
      RunInv(run, events, i - 1);
      assert StepAt(run, events, i - 1);
      InvPreserved(run[i - 1], events[i - 1]);
    }
  }

  /** In whatever order the agent answers, the result and the counts shown are those of the run and folder
      selected, the results shown came from ever later requests, and the user always sees one pane. */
  lemma OnlyFreshChanges(run: seq<View>, events: seq<Event>, i: nat)
    requires IsRun(run, events) && i < |run|
    ensures Fresh(run[i])
    ensures forall j, k :: 0 <= j < k < |run[i].history| ==> run[i].history[j] < run[i].history[k]
    ensures LastShown(run[i])
    ensures run[i].active ==> (run[i].busy <==> Loading(run[i]))
  {
    RunInv(run, events, i);
  }

  /** The answer the open changes view waits for is shown, with its counts or without, and a failure or another
      run's changes clear the view; any other answer leaves what is shown. */
  lemma AnswerIsShown(run: seq<View>, events: seq<Event>, i: nat)
    requires IsRun(run, events) && i < |events| && events[i].Answers?
    ensures var v, w := run[i], run[i + 1];
            && events[i].k < |v.asked|
            && var q, answer := v.asked[events[i].k], events[i].answer;
               q.refresh ==>
                 var awaited := q.request == v.generation && v.runID == Some(q.run) && q.folder == v.folder && v.active;
                 if awaited && answer.Changes? && answer.run == q.run then
                   w.result == Some(Shown(q.run, q.folder, q.request))
                   && w.banner == (if answer.counts then w.result else None)
                 else if awaited then w.result.None? && w.banner.None?
                 else w.result == v.result && w.banner == v.banner
  {
    assert StepAt(run, events, i);
  }

  // ---- when the busy mark is right ----

  /** The branch that leaves the mark as it is: no run is picked while a refresh is open. */
  predicate Misleads(v: View, e: Event) {
    e.Pick? && e.run.None? && v.runID.Some? && v.active && v.busy
  }

  /** What takes a wrong mark away: the changes button, another folder of the run, or losing the agent. */
  predicate Repairs(v: View, e: Event) {
    || e.PressChanges? || e.Lost?
    || (e.Choose? && e.folder != v.folder)
    || (e.Pick? && e.run == v.runID && e.folder != v.folder)
  }

  lemma PickMark(v: View, run: Option<string>, folder: Option<string>)
    requires Inv(v) && run != v.runID
    ensures Right(Select(v, run, folder)) <==> if v.active then run.Some? || !v.busy else !v.busy
  {
    var t := Select(v, run, folder);
    SelectKeeps(v, run, folder);
    if !(v.active && run.Some?) {
      MovedOn(v, t);
    }
  }

  /** A step leaves a right mark right unless it is misleading, and a wrong one wrong unless it repairs it. */
  lemma MarkAfter(v: View, e: Event)
    requires Inv(v) && Possible(v, e)
    ensures Right(After(v, e)) <==> if Right(v) then !Misleads(v, e) else Repairs(v, e)
  {
    InvPreserved(v, e);
    var t := After(v, e);
    match e
    case Pick(run, folder) =>
      if run != v.runID {
        PickMark(v, run, folder);
      } else if folder != v.folder && !v.active {
        MovedOn(v, t);
      }
    case Choose(folder) =>
      if folder != v.folder && !v.active {
        MovedOn(v, t);
      }
    case PressChanges =>
      if v.active && t != v {
        MovedOn(v, t);
      }
    case Lost => MovedOn(v, t);
    case Answers(k, answer) =>
      AnsweredMark(v, k, answer);
    case _ =>
      assert Loading(t) == Loading(v) || t.active;
  }

  lemma AnsweredMark(v: View, k: nat, answer: Answer)
    requires Inv(v) && k < |v.asked|
    ensures Right(Answered(v, k, answer)) <==> Right(v)
  {
    LoadingAfter(v, k);
    var w := v.(asked := v.asked[..k] + v.asked[k + 1..]);
    var t := Answered(v, k, answer);
    assert t.asked == w.asked && t.generation == w.generation;
    assert Loading(t) == Loading(w);
    if v.asked[k].refresh && v.asked[k].request == v.generation {
      assert Loading(v);
    }
  }

  /** Some step before i misled the mark, and none since has repaired it. */
  ghost predicate Misled(run: seq<View>, events: seq<Event>, i: nat)
    requires |run| == |events| + 1 && i < |run|
  {
    exists j :: 0 <= j < i && Misleads(run[j], events[j]) && forall k :: j < k < i ==> !Repairs(run[k], events[k])
  }

  /** In every run the mark is right exactly when it was never misled, or has been repaired since. */
  lemma {:induction false} BusyExactly(run: seq<View>, events: seq<Event>, i: nat)
    requires IsRun(run, events) && i < |run|
    ensures (run[i].busy <==> Loading(run[i])) <==> !Misled(run, events, i)
  {
    if i > 0 {
      BusyExactly(run, events, i - 1);
      RunInv(run, events, i - 1);
      assert StepAt(run, events, i - 1);
      MarkAfter(run[i - 1], events[i - 1]);
      if Misleads(run[i - 1], events[i - 1]) {
        assert Misled(run, events, i);
      }
      if Misled(run, events, i - 1) && !Repairs(run[i - 1], events[i - 1]) {
        var j :| 0 <= j < i - 1 && Misleads(run[j], events[j])
                 && forall k :: j < k < i - 1 ==> !Repairs(run[k], events[k]);
        assert forall k :: j < k < i ==> !Repairs(run[k], events[k]);
      }
    }
  }

  /** Alone, a step misleads the mark of a view whose mark is right exactly when it picks no run while a
      refresh is open. */
  lemma OnlyPickingNoRunMisleads(run: seq<View>, events: seq<Event>, i: nat)
    requires IsRun(run, events) && i < |events| && Right(run[i])
    ensures Right(run[i + 1]) <==> !Misleads(run[i], events[i])
  {
    RunInv(run, events, i);
    assert StepAt(run, events, i);
    MarkAfter(run[i], events[i]);
  }

  const LOST_RUN: Option<string> := Some("run")
  const LOST_CHECK := Question(false, 1, "run", None)
  const LOST_LOAD := Question(true, 3, "run", None)

  const LOST_EVENTS: seq<Event> := [Pick(LOST_RUN, None), Event.PressChanges, Pick(None, None), Answers(1, Failure),
                                    Answers(0, Failure)]

  function LostViews(): seq<View> {
    [START,
     View(LOST_RUN, None, 1, false, true, None, None, false, [LOST_CHECK], []),
     View(LOST_RUN, None, 3, true, true, None, None, true, [LOST_CHECK, LOST_LOAD], []),
     View(None, None, 4, false, true, None, None, true, [LOST_CHECK, LOST_LOAD], []),
     View(None, None, 4, false, true, None, None, true, [LOST_CHECK], []),
     View(None, None, 4, false, true, None, None, true, [], [])]
  }

  /** A view closed because no run is selected any more may stay marked busy, with nothing left to load. */
  lemma BusyForNothing()
    ensures IsRun(LostViews(), LOST_EVENTS)
    ensures LostViews()[5].busy && !LostViews()[5].active && LostViews()[5].asked == []
  {
  }
}
