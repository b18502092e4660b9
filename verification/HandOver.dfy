/** Launching a task's next step from its conversation, and closing that conversation once the successor
    shows (desktop/src/main.js). Each action is what the page does between two awaits. */
module HandOver {
  import opened Basics

  type Id = string
  type Task = string

  datatype Run = Run(id: Id, task: Task)

  /** An offer's launch: of which launch, whose conversation asked for it, and, once the launch is accepted,
      the runs the task had before. */
  datatype Offer = Offer(launch: nat, predecessor: Id, known: Option<seq<Id>>)

  /** A conversation the page has asked the agent to stop, and for which successor. */
  datatype Stop = Stop(launch: nat, predecessor: Id, task: Task, successor: Id)

  datatype Page = Page(runs: seq<Run>, selected: Option<Id>, submitting: set<Task>, submitted: map<Task, seq<Id>>,
                       offers: map<Task, Offer>, stops: seq<Stop>)

  // ---- reading the page ----

  function Find(runs: seq<Run>, id: Id): Option<Run> {
    if runs == [] then None else if runs[0].id == id then Some(runs[0]) else Find(runs[1..], id)
  }

  function Current(p: Page): Option<Run> {
    if p.selected.Some? then Find(p.runs, p.selected.value) else None
  }

  predicate OnTask(p: Page, task: Task) {
    Current(p).Some? && Current(p).value.task == task
  }

  /** The first run of the task that was not known. */
  function Successor(runs: seq<Run>, task: Task, known: seq<Id>): Option<Run> {
    if runs == [] then None
    else if runs[0].task == task && runs[0].id !in known then Some(runs[0])
    else Successor(runs[1..], task, known)
  }

  function IdsOf(runs: seq<Run>, task: Task): seq<Id> {
    if runs == [] then [] else (if runs[0].task == task then [runs[0].id] else []) + IdsOf(runs[1..], task)
  }

  /** Some run of the task has this id. */
  ghost predicate RanAs(runs: seq<Run>, task: Task, id: Id) {
    exists r :: r in runs && r.task == task && r.id == id
  }

  lemma {:induction false} IdsOfExactly(runs: seq<Run>, task: Task, id: Id)
    ensures id in IdsOf(runs, task) <==> RanAs(runs, task, id)
  {
    if runs != [] {
      IdsOfExactly(runs[1..], task, id);
      if RanAs(runs[1..], task, id) {
        var r :| r in runs[1..] && r.task == task && r.id == id;
        assert r in runs;
      }
    }
  }

  lemma AllRunsKnown(runs: seq<Run>, task: Task)
    ensures forall id :: id in IdsOf(runs, task) <==> RanAs(runs, task, id)
  {
    forall id ensures id in IdsOf(runs, task) <==> RanAs(runs, task, id) {
      IdsOfExactly(runs, task, id);
    }
  }

  // ---- what the page does ----

  function Without(offers: map<Task, Offer>, task: Task): map<Task, Offer> {
    offers - {task}
  }

  /** A move to a task drops the hand-overs that wait for a successor on any other. */
  function Select(p: Page, run: Run): Page {
    p.(selected := Some(run.id),
       offers := map t | t in p.offers && !(p.offers[t].known.Some? && t != run.task) :: p.offers[t])
  }

  function HandOne(p: Page, task: Task, opens: bool): Page {
    if task !in p.offers || p.offers[task].known.None? then p
    else
      var launch := p.offers[task];
      var successor := Successor(p.runs, task, launch.known.value);
      if successor.None? then p
      else
        var q := p.(offers := Without(p.offers, task));
        if !OnTask(q, task) then q
        else
          var r := if Current(q).value.id != successor.value.id && opens then Select(q, successor.value) else q;
          r.(stops := r.stops + [Stop(launch.launch, launch.predecessor, task, successor.value.id)])
  }

  function HandAll(p: Page, tasks: seq<Task>, opens: bool): Page {
    if tasks == [] then p else HandOne(HandAll(p, tasks[..|tasks| - 1], opens), tasks[|tasks| - 1], opens)
  }

  /** The start of launchTaskWork, past its guards; predecessor when an offer asked for it. */
  function Submit(p: Page, task: Task, launch: nat, predecessor: Option<Id>): Page {
    p.(submitting := p.submitting + {task},
       offers := if predecessor.Some? then p.offers[task := Offer(launch, predecessor.value, None)] else p.offers)
  }

  predicate MaySubmit(p: Page, task: Task) {
    task !in p.submitting && task !in p.submitted && task !in p.offers
  }

  /** The server accepted the launch. */
  function Accept(p: Page, task: Task, launch: nat, predecessor: Option<Id>, known: seq<Id>): Page {
    p.(submitted := p.submitted[task := known],
       offers := if predecessor.Some?
                 then p.offers[task := Offer(launch, predecessor.value, Some(known))] else p.offers)
  }

  /** The finally of launchTaskWork. */
  function Finish(p: Page, task: Task, predecessor: Option<Id>): Page {
    p.(submitting := p.submitting - {task},
       offers := if predecessor.Some? && !(task in p.offers && p.offers[task].known.Some?)
                 then Without(p.offers, task) else p.offers)
  }

  class TaskPage {
    var runs: seq<Run>
    var selected: Option<Id>
    var submitting: set<Task>
    var submitted: map<Task, seq<Id>>
    var offers: map<Task, Offer>
    var stops: seq<Stop>

    function View(): Page
      reads this
    {
      Page(runs, selected, submitting, submitted, offers, stops)
    }

    constructor ()
      ensures View() == Page([], None, {}, map[], map[], [])
    {
      runs, selected, submitting, submitted, offers, stops := [], None, {}, map[], map[], [];
    }

    method SelectRun(run: Run)
      modifies this
      ensures View() == Select(old(View()), run)
      ensures selected == Some(run.id)
      ensures forall t :: t in offers <==> t in old(offers) && (t == run.task || old(offers)[t].known.None?)
      ensures forall t :: t in offers ==> offers[t] == old(offers)[t]
      ensures View() == old(View()).(selected := selected, offers := offers)
    {
      selected := Some(run.id);
      offers := map t | t in offers && !(offers[t].known.Some? && t != run.task) :: offers[t];
    }

    /** handOverConversations, on the launches in the order the page holds them; opens is false while the
        page keeps the user on an edit. */
    method HandOverConversations(tasks: seq<Task>, opens: bool)
      modifies this
      ensures View() == HandAll(old(View()), tasks, opens)
    {
      for i := 0 to |tasks|
        invariant View() == HandAll(old(View()), tasks[..i], opens)
      {
        assert tasks[..i + 1][..i] == tasks[..i];
        HandOverTask(tasks[i], opens);
      }
      assert tasks[..|tasks|] == tasks;
    }

    method HandOverTask(task: Task, opens: bool)
      modifies this
      ensures View() == HandOne(old(View()), task, opens)
      ensures var waits := task in old(offers) && old(offers)[task].known.Some?
                           && old(Successor(runs, task, offers[task].known.value)).Some?;
              && (task in offers <==> task in old(offers) && !waits)
              && (selected != old(selected) || stops != old(stops) ==> waits && old(OnTask(View(), task)))
              && (waits && old(OnTask(View(), task)) ==>
                  var launch, id := old(offers)[task], old(Successor(runs, task, offers[task].known.value)).value.id;
                  && stops == old(stops) + [Stop(launch.launch, launch.predecessor, task, id)]
                  && selected == if opens && old(Current(View())).value.id != id then Some(id) else old(selected))
    {
      if task !in offers || offers[task].known.None? {
        return;
      }
      var launch := offers[task];
      var successor := Successor(runs, task, launch.known.value);
      if successor.None? {
        return;
      }
      offers := offers - {task};
      ghost var q := View();
      var current := Current(View());
      if current.None? || current.value.task != task {
        return;
      }
      if current.value.id != successor.value.id && opens {
        SelectRun(successor.value);
      }
      stops := stops + [Stop(launch.launch, launch.predecessor, task, successor.value.id)];
    }

    method SubmitLaunch(task: Task, launch: nat, predecessor: Option<Id>) returns (ok: bool)
      modifies this
      ensures ok == MaySubmit(old(View()), task)
      ensures ok <==> task !in old(submitting) && task !in old(submitted) && task !in old(offers)
      ensures View() == if !ok then old(View()) else old(View()).(
                submitting := old(submitting) + {task},
                offers := if predecessor.None? then old(offers)
                          else old(offers)[task := Offer(launch, predecessor.value, None)])
      ensures View() == if ok then Submit(old(View()), task, launch, predecessor) else old(View())
    {
      if task in submitting || task in submitted || task in offers {
        return false;
      }
      if predecessor.Some? {
        offers := offers[task := Offer(launch, predecessor.value, None)];
      }
      submitting := submitting + {task};
      return true;
    }

    method LaunchAccepted(task: Task, launch: nat, predecessor: Option<Id>, latest: seq<Run>)
      modifies this
      ensures View() == Accept(old(View()), task, launch, predecessor, IdsOf(latest, task))
      ensures task in submitted && forall id :: id in submitted[task] <==> RanAs(latest, task, id)
      ensures predecessor.Some? ==>
                task in offers && offers[task] == Offer(launch, predecessor.value, Some(submitted[task]))
      ensures View() == old(View()).(
                submitted := old(submitted)[task := submitted[task]],
                offers := if predecessor.Some? then old(offers)[task := offers[task]] else old(offers))
    {
      AllRunsKnown(latest, task);
      var known := IdsOf(latest, task);
      submitted := submitted[task := known];
      if predecessor.Some? {
        offers := offers[task := Offer(launch, predecessor.value, Some(known))];
      }
    }

    method FinishLaunch(task: Task, predecessor: Option<Id>)
      modifies this
      ensures View() == Finish(old(View()), task, predecessor)
      ensures submitting == old(submitting) - {task}
      ensures forall t :: t in offers <==>
                t in old(offers) && (t != task || predecessor.None? || old(offers)[t].known.Some?)
      ensures forall t :: t in offers ==> offers[t] == old(offers)[t]
      ensures View() == old(View()).(submitting := submitting, offers := offers)
    {
      submitting := submitting - {task};
      if predecessor.Some? && !(task in offers && offers[task].known.Some?) {
        offers := offers - {task};
      }
    }
  }

  // ---- launches, interleaved with polls and the user's moves ----

  /** Where launchTaskWork awaits: the fresh read, the server's answer, or its refresh. */
  datatype Launch =
    | Reading(task: Task, predecessor: Option<Id>)
    | Sent(task: Task, predecessor: Option<Id>, latest: seq<Run>)
    | Refreshing(task: Task, predecessor: Option<Id>, latest: seq<Run>, accepted: bool)
    | Ended(task: Task, predecessor: Option<Id>, latest: seq<Run>, accepted: bool)

  datatype State = State(page: Page, launches: seq<Launch>)

  const INIT := State(Page([], None, {}, map[], map[], []), [])

  datatype Action =
    | Start(fromOffer: bool)
    | ReadFails(n: nat)
    | ReadStale(n: nat)
    | ReadAbandons(n: nat)
    | ReadHolds(n: nat, latest: seq<Run>)
    | Refused(n: nat)
    | Accepted(n: nat)
    | RefreshEnds(n: nat, shown: Option<Run>)
    | Poll(runs: seq<Run>)
    | PollEnds(followed: Option<Run>, tasks: seq<Task>, opens: bool)
    | Move(run: Run)
    | Deselect
    | StepSeen(task: Task)

  predicate At(s: State, n: nat) {
    n < |s.launches|
  }

  predicate InFlight(l: Launch) {
    !l.Ended?
  }

  predicate UniqueIds(runs: seq<Run>) {
    forall i, j :: 0 <= i < j < |runs| ==> runs[i].id != runs[j].id
  }

  predicate Enabled(s: State, a: Action) {
    match a
    case Start(_) => Current(s.page).Some? && MaySubmit(s.page, Current(s.page).value.task)
    case ReadFails(n) => At(s, n) && s.launches[n].Reading?
    case ReadStale(n) => At(s, n) && s.launches[n].Reading? && !OnTask(s.page, s.launches[n].task)
    case ReadAbandons(n) => At(s, n) && s.launches[n].Reading? && OnTask(s.page, s.launches[n].task)
    case ReadHolds(n, _) => At(s, n) && s.launches[n].Reading? && OnTask(s.page, s.launches[n].task)
    case Refused(n) => At(s, n) && s.launches[n].Sent?
    case Accepted(n) => At(s, n) && s.launches[n].Sent?
    case RefreshEnds(n, shown) =>
      && At(s, n) && s.launches[n].Refreshing?
      && (shown.Some? ==> s.launches[n].accepted && OnTask(s.page, s.launches[n].task) && shown.value in s.page.runs
                           && shown.value.task == s.launches[n].task)
    // Each run has an id of its own.
    case Poll(runs) => UniqueIds(runs)
    case PollEnds(followed, tasks, _) =>
      && (forall t :: t in s.page.offers ==> t in tasks)
      && (followed.Some? ==> followed.value in s.page.runs)
    case _ => true
  }

  function End(s: State, n: nat, latest: seq<Run>, accepted: bool): State
    requires At(s, n)
  {
    var l := s.launches[n];
    State(Finish(s.page, l.task, l.predecessor), s.launches[n := Ended(l.task, l.predecessor, latest, accepted)])
  }

  function AfterStart(s: State, fromOffer: bool): State
    requires Enabled(s, Start(fromOffer))
  {
    var run := Current(s.page).value;
    var predecessor := if fromOffer then Some(run.id) else None;
    State(Submit(s.page, run.task, |s.launches|, predecessor), s.launches + [Reading(run.task, predecessor)])
  }

  function AfterAccepted(s: State, n: nat): State
    requires Enabled(s, Accepted(n))
  {
    var l := s.launches[n];
    State(Accept(s.page, l.task, n, l.predecessor, IdsOf(l.latest, l.task)),
          s.launches[n := Refreshing(l.task, l.predecessor, l.latest, true)])
  }

  function AfterRefresh(s: State, n: nat, shown: Option<Run>): State
    requires Enabled(s, RefreshEnds(n, shown))
  {
    var page := if shown.Some? then Select(s.page, shown.value) else s.page;
    End(s.(page := page), n, s.launches[n].latest, s.launches[n].accepted)
  }

  function AfterPoll(p: Page, followed: Option<Run>, tasks: seq<Task>, opens: bool): Page {
    HandAll(Followed(p, followed), tasks, opens)
  }

  function After(s: State, a: Action): State
    requires Enabled(s, a)
  {
    match a
    case Start(fromOffer) => AfterStart(s, fromOffer)
    case ReadFails(n) => End(s, n, [], false)
    case ReadStale(n) => End(s, n, [], false)
    case ReadAbandons(n) =>
      s.(launches := s.launches[n := Refreshing(s.launches[n].task, s.launches[n].predecessor, [], false)])
    case ReadHolds(n, latest) =>
      s.(launches := s.launches[n := Sent(s.launches[n].task, s.launches[n].predecessor, latest)])
    case Refused(n) => End(s, n, [], false)
    case Accepted(n) => AfterAccepted(s, n)
    case RefreshEnds(n, shown) => AfterRefresh(s, n, shown)
    case Poll(runs) => s.(page := s.page.(runs := runs))
    case PollEnds(followed, tasks, opens) => s.(page := AfterPoll(s.page, followed, tasks, opens))
    case Move(run) => s.(page := Select(s.page, run))
    case Deselect => s.(page := s.page.(selected := None))
    case StepSeen(task) => s.(page := s.page.(submitted := s.page.submitted - {task}))
  }

  // ---- the invariant ----

  predicate WasAccepted(l: Launch) {
    (l.Refreshing? || l.Ended?) && l.accepted
  }

  /** A launch in flight holds its task, alone. */
  ghost predicate FlightOK(s: State) {
    && (forall n: nat :: n < |s.launches| && InFlight(s.launches[n]) ==> s.launches[n].task in s.page.submitting)
    && (forall m: nat, n: nat :: m < n < |s.launches| && InFlight(s.launches[m]) && InFlight(s.launches[n]) ==>
        s.launches[m].task != s.launches[n].task)
  }

  predicate OfferOK(s: State, t: Task)
    requires t in s.page.offers
  {
    var o := s.page.offers[t];
    && o.launch < |s.launches|
    && s.launches[o.launch].task == t && s.launches[o.launch].predecessor == Some(o.predecessor)
    && (o.known.None? ==> InFlight(s.launches[o.launch]) && !WasAccepted(s.launches[o.launch]))
    && (o.known.Some? ==> WasAccepted(s.launches[o.launch]) && o.known.value == IdsOf(s.launches[o.launch].latest, t))
  }

  /** The offer of a task is that of the launch in flight on it, if there is one. */
  ghost predicate OffersOK(s: State) {
    && (forall t :: t in s.page.offers ==> OfferOK(s, t))
    && (forall n: nat :: n < |s.launches| && InFlight(s.launches[n]) && s.launches[n].task in s.page.offers
          ==> s.page.offers[s.launches[n].task].launch == n)
  }

  predicate StopOK(s: State, st: Stop) {
    && st.launch < |s.launches| && WasAccepted(s.launches[st.launch])
    && s.launches[st.launch].task == st.task && s.launches[st.launch].predecessor == Some(st.predecessor)
    && st.successor !in IdsOf(s.launches[st.launch].latest, st.task)
  }

  /** Each stop is that of an accepted launch, which waits for no successor any more. */
  ghost predicate StopsOK(s: State) {
    && (forall i :: 0 <= i < |s.page.stops| ==> StopOK(s, s.page.stops[i]))
    && (forall i, j :: 0 <= i < j < |s.page.stops| ==> s.page.stops[i].launch != s.page.stops[j].launch)
    && (forall i, t :: 0 <= i < |s.page.stops| && t in s.page.offers ==>
        s.page.offers[t].launch != s.page.stops[i].launch)
  }

  ghost predicate Inv(s: State) {
    FlightOK(s) && OffersOK(s) && StopsOK(s) && UniqueIds(s.page.runs)
  }

  // ---- the page's own moves keep it ----

  /** Offers only go, and nothing else that the invariant speaks of changes. */
  predicate FewerOffers(p: Page, q: Page) {
    && p.submitting == q.submitting && p.stops == q.stops && UniqueIds(q.runs)
    && forall t :: t in q.offers ==> t in p.offers && q.offers[t] == p.offers[t]
  }

  lemma FewerOffersKeep(s: State, q: Page)
    requires Inv(s) && FewerOffers(s.page, q)
    ensures Inv(s.(page := q))
  {
    var t := s.(page := q);
    assert forall x :: x in q.offers ==> OfferOK(s, x);
    assert forall i :: 0 <= i < |q.stops| ==> StopOK(s, s.page.stops[i]);
  }

  lemma {:induction false} SuccessorIs(runs: seq<Run>, task: Task, known: seq<Id>)
    ensures var r := Successor(runs, task, known);
            r.Some? ==> r.value in runs && r.value.task == task && r.value.id !in known
    ensures Successor(runs, task, known).Some? <==> exists r :: r in runs && r.task == task && r.id !in known
  {
    if runs != [] {
      SuccessorIs(runs[1..], task, known);
    }
  }

  /** The successor is the first run that qualifies. */
  lemma {:induction false} SuccessorIsFirst(runs: seq<Run>, task: Task, known: seq<Id>, k: nat)
    requires k < |runs| && runs[k].task == task && runs[k].id !in known
    requires forall j :: 0 <= j < k ==> runs[j].task != task || runs[j].id in known
    ensures Successor(runs, task, known) == Some(runs[k])
  {
    if k > 0 {
      SuccessorIsFirst(runs[1..], task, known, k - 1);
    }
  }

  lemma StopKeeps(s: State, task: Task, successor: Id)
    requires Inv(s) && task in s.page.offers && s.page.offers[task].known.Some?
             && successor !in s.page.offers[task].known.value
    ensures var o := s.page.offers[task];
            Inv(s.(page := s.page.(offers := Without(s.page.offers, task),
                                   stops := s.page.stops + [Stop(o.launch, o.predecessor, task, successor)])))
  {
    var o := s.page.offers[task];
    var t := s.(page := s.page.(offers := Without(s.page.offers, task),
                                stops := s.page.stops + [Stop(o.launch, o.predecessor, task, successor)]));
    assert OfferOK(s, task);
    forall x | x in t.page.offers ensures OfferOK(t, x) && t.page.offers[x].launch != o.launch {
      assert OfferOK(s, x);
    }
    forall i | 0 <= i < |t.page.stops| ensures StopOK(t, t.page.stops[i]) {
      if i < |s.page.stops| {
        assert StopOK(s, s.page.stops[i]);
      }
    }
  }

  lemma HandOneKeeps(s: State, task: Task, opens: bool)
    requires Inv(s)
    ensures Inv(s.(page := HandOne(s.page, task, opens)))
  {
    var p := s.page;
    if task in p.offers && p.offers[task].known.Some? && Successor(p.runs, task, p.offers[task].known.value).Some? {
      var o := p.offers[task];
      var successor := Successor(p.runs, task, o.known.value).value;
      SuccessorIs(p.runs, task, o.known.value);
      var q := p.(offers := Without(p.offers, task));
      if OnTask(q, task) {
        StopKeeps(s, task, successor.id);
        var stopped := q.(stops := q.stops + [Stop(o.launch, o.predecessor, task, successor.id)]);
        if HandOne(p, task, opens) != stopped {
          FewerOffersKeep(s.(page := stopped), HandOne(p, task, opens));
        }
      } else {
        FewerOffersKeep(s, q);
      }
    }
  }

  lemma {:induction false} HandAllKeeps(s: State, tasks: seq<Task>, opens: bool)
    requires Inv(s)
    ensures Inv(s.(page := HandAll(s.page, tasks, opens)))
  {
    if tasks != [] {
      HandAllKeeps(s, tasks[..|tasks| - 1], opens);
      HandOneKeeps(s.(page := HandAll(s.page, tasks[..|tasks| - 1], opens)), tasks[|tasks| - 1], opens);
    }
  }

  // ---- each launch's steps keep it ----

  lemma StartKeeps(s: State, fromOffer: bool)
    requires Inv(s) && Enabled(s, Start(fromOffer))
    ensures Inv(AfterStart(s, fromOffer))
  {
    var t := AfterStart(s, fromOffer);
    forall x | x in t.page.offers ensures OfferOK(t, x) {
      if x in s.page.offers {
        assert OfferOK(s, x);
      }
    }
    forall i | 0 <= i < |t.page.stops| ensures StopOK(t, t.page.stops[i]) {
      assert StopOK(s, s.page.stops[i]);
    }
  }

  /** A launch moves on without the page: accepted or not stays as it was. */
  lemma MoveOnKeeps(s: State, n: nat, l: Launch)
    requires Inv(s) && At(s, n) && InFlight(s.launches[n]) && InFlight(l) && !WasAccepted(s.launches[n])
             && !WasAccepted(l)
    requires l.task == s.launches[n].task && l.predecessor == s.launches[n].predecessor
    ensures Inv(s.(launches := s.launches[n := l]))
  {
    var t := s.(launches := s.launches[n := l]);
    forall x | x in t.page.offers ensures OfferOK(t, x) {
      assert OfferOK(s, x);
    }
    forall i | 0 <= i < |t.page.stops| ensures StopOK(t, t.page.stops[i]) {
      assert StopOK(s, s.page.stops[i]);
    }
  }

  lemma AcceptedKeeps(s: State, n: nat)
    requires Inv(s) && Enabled(s, Accepted(n))
    ensures Inv(AfterAccepted(s, n))
  {
    var t := AfterAccepted(s, n);
    forall x | x in t.page.offers ensures OfferOK(t, x) {
      if x in s.page.offers {
        assert OfferOK(s, x);
      }
    }
    forall i | 0 <= i < |t.page.stops| ensures StopOK(t, t.page.stops[i]) {
      assert StopOK(s, s.page.stops[i]);
    }
  }

  lemma EndKeeps(s: State, n: nat, latest: seq<Run>, accepted: bool)
    requires Inv(s) && At(s, n) && InFlight(s.launches[n])
    requires accepted == WasAccepted(s.launches[n]) && (accepted ==> latest == s.launches[n].latest)
    ensures Inv(End(s, n, latest, accepted))
  {
    var t := End(s, n, latest, accepted);
    forall x | x in t.page.offers ensures OfferOK(t, x) {
      assert OfferOK(s, x);
    }
    forall i | 0 <= i < |t.page.stops| ensures StopOK(t, t.page.stops[i]) {
      assert StopOK(s, s.page.stops[i]);
    }
  }

  lemma InvPreserved(s: State, a: Action)
    requires Inv(s) && Enabled(s, a)
    ensures Inv(After(s, a))
  {
    match a
    case Start(fromOffer) => StartKeeps(s, fromOffer);
    case ReadFails(n) => EndKeeps(s, n, [], false);
    case ReadStale(n) => EndKeeps(s, n, [], false);
    case ReadAbandons(n) => MoveOnKeeps(s, n, Refreshing(s.launches[n].task, s.launches[n].predecessor, [], false));
    case ReadHolds(n, latest) => MoveOnKeeps(s, n, Sent(s.launches[n].task, s.launches[n].predecessor, latest));
    case Refused(n) => EndKeeps(s, n, [], false);
    case Accepted(n) => AcceptedKeeps(s, n);
    case RefreshEnds(n, shown) =>
      var page := if shown.Some? then Select(s.page, shown.value) else s.page;
      FewerOffersKeep(s, page);
      EndKeeps(s.(page := page), n, s.launches[n].latest, s.launches[n].accepted);
    case PollEnds(followed, tasks, opens) =>
      var page := if followed.Some? then Select(s.page, followed.value) else s.page;
      FewerOffersKeep(s, page);
      HandAllKeeps(s.(page := page), tasks, opens);
    case _ => FewerOffersKeep(s, After(s, a).page);
  }

  // ---- runs ----

  ghost predicate StepAt(run: seq<State>, actions: seq<Action>, i: nat)
    requires |run| == |actions| + 1 && i < |actions|
  {
    Enabled(run[i], actions[i]) && run[i + 1] == After(run[i], actions[i])
  }

  ghost predicate IsRun(run: seq<State>, actions: seq<Action>) {
    && |run| == |actions| + 1
    && run[0] == INIT
    && forall i :: 0 <= i < |actions| ==> StepAt(run, actions, i)
  }

  lemma {:induction false} RunInv(run: seq<State>, actions: seq<Action>, i: nat)
    requires IsRun(run, actions) && i < |run|
    ensures Inv(run[i])
  {
    if i > 0 {
      RunInv(run, actions, i - 1);
      assert StepAt(run, actions, i - 1);
      InvPreserved(run[i - 1], actions[i - 1]);
    }
  }

  /** At most one launch is in flight on a task. */
  lemma OneLaunchPerTask(run: seq<State>, actions: seq<Action>, i: nat, m: nat, n: nat)
    requires IsRun(run, actions) && i < |run| && m < |run[i].launches| && n < |run[i].launches|
    requires InFlight(run[i].launches[m]) && InFlight(run[i].launches[n])
             && run[i].launches[m].task == run[i].launches[n].task
    ensures m == n
  {
    RunInv(run, actions, i);
    assert m < n || n < m || m == n;
  }

  lemma {:induction false} HandAllLeaves(p: Page, tasks: seq<Task>, opens: bool)
    ensures var q := HandAll(p, tasks, opens); q.submitting == p.submitting && q.submitted == p.submitted
  {
    if tasks != [] {
      HandAllLeaves(p, tasks[..|tasks| - 1], opens);
    }
  }

  /** A launch in flight is on the task. */
  ghost predicate Launching(launches: seq<Launch>, task: Task) {
    exists n :: 0 <= n < |launches| && InFlight(launches[n]) && launches[n].task == task
  }

  lemma LaunchingStep(s: State, a: Action, task: Task)
    requires Enabled(s, a) && (task in s.page.submitting ==> Launching(s.launches, task))
    ensures task in After(s, a).page.submitting ==> Launching(After(s, a).launches, task)
  {
    if a.PollEnds? {
      HandAllLeaves(Followed(s.page, a.followed), a.tasks, a.opens);
    } else if task in After(s, a).page.submitting {
      var t := After(s, a);
      if a.Start? && task !in s.page.submitting {
        assert t.launches[|s.launches|].task == task;
      } else {
        var n :| 0 <= n < |s.launches| && InFlight(s.launches[n]) && s.launches[n].task == task;
        assert InFlight(t.launches[n]) && t.launches[n].task == task;
      }
    }
  }

  /** A task is held for exactly as long as a launch on it is in flight. */
  lemma {:induction false} HeldExactly(run: seq<State>, actions: seq<Action>, i: nat, task: Task)
    requires IsRun(run, actions) && i < |run|
    ensures task in run[i].page.submitting <==> Launching(run[i].launches, task)
  {
    RunInv(run, actions, i);
    if i > 0 {
      HeldExactly(run, actions, i - 1, task);
      assert StepAt(run, actions, i - 1);
      LaunchingStep(run[i - 1], actions[i - 1], task);
    }
  }

  /** The launch that a step saw accepted is on the task. */
  predicate Accepts(s: State, a: Action, task: Task) {
    a.Accepted? && At(s, a.n) && s.launches[a.n].task == task
  }

  lemma SubmittedStep(s: State, a: Action, task: Task)
    requires Enabled(s, a)
    ensures task in After(s, a).page.submitted <==>
            Accepts(s, a, task) || (task in s.page.submitted && a != StepSeen(task))
  {
    if a.PollEnds? {
      HandAllLeaves(Followed(s.page, a.followed), a.tasks, a.opens);
    }
  }

  /** A launch on the task was accepted, and its step has not been seen since. */
  ghost predicate Unseen(run: seq<State>, actions: seq<Action>, i: nat, task: Task)
    requires |run| == |actions| + 1 && i < |run|
  {
    exists j :: 0 <= j < i && Accepts(run[j], actions[j], task)
                && forall k :: j < k < i ==> actions[k] != StepSeen(task)
  }

  /** A task can be launched again only once the step of its accepted launch has been seen: until then, and no
      longer, the page remembers it. */
  lemma {:induction false} SubmittedExactly(run: seq<State>, actions: seq<Action>, i: nat, task: Task)
    requires IsRun(run, actions) && i < |run|
    ensures task in run[i].page.submitted <==> Unseen(run, actions, i, task)
  {
    if i > 0 {
      SubmittedExactly(run, actions, i - 1, task);
      assert StepAt(run, actions, i - 1);
      SubmittedStep(run[i - 1], actions[i - 1], task);
      if Unseen(run, actions, i - 1, task) && actions[i - 1] != StepSeen(task) {
        var j :| 0 <= j < i - 1 && Accepts(run[j], actions[j], task)
                 && forall k :: j < k < i - 1 ==> actions[k] != StepSeen(task);
        assert forall k :: j < k < i ==> actions[k] != StepSeen(task);
      }
      if Accepts(run[i - 1], actions[i - 1], task) {
        assert Unseen(run, actions, i, task);
      }
    }
  }

  /** Only an accepted launch that a conversation's offer asked for closes that conversation, once, and for a
      successor of its task that was not among the runs read before the launch. */
  lemma StopsAreEarned(run: seq<State>, actions: seq<Action>, i: nat, k: nat)
    requires IsRun(run, actions) && i < |run| && k < |run[i].page.stops|
    ensures var stop, launches := run[i].page.stops[k], run[i].launches;
            && stop.launch < |launches|
            && var l := launches[stop.launch];
               && (l.Refreshing? || l.Ended?) && l.accepted
               && l.task == stop.task && l.predecessor == Some(stop.predecessor)
               && forall r :: r in l.latest && r.task == stop.task ==> r.id != stop.successor
    ensures var stops := run[i].page.stops;
            forall j :: 0 <= j < |stops| && stops[j].launch == stops[k].launch ==> j == k
  {
    RunInv(run, actions, i);
    var stop := run[i].page.stops[k];
    assert StopOK(run[i], stop);
    IdsOfExactly(run[i].launches[stop.launch].latest, stop.task, stop.successor);
  }

  // ---- when a conversation is closed ----

  lemma {:induction false} FindIt(runs: seq<Run>, r: Run)
    requires UniqueIds(runs) && r in runs
    ensures Find(runs, r.id) == Some(r)
  {
    if runs[0] != r {
      var k :| 0 < k < |runs| && runs[k] == r;
      assert runs[1..][k - 1] == r;
      FindIt(runs[1..], r);
    }
  }

  /** The hand-over of the task is due: its successor shows, and the user is on the task. */
  predicate Due(p: Page, task: Task) {
    task in p.offers && p.offers[task].known.Some? && Successor(p.runs, task, p.offers[task].known.value).Some?
        && OnTask(p, task)
  }

  /** The stop that closes it. */
  function StopFor(p: Page, task: Task): Stop
    requires Due(p, task)
  {
    var o := p.offers[task];
    Stop(o.launch, o.predecessor, task, Successor(p.runs, task, o.known.value).value.id)
  }

  lemma HandOneEffect(p: Page, task: Task, opens: bool)
    requires UniqueIds(p.runs)
    ensures var q := HandOne(p, task, opens);
            && q.runs == p.runs
            && (forall t :: t in q.offers ==> t in p.offers && q.offers[t] == p.offers[t])
            && (Current(q).None? <==> Current(p).None?)
            && (Current(p).Some? ==> Current(q).value.task == Current(p).value.task)
            && (!Due(p, task) ==> q.stops == p.stops)
            && (Due(p, task) ==> q.stops == p.stops + [StopFor(p, task)])
  {
    if Due(p, task) {
      var r := Successor(p.runs, task, p.offers[task].known.value).value;
      SuccessorIs(p.runs, task, p.offers[task].known.value);
      FindIt(p.runs, r);
    }
  }

  /** Only what is due is handed over. */
  lemma {:induction false} OnlyDue(p: Page, tasks: seq<Task>, opens: bool)
    requires UniqueIds(p.runs)
    ensures var q := HandAll(p, tasks, opens);
            && q.runs == p.runs && p.stops <= q.stops
            && (forall t :: t in q.offers ==> t in p.offers && q.offers[t] == p.offers[t])
            && (Current(q).None? <==> Current(p).None?)
            && (Current(p).Some? ==> Current(q).value.task == Current(p).value.task)
            && forall k :: |p.stops| <= k < |q.stops| ==>
                 Due(p, q.stops[k].task) && q.stops[k] == StopFor(p, q.stops[k].task)
  {
    if tasks != [] {
      var init, last := tasks[..|tasks| - 1], tasks[|tasks| - 1];
      OnlyDue(p, init, opens);
      HandOneEffect(HandAll(p, init, opens), last, opens);
    }
  }

  /** Between p and q the page closed the conversation of this launch. */
  ghost predicate Closes(p: Page, q: Page, launch: nat) {
    exists k :: |p.stops| <= k < |q.stops| && q.stops[k].launch == launch
  }

  lemma ClosesMore(p: Page, q: Page, r: Page, launch: nat)
    requires Closes(p, q, launch) && q.stops <= r.stops
    ensures Closes(p, r, launch)
  {
    var k :| |p.stops| <= k < |q.stops| && q.stops[k].launch == launch;
    assert r.stops[k] == q.stops[k];
  }

  /** And what is due is handed over. */
  lemma {:induction false} AllDue(p: Page, tasks: seq<Task>, opens: bool, task: Task)
    requires UniqueIds(p.runs) && Due(p, task)
    ensures var q := HandAll(p, tasks, opens);
            if task in tasks then Closes(p, q, p.offers[task].launch)
            else Due(q, task) && q.offers[task] == p.offers[task]
  {
    if tasks != [] {
      var init, last := tasks[..|tasks| - 1], tasks[|tasks| - 1];
      var r := HandAll(p, init, opens);
      assert tasks == init + [last];
      AllDue(p, init, opens, task);
      OnlyDue(p, init, opens);
      HandOneEffect(r, last, opens);
      if task in init {
        ClosesMore(p, r, HandAll(p, tasks, opens), p.offers[task].launch);
      } else if last == task {
        assert HandAll(p, tasks, opens).stops[|r.stops|].launch == p.offers[task].launch;
      }
    }
  }

  /** A pass over the launches closes the conversation of one exactly when the launch was accepted, its
      successor shows among the runs, and the user is on its task. */
  lemma HandedOverWhenDue(s: State, tasks: seq<Task>, opens: bool, task: Task)
    requires Inv(s) && task in s.page.offers && task in tasks
    ensures Closes(s.page, HandAll(s.page, tasks, opens), s.page.offers[task].launch) <==> Due(s.page, task)
  {
    OnlyDue(s.page, tasks, opens);
    assert OfferOK(s, task);
    if Due(s.page, task) {
      AllDue(s.page, tasks, opens, task);
    } else {
      var stops := HandAll(s.page, tasks, opens).stops;
      forall k | |s.page.stops| <= k < |stops| ensures stops[k].launch != s.page.offers[task].launch {
        assert OfferOK(s, stops[k].task);
      }
    }
  }

  /** What the pass of a poll starts from: a new run of the task shown has been followed. */
  function Followed(p: Page, followed: Option<Run>): Page {
    if followed.Some? then Select(p, followed.value) else p
  }

  /** In every run the page stops a conversation only as a poll ends, for a hand-over that is due then: the user
      is on its task, and the successor is a run of that task that was not among those known. */
  lemma StopsOnlyWhenDue(run: seq<State>, actions: seq<Action>, i: nat, k: nat)
    requires IsRun(run, actions) && i < |actions| && |run[i].page.stops| <= k < |run[i + 1].page.stops|
    ensures actions[i].PollEnds?
    ensures var p, stop := Followed(run[i].page, actions[i].followed), run[i + 1].page.stops[k];
            && Due(p, stop.task) && stop == StopFor(p, stop.task)
            && Run(stop.successor, stop.task) in p.runs && stop.successor !in p.offers[stop.task].known.value
  {
    RunInv(run, actions, i);
    assert StepAt(run, actions, i);
    if actions[i].PollEnds? {
      var p := Followed(run[i].page, actions[i].followed);
      OnlyDue(p, actions[i].tasks, actions[i].opens);
      var stop := run[i + 1].page.stops[k];
      SuccessorIs(p.runs, stop.task, p.offers[stop.task].known.value);
      var r := Successor(p.runs, stop.task, p.offers[stop.task].known.value).value;
      assert r in p.runs && r == Run(stop.successor, stop.task);
    }
  }

  /** A move to another task drops the hand-over of a task exactly when its launch has been accepted. */
  lemma MoveDrops(p: Page, run: Run, task: Task)
    requires task in p.offers && run.task != task
    ensures task in Select(p, run).offers <==> p.offers[task].known.None?
  {
  }

  // ---- a launch that is settled stays so ----

  /** The page neither waits for the launch's successor nor has closed anything for it. */
  ghost predicate Free(p: Page, n: nat) {
    && (forall t :: t in p.offers ==> p.offers[t].launch != n)
    && (forall k :: 0 <= k < |p.stops| ==> p.stops[k].launch != n)
  }

  /** An accepted launch that the page is done with. */
  ghost predicate Settled(s: State, n: nat) {
    At(s, n) && WasAccepted(s.launches[n]) && Free(s.page, n)
  }

  lemma {:induction false} HandAllFree(p: Page, tasks: seq<Task>, opens: bool, n: nat)
    requires Free(p, n)
    ensures Free(HandAll(p, tasks, opens), n)
  {
    if tasks != [] {
      HandAllFree(p, tasks[..|tasks| - 1], opens, n);
    }
  }

  lemma SettledStays(s: State, a: Action, n: nat)
    requires Settled(s, n) && Enabled(s, a)
    ensures Settled(After(s, a), n)
  {
    if a.PollEnds? {
      var page := if a.followed.Some? then Select(s.page, a.followed.value) else s.page;
      assert Free(page, n);
      HandAllFree(page, a.tasks, a.opens, n);
    } else {
      assert Free(After(s, a).page, n);
    }
  }

  lemma {:induction false} SettledForGood(run: seq<State>, actions: seq<Action>, i: nat, j: nat, n: nat)
    requires IsRun(run, actions) && i <= j < |run| && Settled(run[i], n)
    ensures Settled(run[j], n)
  {
    if i < j {
      SettledForGood(run, actions, i, j - 1, n);
      assert StepAt(run, actions, j - 1);
      SettledStays(run[j - 1], actions[j - 1], n);
    }
  }

  /** A user who moves to another task while a hand-over waits for its successor keeps that conversation open
      for good. */
  lemma MovingKeepsTheConversation(run: seq<State>, actions: seq<Action>, i: nat, j: nat, task: Task)
    requires IsRun(run, actions) && i < |actions| && i < j < |run|
    requires actions[i].Move? && actions[i].run.task != task
    requires task in run[i].page.offers && run[i].page.offers[task].known.Some?
    ensures forall k :: 0 <= k < |run[j].page.stops| ==> run[j].page.stops[k].launch != run[i].page.offers[task].launch
  {
    RunInv(run, actions, i);
    assert StepAt(run, actions, i);
    var n := run[i].page.offers[task].launch;
    assert OfferOK(run[i], task);
    var after := run[i + 1].page.offers;
    forall t | t in after ensures after[t].launch != n {
      assert OfferOK(run[i], t);
    }
    assert Settled(run[i + 1], n);
    SettledForGood(run, actions, i + 1, j, n);
  }

  // ---- a move too early ----

  const A1 := Run("a1", "A")
  const B1 := Run("b1", "B")
  const A2 := Run("a2", "A")

  function Early(selected: Id, offers: map<Task, Offer>, launch: Launch): State {
    State(Page([A1, B1], Some(selected), {"A"}, map[], offers, []), [launch])
  }

  function Late(runs: seq<Run>, selected: Id, offers: map<Task, Offer>, stops: seq<Stop>): State {
    State(Page(runs, Some(selected), {"A"}, map["A" := ["a1"]], offers, stops),
          [Refreshing("A", Some("a1"), [A1, B1], true)])
  }

  function EarlyStates(): seq<State> {
    var asked, waits := map["A" := Offer(0, "a1", None)], map["A" := Offer(0, "a1", Some(["a1"]))];
    [INIT,
     State(Page([A1, B1], None, {}, map[], map[], []), []),
     State(Page([A1, B1], Some("a1"), {}, map[], map[], []), []),
     Early("a1", asked, Reading("A", Some("a1"))),
     Early("a1", asked, Sent("A", Some("a1"), [A1, B1])),
     Early("b1", asked, Sent("A", Some("a1"), [A1, B1])),
     Late([A1, B1], "b1", waits, []),
     Late([A1, B1], "a1", waits, []),
     Late([A1, B1, A2], "a1", waits, []),
     Late([A1, B1, A2], "a2", map[], [Stop(0, "a1", "A", "a2")])]
  }

  const EARLY_ACTIONS: seq<Action> :=
    [Poll([A1, B1]), Move(A1), Start(true), ReadHolds(0, [A1, B1]), Move(B1), Accepted(0), Move(A1),
     Poll([A1, B1, A2]), PollEnds(None, ["A"], true)]

  lemma EarlyStart()
    ensures StepAt(EarlyStates(), EARLY_ACTIONS, 0) && StepAt(EarlyStates(), EARLY_ACTIONS, 1)
             && StepAt(EarlyStates(), EARLY_ACTIONS, 2)
  {
  }

  lemma EarlyMiddle()
    ensures StepAt(EarlyStates(), EARLY_ACTIONS, 3) && StepAt(EarlyStates(), EARLY_ACTIONS, 4)
  {
  }

  lemma EarlyAccepted()
    ensures StepAt(EarlyStates(), EARLY_ACTIONS, 5)
  {
    assert [A1, B1][1..] == [B1] && [B1][1..] == [];
    assert IdsOf([B1], "A") == [];
    assert IdsOf([A1, B1], "A") == ["a1"];
  }

  lemma EarlyBack()
    ensures StepAt(EarlyStates(), EARLY_ACTIONS, 6) && StepAt(EarlyStates(), EARLY_ACTIONS, 7)
  {
  }

  lemma EarlyEnd()
    ensures StepAt(EarlyStates(), EARLY_ACTIONS, 8)
  {
    var p := EarlyStates()[8].page;
    assert [A1, B1, A2][1..] == [B1, A2] && [B1, A2][1..] == [A2];
    assert ["a1"][0] == A1.id && Successor([A2], "A", ["a1"]) == Some(A2)
        && Successor([B1, A2], "A", ["a1"]) == Some(A2);
    assert Successor(p.runs, "A", ["a1"]) == Some(A2) && Find(p.runs, "a1") == Some(A1);
    assert ["A"][..0] == [];
    assert HandAll(p, ["A"], true) == HandOne(p, "A", true);
    assert p.offers - {"A"} == map[];
  }

  /** A move while the launch is still being submitted is not enough: the user who comes back sees the
      conversation closed all the same. */
  lemma MovingTooEarly()
    ensures IsRun(EarlyStates(), EARLY_ACTIONS) && EARLY_ACTIONS[4] == Move(B1) && EARLY_ACTIONS[6] == Move(A1)
    ensures EarlyStates()[9].page.stops == [Stop(0, "a1", "A", "a2")]
  {
    EarlyStart();
    EarlyMiddle();
    EarlyAccepted();
    EarlyBack();
    EarlyEnd();
  }
}
