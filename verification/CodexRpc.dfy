/** Calls to the Codex app-server and their replies (internal/agent/agent_codex_conversation.go, codexRPC):
    the pending table, and every interleaving of its callers with the one reader of the server's output. */
module CodexRpc {
  import opened Basics

  // ---- the id of a call ----

  function Digit(d: nat): char
    requires d < 10
  {
    '0' + d as char
  }

  function Decimal(n: nat): string {
    if n < 10 then [Digit(n)] else Decimal(n / 10) + [Digit(n % 10)]
  }

  function Value(s: string): nat
    requires forall i :: 0 <= i < |s| ==> '0' <= s[i] <= '9'
  {
    if s == "" then 0 else Value(s[..|s| - 1]) * 10 + (s[|s| - 1] as nat - '0' as nat)
  }

  lemma {:induction false} DecimalValue(n: nat)
    ensures forall i :: 0 <= i < |Decimal(n)| ==> '0' <= Decimal(n)[i] <= '9'
    ensures Value(Decimal(n)) == n
  {
    if n < 10 {
      assert Decimal(n)[..0] == "";
    } else {
      DecimalValue(n / 10);
      assert Decimal(n)[..|Decimal(n)| - 1] == Decimal(n / 10);
    }
  }

  const KEY_START := "\"sectile-"

  /** The id of the n-th call, as JSON. */
  function Key(n: nat): string {
    KEY_START + Decimal(n) + "\""
  }

  lemma KeyDigits(n: nat)
    ensures Key(n)[|KEY_START|..|Key(n)| - 1] == Decimal(n)
  {
  }

  lemma KeysDiffer(m: nat, n: nat)
    requires Key(m) == Key(n)
    ensures m == n
  {
    KeyDigits(m);
    KeyDigits(n);
    DecimalValue(m);
    DecimalValue(n);
  }

  // ---- the table ----

  /** pending maps the id of a call to its reply channel, named by the number of its call. */
  datatype Table = Table(sequence: nat, pending: map<string, nat>)

  function Registered(t: Table): Table {
    Table(t.sequence + 1, t.pending[Key(t.sequence + 1) := t.sequence + 1])
  }

  function Forgotten(t: Table, key: string): Table {
    t.(pending := t.pending - {key})
  }

  class CodexRPC {
    var sequence: nat
    var pending: map<string, nat>

    function View(): Table
      reads this
    {
      Table(sequence, pending)
    }

    constructor ()
      ensures View() == Table(0, map[])
    {
      sequence, pending := 0, map[];
    }

    /** The start of call, under the lock. */
    method Register() returns (n: nat)
      modifies this
      ensures View() == Registered(old(View())) && n == sequence
    {
      sequence := sequence + 1;
      n := sequence;
      pending := pending[Key(n) := n];
    }

    /** The end of call, whatever it returns. */
    method Forget(n: nat)
      modifies this
      ensures View() == Forgotten(old(View()), Key(n))
    {
      pending := pending - {Key(n)};
    }

    /** The lookup of read, under the lock. */
    method Take(key: string) returns (reply: Option<nat>)
      modifies this
      ensures View() == Forgotten(old(View()), key)
      ensures reply == if key in old(pending) then Some(old(pending)[key]) else None
    {
      reply := if key in pending then Some(pending[key]) else None;
      pending := pending - {key};
    }
  }

  // ---- callers and reader ----

  /** Where a call is. reply is the place, among the frames read, of the reply it received. */
  datatype Call = Sending | Waiting | Leaving(reply: Option<nat>) | Done(reply: Option<nat>)

  datatype Handing = Handing(call: nat, frame: nat)

  /** chans holds what the reply channel of each call contains; read, the ids of the replies read so far;
      since, how many had been read when a call began. */
  datatype State = State(table: Table, calls: map<nat, Call>, chans: map<nat, seq<nat>>, reader: Option<Handing>,
                         read: seq<string>, since: map<nat, nat>)

  const INIT := State(Table(0, map[]), map[], map[], None, [], map[])

  datatype Action =
    | Begin
    | SendWorks(n: nat)
    | SendFails(n: nat)
    | Receive(n: nat)
    | GiveUp(n: nat)
    | Leave(n: nat)
    | Read(key: string)
    | Hand

  predicate IsAt(s: State, n: nat, call: Call) {
    n in s.calls && s.calls[n] == call
  }

  predicate Enabled(s: State, a: Action) {
    match a
    case Begin => true
    case SendWorks(n) => IsAt(s, n, Sending)
    case SendFails(n) => IsAt(s, n, Sending)
    case Receive(n) => IsAt(s, n, Waiting) && n in s.chans && s.chans[n] != []
    case GiveUp(n) => IsAt(s, n, Waiting)
    case Leave(n) => n in s.calls && s.calls[n].Leaving?
    case Read(key) => s.reader.None?
    // A channel holds one frame: handing over a second would block.
    case Hand => s.reader.Some? && s.reader.value.call in s.chans && s.chans[s.reader.value.call] == []
  }

  function AfterBegin(s: State): State {
    var n := s.table.sequence + 1;
    s.(table := Registered(s.table), calls := s.calls[n := Sending], chans := s.chans[n := []],
       since := s.since[n := |s.read|])
  }

  function AfterReceive(s: State, n: nat): State
    requires Enabled(s, Receive(n))
  {
    s.(calls := s.calls[n := Leaving(Some(s.chans[n][0]))], chans := s.chans[n := s.chans[n][1..]])
  }

  function AfterRead(s: State, key: string): State {
    s.(table := Forgotten(s.table, key), read := s.read + [key],
       reader := if key in s.table.pending then Some(Handing(s.table.pending[key], |s.read|)) else None)
  }

  function AfterHand(s: State): State
    requires Enabled(s, Hand)
  {
    var h := s.reader.value;
    s.(reader := None, chans := s.chans[h.call := s.chans[h.call] + [h.frame]])
  }

  function AfterLeave(s: State, n: nat): State
    requires Enabled(s, Leave(n))
  {
    s.(table := Forgotten(s.table, Key(n)), calls := s.calls[n := Done(s.calls[n].reply)])
  }

  function After(s: State, a: Action): State
    requires Enabled(s, a)
  {
    match a
    case Begin => AfterBegin(s)
    case SendWorks(n) => s.(calls := s.calls[n := Waiting])
    case SendFails(n) => s.(calls := s.calls[n := Leaving(None)])
    case Receive(n) => AfterReceive(s, n)
    case GiveUp(n) => s.(calls := s.calls[n := Leaving(None)])
    case Leave(n) => AfterLeave(s, n)
    case Read(key) => AfterRead(s, key)
    case Hand => AfterHand(s)
  }

  // ---- the invariant ----

  /** frame is the first reply bearing this id that was read after from. */
  ghost predicate IsFirst(read: seq<string>, from: nat, key: string, frame: nat) {
    from <= frame < |read| && read[frame] == key && forall j :: from <= j < frame ==> read[j] != key
  }

  ghost predicate NoneRead(read: seq<string>, from: nat, key: string) {
    from <= |read| && forall j :: from <= j < |read| ==> read[j] != key
  }

  predicate HandingTo(s: State, n: nat) {
    s.reader.Some? && s.reader.value.call == n
  }

  predicate Replied(c: Call) {
    (c.Leaving? || c.Done?) && c.reply.Some?
  }

  /** A call is in the table until its reply is read or it leaves, and from then on only that reply, the
      first with its id, is on its way to it or received. */
  ghost predicate CallOK(s: State, n: nat)
    requires n in s.calls && n in s.chans && n in s.since
  {
    var key, c := Key(n), s.calls[n];
    && s.since[n] <= |s.read| && |s.chans[n]| <= 1
    && (key in s.table.pending ==>
          !c.Done? && NoneRead(s.read, s.since[n], key) && s.chans[n] == [] && !HandingTo(s, n) && !Replied(c))
    && (s.chans[n] != [] ==> IsFirst(s.read, s.since[n], key, s.chans[n][0]) && !HandingTo(s, n) && !Replied(c))
    && (HandingTo(s, n) ==> IsFirst(s.read, s.since[n], key, s.reader.value.frame) && !Replied(c))
    && (Replied(c) ==> IsFirst(s.read, s.since[n], key, c.reply.value))
    && (c.Sending? || c.Waiting? ==> key in s.table.pending || s.chans[n] != [] || HandingTo(s, n))
  }

  ghost predicate Tracked(s: State, n: nat) {
    && (n in s.calls <==> 1 <= n <= s.table.sequence)
    && (n in s.chans <==> n in s.calls)
    && (n in s.since <==> n in s.calls)
    && (n in s.calls ==> CallOK(s, n))
  }

  /** Each id in the table is that of the call it leads to. */
  ghost predicate TableOK(s: State) {
    && (forall key :: key in s.table.pending ==> s.table.pending[key] in s.calls && key == Key(s.table.pending[key]))
    && (s.reader.Some? ==> s.reader.value.call in s.calls)
  }

  ghost predicate Inv(s: State) {
    TableOK(s) && forall n: nat :: Tracked(s, n)
  }

  lemma BeginTracks(s: State, n: nat)
    requires Inv(s)
    ensures Tracked(AfterBegin(s), n) && TableOK(AfterBegin(s))
  {
    var added := s.table.sequence + 1;
    assert Tracked(s, n) && Tracked(s, added);
    if n != added && Key(n) == Key(added) {
      KeysDiffer(n, added);
    }
    if Key(added) in s.table.pending {
      KeysDiffer(added, s.table.pending[Key(added)]);
    }
  }

  lemma SendTracks(s: State, a: Action, n: nat)
    requires Inv(s) && Enabled(s, a) && (a.SendWorks? || a.SendFails? || a.GiveUp?)
    ensures Tracked(After(s, a), n) && TableOK(After(s, a))
  {
    assert Tracked(s, n) && Tracked(s, a.n);
  }

  lemma ReceiveTracks(s: State, m: nat, n: nat)
    requires Inv(s) && Enabled(s, Receive(m))
    ensures Tracked(AfterReceive(s, m), n) && TableOK(AfterReceive(s, m))
  {
    assert Tracked(s, n) && Tracked(s, m);
  }

  lemma LeaveTracks(s: State, m: nat, n: nat)
    requires Inv(s) && Enabled(s, Leave(m))
    ensures Tracked(AfterLeave(s, m), n) && TableOK(AfterLeave(s, m))
  {
    assert Tracked(s, n) && Tracked(s, m);
    if m != n && Key(m) == Key(n) {
      KeysDiffer(m, n);
    }
  }

  lemma ReadTracks(s: State, key: string, n: nat)
    requires Inv(s) && Enabled(s, Read(key))
    ensures Tracked(AfterRead(s, key), n)
  {
    assert Tracked(s, n);
    var t := AfterRead(s, key);
    if key in s.table.pending && s.table.pending[key] != n && Key(n) == key {
      KeysDiffer(n, s.table.pending[key]);
    }
  }

  lemma HandTracks(s: State, n: nat)
    requires Inv(s) && Enabled(s, Hand)
    ensures Tracked(AfterHand(s), n) && TableOK(AfterHand(s))
  {
    assert Tracked(s, n) && Tracked(s, s.reader.value.call);
  }

  lemma InvPreserved(s: State, a: Action)
    requires Inv(s) && Enabled(s, a)
    ensures Inv(After(s, a))
  {
    var t := After(s, a);
    forall n: nat ensures Tracked(t, n) && TableOK(t) {
      match a
      case Begin => BeginTracks(s, n);
      case Receive(m) => ReceiveTracks(s, m, n);
      case Leave(m) => LeaveTracks(s, m, n);
      case Read(key) => ReadTracks(s, key, n);
      case Hand => HandTracks(s, n);
      case _ => SendTracks(s, a, n);
    }
    assert Tracked(t, 0);
  }

  // ---- runs ----

  ghost predicate StepAt(run: seq<State>, actions: seq<Action>, i: nat)
    requires |run| == |actions| + 1 && i < |actions|
  {
    Enabled(run[i], actions[i]) && run[i + 1] == After(run[i], actions[i])
  }

  ghost predicate IsRun(run: seq<State>, actions: seq<Action>) {
    && |run| == |actions| + 1
    && run[0] == INIT
    && forall i :: 0 <= i < |actions| ==> StepAt(run, actions, i)
  }

  lemma {:induction false} RunInv(run: seq<State>, actions: seq<Action>, i: nat)
    requires IsRun(run, actions) && i < |run|
    ensures Inv(run[i])
  {
    if i > 0 {
      RunInv(run, actions, i - 1);
      assert StepAt(run, actions, i - 1);
      InvPreserved(run[i - 1], actions[i - 1]);
    }
  }

  /** Whatever the interleaving, a call receives only a reply bearing its own id: the first one read since
      it began. */
  lemma OnlyOwnReply(run: seq<State>, actions: seq<Action>, i: nat, n: nat)
    requires IsRun(run, actions) && i < |run|
    requires n in run[i].calls && Replied(run[i].calls[n])
    ensures n in run[i].since && IsFirst(run[i].read, run[i].since[n], Key(n), run[i].calls[n].reply.value)
  {
    RunInv(run, actions, i);
    assert Tracked(run[i], n);
  }

  /** A reply goes to one call at most. */
  lemma OneCallEach(run: seq<State>, actions: seq<Action>, i: nat, m: nat, n: nat)
    requires IsRun(run, actions) && i < |run|
    requires m in run[i].calls && n in run[i].calls && Replied(run[i].calls[m]) && Replied(run[i].calls[n])
    requires run[i].calls[m].reply == run[i].calls[n].reply
    ensures m == n
  {
    OnlyOwnReply(run, actions, i, m);
    OnlyOwnReply(run, actions, i, n);
    KeysDiffer(m, n);
  }

  /** The table holds only calls in flight; a call that has returned is not in it. */
  lemma OnlyCallsInFlight(run: seq<State>, actions: seq<Action>, i: nat, key: string)
    requires IsRun(run, actions) && i < |run| && key in run[i].table.pending
    ensures var n := run[i].table.pending[key]; key == Key(n) && n in run[i].calls && !run[i].calls[n].Done?
  {
    RunInv(run, actions, i);
    assert Tracked(run[i], run[i].table.pending[key]);
  }

  /** The reader never waits: whatever it has looked up, its channel is empty. */
  lemma ReaderNeverBlocks(run: seq<State>, actions: seq<Action>, i: nat)
    requires IsRun(run, actions) && i < |run| && run[i].reader.Some?
    ensures Enabled(run[i], Hand)
  {
    RunInv(run, actions, i);
    assert Tracked(run[i], run[i].reader.value.call);
  }

  /** No reply is lost: a call that still waits when its reply has been read has it in its channel, or is
      being handed it. */
  lemma NoReplyLost(run: seq<State>, actions: seq<Action>, i: nat, n: nat, frame: nat)
    requires IsRun(run, actions) && i < |run|
    requires IsAt(run[i], n, Waiting) && n in run[i].since && run[i].since[n] <= frame < |run[i].read|
             && run[i].read[frame] == Key(n)
    ensures Enabled(run[i], Receive(n)) || (Enabled(run[i], Hand) && HandingTo(run[i], n))
  {
    RunInv(run, actions, i);
    assert Tracked(run[i], n);
  }
}
