/** The worktree that carries a branch, read from what git prints
    (internal/agent/agent_config.go, worktreeForBranch). */
module WorktreeList {
  import opened Basics
  import opened Output

  datatype Head = Branch(name: string) | Detached | BareCheckout

  /** One worktree as git lists it. notes are its other lines: locked, prunable. */
  datatype Worktree = Worktree(path: string, head: Head, commit: string, notes: seq<string>)

  predicate EndsSolid(s: string) {
    s != "" && !IsSpace(s[|s| - 1])
  }

  /** A line the porcelain format can carry: it is one line. */
  predicate NoteOK(note: string) {
    OneFrame(note) && EndsSolid(note) && note[0] != 'w' && note[0] != 'b'
  }

  predicate WorktreeOK(w: Worktree) {
    && w.path != "" && OneFrame(w.path) && w.path[|w.path| - 1] != '\r'
    && OneFrame(w.commit) && EndsSolid(w.commit)
    && (w.head.Branch? ==> OneFrame(w.head.name) && EndsSolid(w.head.name))
    && forall i :: 0 <= i < |w.notes| ==> NoteOK(w.notes[i])
  }

  predicate AllOK(list: seq<Worktree>) {
    forall i :: 0 <= i < |list| ==> WorktreeOK(list[i])
  }

  // ---- what git prints ----

  function HeadLines(w: Worktree): seq<string> {
    match w.head
    case Branch(name) => ["HEAD " + w.commit, "branch refs/heads/" + name]
    case Detached => ["HEAD " + w.commit, "detached"]
    case BareCheckout => ["bare"]
  }

  function RecordLines(w: Worktree): seq<string> {
    ["worktree " + w.path] + HeadLines(w) + w.notes
  }

  /** The records, each followed by an empty line. */
  function ListLines(list: seq<Worktree>): seq<string> {
    if list == [] then [] else ListLines(list[..|list| - 1]) + (RecordLines(list[|list| - 1]) + [""])
  }

  function Printed(list: seq<Worktree>): string {
    Unsplit(ListLines(list), "")
  }

  // ---- what is read back ----

  const WORKTREE_PREFIX := "worktree "
  const BRANCH_PREFIX := "branch refs/heads/"

  predicate HasPrefix(s: string, prefix: string) {
    prefix <= s
  }

  /** strings.TrimRight(line, "\r") */
  function TrimCRs(s: string): string {
    if s != "" && s[|s| - 1] == '\r' then TrimCRs(s[..|s| - 1]) else s
  }

  /** What a line makes of the search: the path read so far, or the answer. */
  datatype Search = Looking(path: string) | Found(path: string)

  function ReadLine(s: Search, raw: string, branch: string): Search {
    var line := TrimCRs(raw);
    if s.Found? then s
    else if HasPrefix(line, WORKTREE_PREFIX) then Looking(line[|WORKTREE_PREFIX|..])
    else if HasPrefix(line, BRANCH_PREFIX) then
      if s.path != "" && line[|BRANCH_PREFIX|..] == branch then Found(s.path) else s
    else if line == "" then Looking("")
    else s
  }

  function ReadLines(s: Search, lines: seq<string>, branch: string): Search {
    if lines == [] then s else ReadLine(ReadLines(s, lines[..|lines| - 1], branch), lines[|lines| - 1], branch)
  }

  /** strings.Split(out, "\n") */
  function SplitLines(out: string): seq<string> {
    Ended(out) + [Open(out)]
  }

  /** The first worktree listed that has the branch checked out, or "". */
  function Carrying(list: seq<Worktree>, branch: string): string {
    if list == [] then ""
    else
      var before := Carrying(list[..|list| - 1], branch);
      if before != "" then before else if list[|list| - 1].head == Branch(branch) then list[|list| - 1].path else ""
  }

  /** The worktree at i is the first listed with the branch. */
  ghost predicate FirstWith(list: seq<Worktree>, branch: string, i: nat) {
    && i < |list| && list[i].head == Branch(branch)
    && forall j :: 0 <= j < i ==> list[j].head != Branch(branch)
  }

  lemma {:induction false} CarryingFirst(list: seq<Worktree>, branch: string, i: nat)
    requires AllOK(list) && FirstWith(list, branch, i)
    ensures Carrying(list, branch) == list[i].path
  {
    var init := list[..|list| - 1];
    if i < |init| {
      CarryingFirst(init, branch, i);
    } else {
      CarryingNone(init, branch);
    }
  }

  lemma {:induction false} CarryingNone(list: seq<Worktree>, branch: string)
    requires AllOK(list)
    ensures Carrying(list, branch) == "" <==> forall i :: 0 <= i < |list| ==> list[i].head != Branch(branch)
  {
    if list != [] {
      CarryingNone(list[..|list| - 1], branch);
      assert list == list[..|list| - 1] + [list[|list| - 1]];
    }
  }

  /** However many carriage returns a line ends in, all of them are taken, and nothing else is. */
  lemma TrimCRsTakesAll(s: string)
    ensures TrimCRs(s + "\r") == TrimCRs(s)
    ensures s == "" || s[|s| - 1] != '\r' ==> TrimCRs(s) == s
  {
    assert (s + "\r")[..|s|] == s;
  }

  predicate Answers(s: Search, path: string) {
    if path != "" then s == Found(path) else s.Looking?
  }

  /** worktreeForBranch on the output of git: it finds the first worktree printed with exactly that branch. */
  method WorktreeForBranch(out: string, branch: string) returns (found: string)
    ensures forall list :: AllOK(list) && out == TrimSpace(Printed(list)) ==> found == Carrying(list, branch)
  {
    forall list | AllOK(list) && out == TrimSpace(Printed(list))
      ensures Answers(ReadLines(Looking(""), SplitLines(out), branch), Carrying(list, branch))
    {
      ReadsPrinted(list, branch);
    }
    var lines := SplitLines(out);
    var path := "";
    for i := 0 to |lines|
      invariant ReadLines(Looking(""), lines[..i], branch) == Looking(path)
    {
      assert lines[..i + 1][..i] == lines[..i];
      var line := TrimCRs(lines[i]);
      if HasPrefix(line, WORKTREE_PREFIX) {
        path := line[|WORKTREE_PREFIX|..];
      } else if HasPrefix(line, BRANCH_PREFIX) {
        if path != "" && line[|BRANCH_PREFIX|..] == branch {
          FoundStays(Looking(""), lines[..i + 1], lines[i + 1..], branch);
          assert lines[..i + 1] + lines[i + 1..] == lines;
          return path;
        }
      } else if line == "" {
        path := "";
      }
    }
    assert lines[..|lines|] == lines;
    return "";
  }

  lemma {:induction false} ReadMore(s: Search, a: seq<string>, b: seq<string>, branch: string)
    ensures ReadLines(s, a + b, branch) == ReadLines(ReadLines(s, a, branch), b, branch)
  {
    if b == [] {
      assert a + b == a;
    } else {
      ReadMore(s, a, b[..|b| - 1], branch);
      assert (a + b)[..|a + b| - 1] == a + b[..|b| - 1];
    }
  }

  lemma {:induction false} FoundStays(s: Search, a: seq<string>, b: seq<string>, branch: string)
    requires ReadLines(s, a, branch).Found?
    ensures ReadLines(s, a + b, branch) == ReadLines(s, a, branch)
  {
    if b == [] {
      assert a + b == a;
    } else {
      FoundStays(s, a, b[..|b| - 1], branch);
      assert (a + b)[..|a + b| - 1] == a + b[..|b| - 1];
    }
  }

  // ---- one record ----

  lemma ReadTwo(s: Search, x: string, y: string, branch: string)
    ensures ReadLines(s, [x, y], branch) == ReadLine(ReadLine(s, x, branch), y, branch)
  {
    ReadMore(s, [x], [y], branch);
    assert [x] + [y] == [x, y];
  }

  lemma ReadHead(w: Worktree, branch: string)
    requires WorktreeOK(w)
    ensures ReadLines(Looking(w.path), HeadLines(w), branch)
         == if w.head == Branch(branch) then Found(w.path) else Looking(w.path)
  {
    var s := Looking(w.path);
    var commit := "HEAD " + w.commit;
    assert commit[0] == 'H' && commit[|commit| - 1] == w.commit[|w.commit| - 1];
    match w.head
    case Branch(name) =>
      var line := "branch refs/heads/" + name;
      assert line[|line| - 1] == name[|name| - 1];
      assert line[|BRANCH_PREFIX|..] == name;
      ReadTwo(s, commit, line, branch);
    case Detached =>
      ReadTwo(s, commit, "detached", branch);
    case BareCheckout =>
  }

  lemma {:induction false} ReadNotes(s: Search, notes: seq<string>, branch: string)
    requires forall i :: 0 <= i < |notes| ==> NoteOK(notes[i])
    ensures ReadLines(s, notes, branch) == s
  {
    if notes != [] {
      var line := notes[|notes| - 1];
      ReadNotes(s, notes[..|notes| - 1], branch);
    }
  }

  lemma ReadRecord(w: Worktree, s: Search, branch: string)
    requires WorktreeOK(w) && s.Looking?
    ensures ReadLines(s, RecordLines(w), branch) == if w.head == Branch(branch) then Found(w.path) else Looking(w.path)
  {
    var first := ["worktree " + w.path];
    ReadMore(s, first + HeadLines(w), w.notes, branch);
    ReadMore(s, first, HeadLines(w), branch);
    ReadHead(w, branch);
    ReadNotes(ReadLines(Looking(w.path), HeadLines(w), branch), w.notes, branch);
  }

  // ---- the whole list ----

  lemma {:induction false} ReadList(list: seq<Worktree>, branch: string)
    requires AllOK(list)
    ensures ReadLines(Looking(""), ListLines(list), branch)
         == if Carrying(list, branch) != "" then Found(Carrying(list, branch)) else Looking("")
  {
    if list != [] {
      var init, last := list[..|list| - 1], list[|list| - 1];
      ReadList(init, branch);
      var s := ReadLines(Looking(""), ListLines(init), branch);
      ReadMore(Looking(""), ListLines(init), RecordLines(last) + [""], branch);
      ReadMore(s, RecordLines(last), [""], branch);
      if s.Found? {
        FoundStays(s, [], RecordLines(last), branch);
        assert [] + RecordLines(last) == RecordLines(last);
      } else {
        ReadRecord(last, s, branch);
      }
    }
  }

  // ---- the text ----

  lemma {:induction false} UnsplitStart(frames: seq<string>, open: string)
    requires frames != [] && frames[0] != ""
    ensures Unsplit(frames, open) != "" && Unsplit(frames, open)[0] == frames[0][0]
  {
    if |frames| > 1 {
      UnsplitStart(frames[..|frames| - 1], frames[|frames| - 1] + "\n" + open);
    } else {
      assert Unsplit(frames[..0], frames[0] + "\n" + open) == frames[0] + "\n" + open;
    }
  }

  lemma {:induction false} UnsplitEnd(frames: seq<string>, open: string)
    requires open != ""
    ensures var t := Unsplit(frames, open); t != "" && t[|t| - 1] == open[|open| - 1]
  {
    if frames != [] {
      UnsplitEnd(frames[..|frames| - 1], frames[|frames| - 1] + "\n" + open);
    }
  }

  lemma TrimLineEnds(s: string)
    requires s != "" && !IsSpace(s[0]) && EndsSolid(s)
    ensures TrimSpace(s + "\n" + "\n") == s
  {
    var t := s + "\n" + "\n";
    assert TrimLeft(t) == t;
    assert t[..|t| - 1] == s + "\n" && (s + "\n")[..|s|] == s;
    assert TrimRight(s) == s;
    assert TrimRight(s + "\n") == s;
  }

  lemma RecordEndsSolid(w: Worktree)
    requires WorktreeOK(w)
    ensures |RecordLines(w)| >= 2 && EndsSolid(RecordLines(w)[|RecordLines(w)| - 1])
    ensures forall i :: 0 <= i < |RecordLines(w)| ==> OneFrame(RecordLines(w)[i])
    ensures RecordLines(w)[0] != "" && RecordLines(w)[0][0] == 'w'
  {
    var lines := RecordLines(w);
    if w.notes != [] {
      assert lines[|lines| - 1] == w.notes[|w.notes| - 1];
    } else {
      assert lines[|lines| - 1] == HeadLines(w)[|HeadLines(w)| - 1];
    }
  }

  lemma {:induction false} ListIsLines(list: seq<Worktree>)
    requires AllOK(list)
    ensures forall i :: 0 <= i < |ListLines(list)| ==> OneFrame(ListLines(list)[i])
    ensures list != [] ==> ListLines(list) != [] && ListLines(list)[0] != "" && ListLines(list)[0][0] == 'w'
  {
    if list != [] {
      ListIsLines(list[..|list| - 1]);
      RecordEndsSolid(list[|list| - 1]);
    }
  }

  /** The lines that trimming leaves: all but the empty line after the last record. */
  function BodyLines(list: seq<Worktree>): seq<string>
    requires list != []
  {
    ListLines(list[..|list| - 1]) + RecordLines(list[|list| - 1])
  }

  lemma TwoBodies(a: seq<string>, b: seq<string>)
    requires |b| >= 2 && EndsSolid(b[|b| - 1]) && b[0] != "" && b[0][0] == 'w'
    requires a != [] ==> a[0] != "" && a[0][0] == 'w'
    requires (forall i :: 0 <= i < |a| ==> OneFrame(a[i])) && forall i :: 0 <= i < |b| ==> OneFrame(b[i])
    ensures |a + b| >= 2 && forall i :: 0 <= i < |a + b| ==> OneFrame((a + b)[i])
    ensures (a + b)[0] != "" && (a + b)[0][0] == 'w' && EndsSolid((a + b)[|a + b| - 1])
    ensures a + (b + [""]) == a + b + [""]
  {
    assert (a + b)[|a + b| - 1] == b[|b| - 1];
  }

  lemma BodyShape(list: seq<Worktree>)
    requires AllOK(list) && list != []
    ensures ListLines(list) == BodyLines(list) + [""] && |BodyLines(list)| >= 2
    ensures forall i :: 0 <= i < |BodyLines(list)| ==> OneFrame(BodyLines(list)[i])
    ensures BodyLines(list)[0] != "" && BodyLines(list)[0][0] == 'w'
             && EndsSolid(BodyLines(list)[|BodyLines(list)| - 1])
  {
    ListIsLines(list[..|list| - 1]);
    RecordEndsSolid(list[|list| - 1]);
    TwoBodies(ListLines(list[..|list| - 1]), RecordLines(list[|list| - 1]));
  }

  lemma TextOfLines(init: seq<string>, last: string)
    ensures Unsplit(init + [last] + [""], "") == Unsplit(init, last) + "\n" + "\n"
  {
    var lines := init + [last];
    assert (lines + [""])[..|lines|] == lines && lines[..|init|] == init;
    assert "" + "\n" + "" == "\n";
    UnsplitAppend(init, last, "\n");
    UnsplitAppend(init, last + "\n", "\n");
  }

  lemma TrimmedLines(init: seq<string>, last: string)
    requires init != [] && init[0] != "" && !IsSpace(init[0][0]) && EndsSolid(last)
    requires OneFrame(last) && forall f :: f in init ==> OneFrame(f)
    ensures SplitLines(TrimSpace(Unsplit(init + [last] + [""], ""))) == init + [last]
  {
    TextOfLines(init, last);
    UnsplitStart(init, last);
    UnsplitEnd(init, last);
    TrimLineEnds(Unsplit(init, last));
    SplitUnique(init, last);
  }

  lemma PrintedText(list: seq<Worktree>)
    requires AllOK(list) && list != []
    ensures SplitLines(TrimSpace(Printed(list))) == BodyLines(list)
  {
    BodyShape(list);
    var lines := BodyLines(list);
    assert lines == lines[..|lines| - 1] + [lines[|lines| - 1]];
    TrimmedLines(lines[..|lines| - 1], lines[|lines| - 1]);
  }

  /** Reading back what git printed answers with the first worktree that carries the branch. */
  lemma ReadsPrinted(list: seq<Worktree>, branch: string)
    requires AllOK(list)
    ensures Answers(ReadLines(Looking(""), SplitLines(TrimSpace(Printed(list))), branch), Carrying(list, branch))
  {
    if list == [] {
      assert SplitLines("") == [""];
    } else {
      PrintedText(list);
      BodyShape(list);
      ReadList(list, branch);
      ReadMore(Looking(""), BodyLines(list), [""], branch);
    }
  }
}
