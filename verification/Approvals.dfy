/** What an approval carries, which answers are accepted, and what goes back on the wire:
    internal/agent/agent_conversation_approvals.go and the approval part of
    internal/agent/agent_codex_conversation.go. */
module Approvals {
  import opened Basics

  const ASK_USER_QUESTION := "AskUserQuestion"
  const ANSWERS_LIMIT: nat := 16 * 1024
  const OWNER_DECISIONS := {"allow", "always", "deny", "answer"}

  /** The part of a pending tool call its decision depends on. questionIds maps a question's text
      to the key Codex reads its answer under; wire maps an offered decision to Codex's own word. */
  datatype ToolCall = ToolCall(
    tool: string, questions: seq<string>, questionIds: map<string, string>,
    choices: seq<string>, wire: map<string, string>, permissions: bool)

  // ---- checkAnswers ----

  datatype AnswerCheck = Fine | OnlyWithAnswer | OnlyAQuestion | NoSuchQuestion | Incomplete

  function Asked(questions: seq<string>): set<string> {
    set q | q in questions
  }

  /** The bytes the questions and the answers weigh together. */
  ghost function Weight(answers: map<string, string>): nat {
    if answers == map[] then 0 else
      var q :| q in answers;
      |q| + |answers[q]| + Weight(answers - {q})
  }

  lemma {:induction false} WeightWithout(answers: map<string, string>, q: string)
    requires q in answers
    ensures Weight(answers) == |q| + |answers[q]| + Weight(answers - {q})
    decreases |answers|
  {
    var p :| p in answers && Weight(answers) == |p| + |answers[p]| + Weight(answers - {p});
    if p != q {
      assert |answers - {p}| < |answers| by { FewerKeys(answers, p); }
      assert |answers - {q}| < |answers| by { FewerKeys(answers, q); }
      WeightWithout(answers - {p}, q);
      WeightWithout(answers - {q}, p);
      assert answers - {p} - {q} == answers - {q} - {p};
    }
  }

  lemma FewerKeys(answers: map<string, string>, q: string)
    requires q in answers
    ensures |answers - {q}| < |answers|
  {
    assert (answers - {q}).Keys == answers.Keys - {q};
    assert |answers.Keys - {q}| == |answers.Keys| - 1;
  }

  /** One non-blank answer per question asked, no other, within the size bound. */
  ghost predicate AnswersAccepted(call: ToolCall, decision: string, answers: map<string, string>) {
    if decision != "answer" then answers == map[]
    else
      && call.tool == ASK_USER_QUESTION
      && answers.Keys == Asked(call.questions)
      && (forall q :: q in answers ==> !Blank(answers[q]))
      && Weight(answers) <= ANSWERS_LIMIT
  }

  /** An answer to a question that was not asked, or one that says nothing. */
  ghost predicate Stray(questions: set<string>, answers: map<string, string>) {
    exists q :: q in answers && (q !in questions || Blank(answers[q]))
  }

  /** The walk over the answers: it stops on a stray one, else it has weighed them all. */
  method WeighAnswers(asked: set<string>, answers: map<string, string>) returns (stray: bool, size: nat)
    ensures stray <==> Stray(asked, answers)
    ensures !stray ==> size == Weight(answers)
  {
    size := 0;
    var left := answers;
    while left != map[]
      invariant left.Keys <= answers.Keys && forall q :: q in left ==> left[q] == answers[q]
      invariant size + Weight(left) == Weight(answers)
      invariant forall q :: q in answers && q !in left ==> q in asked && !Blank(answers[q])
      decreases |left|
    {
      var q :| q in left;
      WeightWithout(left, q);
      FewerKeys(left, q);
      size := size + |q| + |answers[q]|;
      TrimSpaceEmpty(answers[q]);
      if q !in asked || TrimSpace(answers[q]) == "" {
        return true, size;
      }
      left := left - {q};
    }
    return false, size;
  }

  /** The code tests a subset and a cardinality; together they say the key sets are equal. */
  method CheckAnswers(call: ToolCall, decision: string, answers: map<string, string>)
    returns (check: AnswerCheck)
    ensures check.Fine? <==> AnswersAccepted(call, decision, answers)
    ensures check.OnlyWithAnswer? <==> decision != "answer" && answers != map[]
    ensures check.OnlyAQuestion? <==> decision == "answer" && call.tool != ASK_USER_QUESTION
    ensures check.NoSuchQuestion? <==>
              decision == "answer" && call.tool == ASK_USER_QUESTION && Stray(Asked(call.questions), answers)
  {
    if decision != "answer" {
      return if |answers| > 0 then OnlyWithAnswer else Fine;
    }
    if call.tool != ASK_USER_QUESTION {
      return OnlyAQuestion;
    }
    var asked: set<string> := {};
    for i := 0 to |call.questions|
      invariant asked == Asked(call.questions[..i])
    {
      asked := asked + {call.questions[i]};
    }
    assert call.questions[..|call.questions|] == call.questions;
    var stray, size := WeighAnswers(asked, answers);
    if stray {
      return NoSuchQuestion;
    }
    SameKeys(asked, answers);
    if |answers| != |asked| || size > ANSWERS_LIMIT {
      return Incomplete;
    }
    return Fine;
  }

  /** Answers are accepted with the decision "answer" alone: one for each question, in 16 KiB at most, each of
      which says something. */
  lemma AcceptedExactly(call: ToolCall, decision: string, answers: map<string, string>)
    ensures decision != "answer" ==> (AnswersAccepted(call, decision, answers) <==> answers == map[])
    ensures decision == "answer" ==>
              (AnswersAccepted(call, decision, answers) <==>
               && call.tool == "AskUserQuestion"
               && (forall q :: q in answers <==> q in call.questions)
               && (forall q :: q in answers ==> TrimSpace(answers[q]) != "")
               && Weight(answers) <= 16384)
  {
    forall q | q in answers ensures Blank(answers[q]) <==> TrimSpace(answers[q]) == "" {
      TrimSpaceEmpty(answers[q]);
    }
  }

  lemma SameKeys(asked: set<string>, answers: map<string, string>)
    requires !Stray(asked, answers)
    ensures |answers| == |asked| <==> answers.Keys == asked
  {
    assert |answers.Keys| == |answers|;
    assert answers.Keys <= asked;
    if |answers| == |asked| {
      SubsetOfSameSize(answers.Keys, asked);
    }
  }

  // ---- what Codex offered ----

  /** One entry of availableDecisions: its JSON text, and the string it decodes to ("" for an object). */
  datatype Offer = Offer(raw: string, text: string)

  ghost predicate Lists(available: seq<Offer>, word: string) {
    exists i :: 0 <= i < |available| && available[i].text == word
  }

  ghost predicate ListsCancel(available: seq<Offer>) {
    exists i :: 0 <= i < |available| && available[i].raw == "\"cancel\""
  }

  /** The word Codex is sent for a decision on a command, if it offered one. */
  ghost function WireOf(available: seq<Offer>, decision: string): Option<string> {
    if decision == "allow" then
      if available == [] || Lists(available, "accept") then Some("accept") else None
    else if decision == "always" then
      if available == [] || Lists(available, "acceptForSession") then Some("acceptForSession") else None
    else if decision == "deny" then
      if available == [] || Lists(available, "decline") then Some("decline")
      else if ListsCancel(available) then Some("cancel") else None
    else None
  }

  /** One word of Codex's against everything it listed: the decision is offered once per listing. */
  method OfferWord(available: seq<Offer>, word: string, decision: string, choices: seq<string>, wire: map<string,
                   string>)
    returns (choices': seq<string>, wire': map<string, string>)
    ensures Lists(available, word) ==> wire' == wire[decision := word]
    ensures !Lists(available, word) ==> wire' == wire && choices' == choices
    ensures forall d :: d in choices' <==> d in choices || (d == decision && Lists(available, word))
  {
    choices', wire' := choices, wire;
    for i := 0 to |available|
      invariant wire' == if Lists(available[..i], word) then wire[decision := word] else wire
      invariant !Lists(available[..i], word) ==> choices' == choices
      invariant forall d :: d in choices' <==> d in choices || (d == decision && Lists(available[..i], word))
    {
      ListsOneMore(available, word, i);
      if available[i].text == word {
        choices' := choices' + [decision];
        wire' := wire'[decision := word];
      }
    }
    assert available[..|available|] == available;
  }

  lemma ListsOneMore(available: seq<Offer>, word: string, i: nat)
    requires i < |available|
    ensures Lists(available[..i + 1], word) <==> Lists(available[..i], word) || available[i].text == word
  {
    if Lists(available[..i], word) {
      var j :| 0 <= j < i && available[..i][j].text == word;
      assert available[..i + 1][j].text == word;
    } else if available[i].text == word {
      assert available[..i + 1][i].text == word;
    }
  }

  /** A decision on a command is offered exactly when Codex listed a word for it, and that word is sent:
      what allows is "accept", and what denies is "decline" wherever it may be. */
  method OfferCommandChoices(available: seq<Offer>) returns (choices: seq<string>, wire: map<string, string>)
    ensures "allow" in wire <==> available == [] || Lists(available, "accept")
    ensures "allow" in wire ==> wire["allow"] == "accept"
    ensures "always" in wire <==> available == [] || Lists(available, "acceptForSession")
    ensures "always" in wire ==> wire["always"] == "acceptForSession"
    ensures "deny" in wire <==> available == [] || Lists(available, "decline") || ListsCancel(available)
    ensures "deny" in wire ==>
              wire["deny"] == if available == [] || Lists(available, "decline") then "decline" else "cancel"
    ensures wire.Keys <= {"allow", "always", "deny"} && forall d :: d in choices <==> d in wire
    ensures forall d :: d in choices <==> WireOf(available, d).Some?
    ensures forall d :: d in wire <==> WireOf(available, d).Some?
    ensures forall d :: d in wire ==> WireOf(available, d) == Some(wire[d])
  {
    if |available| == 0 {
      return ["allow", "always", "deny"], map["allow" := "accept", "always" := "acceptForSession", "deny" := "decline"];
    }
    choices, wire := OfferWord(available, "accept", "allow", [], map[]);
    choices, wire := OfferWord(available, "acceptForSession", "always", choices, wire);
    choices, wire := OfferWord(available, "decline", "deny", choices, wire);
    if "deny" !in wire {
      for i := 0 to |available|
        invariant forall j :: 0 <= j < i ==> available[j].raw != "\"cancel\""
      {
        if available[i].raw == "\"cancel\"" {
          choices := choices + ["deny"];
          wire := wire["deny" := "cancel"];
          break;
        }
      }
    }
  }

  // ---- the requests Codex makes ----

  datatype CodexQuestion = CodexQuestion(id: string, text: string)

  /** A request of the app-server's, as far as its approval depends on it; network says that a command
      wants network access. */
  datatype CodexRequest =
    | Command(network: bool, available: seq<Offer>)
    | FileChange
    | Permissions
    | UserInput(questions: seq<CodexQuestion>)
    | Unsupported

  /** The key of each question's text: that of the last question with it. */
  function KeysOf(questions: seq<CodexQuestion>): map<string, string> {
    if questions == [] then map[]
    else
      var last := questions[|questions| - 1];
      KeysOf(questions[..|questions| - 1])[last.text := last.id]
  }

  function TextsOf(questions: seq<CodexQuestion>): seq<string> {
    seq(|questions|, i requires 0 <= i < |questions| => questions[i].text)
  }

  /** A question has a text that no question before it has under a key. */
  predicate QuestionFits(questions: seq<CodexQuestion>, i: nat)
    requires i < |questions|
  {
    var before, text := KeysOf(questions[..i]), questions[i].text;
    text != "" && (text in before ==> before[text] == "")
  }

  ghost predicate Supported(request: CodexRequest) {
    match request
    case Unsupported => false
    case UserInput(questions) => questions != [] && forall i :: 0 <= i < |questions| ==> QuestionFits(questions, i)
    case _ => true
  }

  /** What each request becomes. The words of a command are those it lists; other requests take the usual ones. */
  ghost predicate BuiltFrom(request: CodexRequest, call: ToolCall) {
    match request
    case Unsupported => false
    case Command(network, available) =>
      && call.tool == (if network then "Codex network access" else "Bash") && !call.permissions
      && Offers(call, available)
    case FileChange => call.tool == "Codex file changes" && !call.permissions && Offers(call, [])
    case Permissions => call.tool == "Codex permissions" && call.permissions && Offers(call, [])
    case UserInput(questions) =>
      && call.tool == ASK_USER_QUESTION && call.choices == []
      && call.questions == TextsOf(questions) && call.questionIds == KeysOf(questions)
  }

  ghost predicate Offers(call: ToolCall, available: seq<Offer>) {
    && (forall d :: d in call.choices <==> WireOf(available, d).Some?)
    && (forall d :: d in call.wire <==> WireOf(available, d).Some?)
    && (forall d :: d in call.wire ==> WireOf(available, d) == Some(call.wire[d]))
  }

  /** The call a request for answers becomes, unless two questions with one text have keys of their own. */
  method AskedQuestions(questions: seq<CodexQuestion>, wire: map<string, string>) returns (call: Option<ToolCall>)
    ensures call.Some? <==> Supported(UserInput(questions))
    ensures call.Some? ==> call.value == ToolCall(ASK_USER_QUESTION, TextsOf(questions), KeysOf(questions), [], wire,
                                                  false)
  {
    var keys, texts := map[], [];
    for i := 0 to |questions|
      invariant keys == KeysOf(questions[..i]) && texts == TextsOf(questions[..i])
      invariant forall j :: 0 <= j < i ==> QuestionFits(questions, j)
    {
      var q := questions[i];
      assert questions[..i + 1][..i] == questions[..i];
      if q.text == "" || (q.text in keys && keys[q.text] != "") {
        assert !QuestionFits(questions, i);
        return None;
      }
      keys, texts := keys[q.text := q.id], texts + [q.text];
    }
    assert questions[..|questions|] == questions;
    if questions == [] {
      return None;
    }
    return Some(ToolCall(ASK_USER_QUESTION, texts, keys, [], wire, false));
  }

  /** codexApproval; None is the refusal of a request it does not support. */
  method CodexApproval(request: CodexRequest) returns (call: Option<ToolCall>)
    ensures call.Some? <==> Supported(request)
    ensures call.Some? ==> BuiltFrom(request, call.value) && WellFormed(call.value)
  {
    var choices, wire := OfferCommandChoices(if request.Command? then request.available else []);
    match request
    case Unsupported => return None;
    case Command(network, available) =>
      call := Some(ToolCall(if network then "Codex network access" else "Bash", [], map[], choices, wire, false));
    case FileChange => call := Some(ToolCall("Codex file changes", [], map[], choices, wire, false));
    case Permissions => call := Some(ToolCall("Codex permissions", [], map[], choices, wire, true));
    case UserInput(questions) =>
      call := AskedQuestions(questions, wire);
      if call.None? {
        return None;
      }
    BuiltIsWellFormed(request, call.value);
  }

  lemma {:induction false} KeysHaveTexts(questions: seq<CodexQuestion>)
    ensures KeysOf(questions).Keys == Asked(TextsOf(questions))
  {
    if questions != [] {
      var init, last := questions[..|questions| - 1], questions[|questions| - 1];
      KeysHaveTexts(init);
      assert TextsOf(questions) == TextsOf(init) + [last.text];
    }
  }

  /** A text's key is that of the last question with it. */
  lemma {:induction false} KeyOfTheLast(questions: seq<CodexQuestion>, i: nat)
    requires i < |questions| && forall j :: i < j < |questions| ==> questions[j].text != questions[i].text
    ensures questions[i].text in KeysOf(questions) && KeysOf(questions)[questions[i].text] == questions[i].id
  {
    var init := questions[..|questions| - 1];
    if i < |init| {
      assert init[i] == questions[i];
      KeyOfTheLast(init, i);
    }
  }

  lemma {:induction false} KeyIsOfOne(questions: seq<CodexQuestion>, text: string)
    requires text in KeysOf(questions)
    ensures exists i :: 0 <= i < |questions| && questions[i].text == text && KeysOf(questions)[text] == questions[i].id
  {
    var init, last := questions[..|questions| - 1], questions[|questions| - 1];
    if last.text != text {
      KeyIsOfOne(init, text);
      var i :| 0 <= i < |init| && init[i].text == text && KeysOf(init)[text] == init[i].id;
      assert questions[i] == init[i];
    }
  }

  /** Of the questions with one text, all but the last come without a key. */
  ghost predicate Told(questions: seq<CodexQuestion>) {
    && (forall i :: 0 <= i < |questions| ==> questions[i].text != "")
    && (forall i, j :: 0 <= i < j < |questions| && questions[i].text == questions[j].text ==> questions[i].id == "")
  }

  lemma {:induction false} EarlierKey(questions: seq<CodexQuestion>, i: nat, j: nat)
    requires forall k :: 0 <= k < |questions| ==> QuestionFits(questions, k)
    requires i < j < |questions| && questions[i].text == questions[j].text
    ensures questions[i].id == ""
  {
    if k :| i < k < j && questions[k].text == questions[i].text {
      EarlierKey(questions, i, k);
    } else {
      KeyOfTheLast(questions[..j], i);
      assert QuestionFits(questions, j);
    }
  }

  /** Which questions make a call. */
  lemma SupportedExactly(questions: seq<CodexQuestion>)
    ensures Supported(UserInput(questions)) <==> questions != [] && Told(questions)
  {
    if Supported(UserInput(questions)) {
      forall i, j | 0 <= i < j < |questions| && questions[i].text == questions[j].text ensures questions[i].id == "" {
        EarlierKey(questions, i, j);
      }
      forall i | 0 <= i < |questions| ensures questions[i].text != "" {
        assert QuestionFits(questions, i);
      }
    }
    if Told(questions) {
      forall i | 0 <= i < |questions| ensures QuestionFits(questions, i) {
        if questions[i].text in KeysOf(questions[..i]) {
          KeyIsOfOne(questions[..i], questions[i].text);
        }
      }
    }
  }

  lemma ToolNames()
    ensures "Bash" != ASK_USER_QUESTION && "Codex network access" != ASK_USER_QUESTION
    ensures "Codex file changes" != ASK_USER_QUESTION && "Codex permissions" != ASK_USER_QUESTION
  {
    assert ASK_USER_QUESTION[0] == 'A';
  }

  lemma BuiltIsWellFormed(request: CodexRequest, call: ToolCall)
    requires BuiltFrom(request, call)
    ensures WellFormed(call)
  {
    ToolNames();
    if request.UserInput? {
      KeysHaveTexts(request.questions);
    }
  }

  /** A command that lists its decisions is answered with one of them, "cancel" included if it is there. */
  lemma CommandsGetAListedWord(request: CodexRequest, call: ToolCall, decision: string, answers: map<string, string>,
                               reply: Reply)
    requires BuiltFrom(request, call) && request.Command? && request.available != []
    requires ReplyFits(call, decision, answers, reply)
    ensures reply.Decided?
    ensures Lists(request.available, reply.word) || (reply.word == "cancel" && ListsCancel(request.available))
  {
    ToolNames();
    assert WireOf(request.available, decision) == Some(reply.word);
  }

  // ---- Codex's answer ----

  datatype Reply =
    | Decided(word: string)
    | Granted(everything: bool, scope: string)
    | Filled(values: map<string, seq<string>>)

  /** Whether a decision may leave for Codex: the answers fit and the decision was offered. */
  ghost predicate CodexAccepts(call: ToolCall, decision: string, answers: map<string, string>) {
    && AnswersAccepted(call, decision, answers)
    && (if call.tool == ASK_USER_QUESTION then decision in {"answer", "deny"} else decision in call.choices)
  }

  /** What codexApproval builds: a question carries a key per question, and a decision on anything else
      is only offered with a word for it. */
  predicate WellFormed(call: ToolCall) {
    if call.tool == ASK_USER_QUESTION then call.questionIds.Keys == Asked(call.questions)
    else forall i :: 0 <= i < |call.choices| ==> call.choices[i] in call.wire
  }

  /** The values of an answered or skipped question, under Codex's keys. */
  method FillAnswers(ids: map<string, string>, skip: bool, answers: map<string, string>)
    returns (values: map<string, seq<string>>)
    requires skip || ids.Keys <= answers.Keys
    ensures values.Keys == ids.Values
    ensures skip ==> forall k :: k in values ==> values[k] == []
    ensures !skip ==> forall k :: k in values ==> AnswersSome(ids, answers, k, values[k])
  {
    values := map[];
    var left := ids.Keys;
    while left != {}
      invariant left <= ids.Keys
      invariant values.Keys == set q | q in ids && q !in left :: ids[q]
      invariant skip ==> forall k :: k in values ==> values[k] == []
      invariant !skip ==> forall k :: k in values ==> AnswersSome(ids, answers, k, values[k])
      decreases left
    {
      var q :| q in left;
      ghost var before := values;
      values := values[ids[q] := if skip then [] else [answers[q]]];
      left := left - {q};
      assert values.Keys == before.Keys + {ids[q]};
      assert !skip ==> AnswersSome(ids, answers, ids[q], values[ids[q]]);
    }
  }

  ghost predicate AnswersSome(ids: map<string, string>, answers: map<string, string>, key: string, value: seq<string>) {
    exists q :: q in ids && ids[q] == key && q in answers && value == [answers[q]]
  }

  method IsOffered(choices: seq<string>, decision: string) returns (allowed: bool)
    ensures allowed <==> decision in choices
  {
    allowed := false;
    for i := 0 to |choices|
      invariant allowed <==> decision in choices[..i]
    {
      if choices[i] == decision {
        allowed := true;
      }
    }
    assert choices[..|choices|] == choices;
  }

  /** decideCodexApprovalLocked's reply. Two questions that share a key overwrite one another. */
  method CodexReply(call: ToolCall, decision: string, answers: map<string, string>) returns (reply: Option<Reply>)
    requires WellFormed(call)
    ensures reply.Some? <==> CodexAccepts(call, decision, answers)
    ensures reply.Some? ==> ReplyFits(call, decision, answers, reply.value)
    ensures reply.Some? ==>
              forall request :: BuiltFrom(request, call) ==> SaysWhatIsMeant(request, decision, reply.value)
  {
    var check := CheckAnswers(call, decision, answers);
    if !check.Fine? {
      return None;
    }
    if call.tool == ASK_USER_QUESTION {
      if decision != "answer" && decision != "deny" {
        return None;
      }
      var values := FillAnswers(call.questionIds, decision == "deny", answers);
      AllSentAsMeant(call, decision, answers, Filled(values));
      return Some(Filled(values));
    }
    var allowed := IsOffered(call.choices, decision);
    if !allowed {
      return None;
    }
    if call.permissions {
      reply := Some(Granted(decision != "deny", if decision == "always" then "session" else "turn"));
    } else {
      reply := Some(Decided(call.wire[decision]));
    }
    AllSentAsMeant(call, decision, answers, reply.value);
  }

  /** A question gets its answers, or empty ones when it is skipped; a permission request what was asked
      for or nothing, for the turn or the session; anything else the word that was offered. */
  ghost predicate ReplyFits(call: ToolCall, decision: string, answers: map<string, string>, reply: Reply) {
    if call.tool == ASK_USER_QUESTION then
      && reply.Filled?
      && reply.values.Keys == call.questionIds.Values
      && (decision == "deny" ==> forall k :: k in reply.values ==> reply.values[k] == [])
      && (decision == "answer" ==> forall k :: k in reply.values ==>
          AnswersSome(call.questionIds, answers, k, reply.values[k]))
    else if call.permissions then
      reply == Granted(decision != "deny", if decision == "always" then "session" else "turn")
    else
      decision in call.wire && reply == Decided(call.wire[decision])
  }

  /** With distinct keys, every question's own answer reaches Codex under its key. */
  lemma DistinctKeysKeepAnswers(ids: map<string, string>, answers: map<string, string>, values: map<string,
                                seq<string>>, q: string)
    requires forall p, r :: p in ids && r in ids && ids[p] == ids[r] ==> p == r
    requires values.Keys == ids.Values
    requires forall k :: k in values ==> AnswersSome(ids, answers, k, values[k])
    requires q in ids
    ensures q in answers && values[ids[q]] == [answers[q]]
  {
    assert ids[q] in values;
    var p :| p in ids && ids[p] == ids[q] && p in answers && values[ids[q]] == [answers[p]];
    assert p == q;
  }

  // ---- what a decision does to a request ----

  /** What Codex listed that a decision on a command is answered with. */
  ghost predicate Open(available: seq<Offer>, decision: string) {
    || (decision == "allow" && (available == [] || Lists(available, "accept")))
    || (decision == "always" && (available == [] || Lists(available, "acceptForSession")))
    || (decision == "deny" && (available == [] || Lists(available, "decline") || ListsCancel(available)))
  }

  /** Which decisions each request is open to. A question is answered or skipped, never allowed. */
  lemma OpenTo(request: CodexRequest, call: ToolCall, decision: string, answers: map<string, string>)
    requires BuiltFrom(request, call)
    ensures request.Command? ==>
              (CodexAccepts(call, decision, answers) <==> answers == map[] && Open(request.available, decision))
    ensures request.FileChange? || request.Permissions? ==>
              (CodexAccepts(call, decision, answers) <==>
               answers == map[] && (decision == "allow" || decision == "always" || decision == "deny"))
    ensures request.UserInput? ==>
              (CodexAccepts(call, decision, answers) <==>
               if decision == "answer" then AnswersAccepted(call, "answer", answers)
               else decision == "deny" && answers == map[])
  {
    ToolNames();
  }

  /** Codex is told what the owner decided: what is allowed is accepted, what is denied declined or cancelled,
      and cancelled only where Codex did not list declining; what is allowed always holds for the session. */
  ghost predicate SaysWhatIsMeant(request: CodexRequest, decision: string, reply: Reply) {
    match request
    case Unsupported => false
    case UserInput(_) =>
      reply.Filled? && (decision == "deny" ==> forall k :: k in reply.values ==> reply.values[k] == [])
    case Permissions =>
      && reply.Granted?
      && (reply.everything <==> decision != "deny")
      && (reply.scope == "session" <==> decision == "always")
    case _ =>
      && reply.Decided?
      && (reply.word == "accept" <==> decision == "allow")
      && (reply.word == "acceptForSession" <==> decision == "always")
      && (reply.word == "decline" || reply.word == "cancel" <==> decision == "deny")
      && (reply.word == "cancel" ==> request.Command? && ListsCancel(request.available)
                                     && !Lists(request.available, "decline"))
  }

  lemma SentAsMeant(request: CodexRequest, call: ToolCall, decision: string, answers: map<string, string>, reply: Reply)
    requires BuiltFrom(request, call) && ReplyFits(call, decision, answers, reply)
    ensures SaysWhatIsMeant(request, decision, reply)
  {
    ToolNames();
  }

  lemma AllSentAsMeant(call: ToolCall, decision: string, answers: map<string, string>, reply: Reply)
    requires ReplyFits(call, decision, answers, reply)
    ensures forall request :: BuiltFrom(request, call) ==> SaysWhatIsMeant(request, decision, reply)
  {
    forall request | BuiltFrom(request, call) ensures SaysWhatIsMeant(request, decision, reply) {
      SentAsMeant(request, call, decision, answers, reply);
    }
  }
}
