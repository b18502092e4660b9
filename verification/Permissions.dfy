/** What an "Always allow" hands back: the permission updates kept to the conversation, and the allow rules
    among them (internal/agent/agent_conversation_approvals.go). */
module Permissions {
  import opened Basics

  /** A decoded JSON value. A number is the float64 the decoder makes of its digits: encoding it again writes
      digits that decode to the same number, but not always the digits it came with. */
  datatype Json =
    | Null
    | Bool(b: bool)
    | Number(value: real)
    | Str(s: string)
    | Arr(items: seq<Json>)
    | Obj(fields: map<string, Json>)

  /** A rule: the tool it allows, and the content it is limited to. */
  datatype Rule = Rule(tool: string, content: string)

  // ---- rules ----

  function Field(item: Json, name: string): string {
    if item.Obj? && name in item.fields && item.fields[name].Str? then item.fields[name].s else ""
  }

  predicate HasParen(s: string) {
    '(' in s || ')' in s
  }

  predicate ToolOK(tool: string) {
    tool != "" && !HasParen(tool)
  }

  function RuleOf(item: Json): Rule {
    Rule(TrimSpace(Field(item, "toolName")), Field(item, "ruleContent"))
  }

  function Render(rule: Rule): string {
    if rule.content == "" then rule.tool else rule.tool + "(" + rule.content + ")"
  }

  function IndexOf(s: string, c: char): (i: nat)
    ensures i <= |s| && (i < |s| ==> s[i] == c) && c !in s[..i]
  {
    if s == "" || s[0] == c then 0
    else
      var i := 1 + IndexOf(s[1..], c);
      assert s[..i] == [s[0]] + s[1..][..i - 1];
      i
  }

  /** How a written rule reads: a tool alone, or a tool and what its parentheses hold. */
  function Parse(written: string): Option<Rule> {
    var i := IndexOf(written, '(');
    if i == |written| then Some(Rule(written, ""))
    else if written[|written| - 1] == ')' && i < |written| - 1
    then Some(Rule(written[..i], written[i + 1..|written| - 1]))
    else None
  }

  lemma {:induction false} IndexAfter(a: string, c: char, b: string)
    requires c !in a
    ensures IndexOf(a + [c] + b, c) == |a|
    decreases |a|
  {
    var s := a + [c] + b;
    if a != "" {
      IndexAfter(a[1..], c, b);
      assert s[1..] == a[1..] + [c] + b;
    }
  }

  lemma IndexNone(s: string, c: char)
    requires c !in s
    ensures IndexOf(s, c) == |s|
  {
  }

  /** A written rule says which tool and content it was: no two rules are written alike. */
  lemma RuleRoundTrip(rule: Rule)
    requires ToolOK(rule.tool)
    ensures Parse(Render(rule)) == Some(rule)
  {
    if rule.content == "" {
      IndexNone(rule.tool, '(');
    } else {
      var s := Render(rule);
      assert s == rule.tool + ['('] + (rule.content + ")");
      IndexAfter(rule.tool, '(', rule.content + ")");
      assert s[..|rule.tool|] == rule.tool && s[|s| - 1] == ')';
      assert s[|rule.tool| + 1..|s| - 1] == rule.content;
    }
  }

  lemma RenderInjective(a: Rule, b: Rule)
    requires ToolOK(a.tool) && ToolOK(b.tool) && Render(a) == Render(b)
    ensures a == b
  {
    RuleRoundTrip(a);
    RuleRoundTrip(b);
  }

  predicate RulesReadable(value: Option<Json>) {
    value.Some? && value.value.Arr? && forall i :: 0 <= i < |value.value.items| ==>
        ToolOK(RuleOf(value.value.items[i]).tool)
  }

  /** permissionRules: one rule for each item, or nothing when an item names no tool. */
  method PermissionRules(value: Option<Json>) returns (rules: seq<string>, ok: bool)
    ensures ok <==> RulesReadable(value)
    ensures ok ==> |rules| == |value.value.items|
    ensures ok ==> forall i :: 0 <= i < |rules| ==> rules[i] == Render(RuleOf(value.value.items[i]))
    ensures ok ==> forall i :: 0 <= i < |rules| ==>
                     var rule := RuleOf(value.value.items[i]);
                     rules[i] == if rule.content == "" then rule.tool else rule.tool + "(" + rule.content + ")"
    ensures !ok ==> rules == []
  {
    if value.None? || !value.value.Arr? {
      return [], false;
    }
    var list := value.value.items;
    rules := [];
    for i := 0 to |list|
      invariant |rules| == i
      invariant forall j :: 0 <= j < i ==> ToolOK(RuleOf(list[j]).tool) && rules[j] == Render(RuleOf(list[j]))
    {
      var tool, content := TrimSpace(Field(list[i], "toolName")), Field(list[i], "ruleContent");
      if tool == "" || HasParen(tool) {
        return [], false;
      }
      if content == "" {
        rules := rules + [tool];
      } else {
        rules := rules + [tool + "(" + content + ")"];
      }
    }
    return rules, true;
  }

  // ---- updates ----

  predicate AllowsRules(update: Json) {
    update.Obj? && Field(update, "type") == "addRules" && Field(update, "behavior") == "allow"
  }

  function RulesField(update: Json): Option<Json> {
    if update.Obj? && "rules" in update.fields then Some(update.fields["rules"]) else None
  }

  predicate Unread(update: Json) {
    !update.Obj? || (AllowsRules(update) && !RulesReadable(RulesField(update)))
  }

  /** The rules an update allows for good. */
  function Granted(update: Json): seq<Rule> {
    if AllowsRules(update) && RulesReadable(RulesField(update))
    then seq(|RulesField(update).value.items|,
             i requires 0 <= i < |RulesField(update).value.items| => RuleOf(RulesField(update).value.items[i]))
    else []
  }

  /** An item that names a tool: its name is not blank and holds no parenthesis. */
  predicate NamesTool(item: Json) {
    && item.Obj? && "toolName" in item.fields && item.fields["toolName"].Str?
    && var tool := TrimSpace(item.fields["toolName"].s);
       tool != "" && '(' !in tool && ')' !in tool
  }

  lemma ToolNamed(item: Json)
    ensures ToolOK(RuleOf(item).tool) <==> NamesTool(item)
    ensures NamesTool(item) ==>
              && RuleOf(item).tool == TrimSpace(item.fields["toolName"].s)
              && RuleOf(item).content == if "ruleContent" in item.fields && item.fields["ruleContent"].Str?
                                         then item.fields["ruleContent"].s else ""
  {
    assert TrimSpace("") == "";
  }

  /** An update that allows rules for good: its type is "addRules" and its behavior "allow". */
  predicate AddsAllowed(update: Json) {
    && update.Obj? && "type" in update.fields && update.fields["type"] == Str("addRules")
    && "behavior" in update.fields && update.fields["behavior"] == Str("allow")
  }

  /** Its rules are a list of items that each name a tool. */
  predicate ListsTools(update: Json)
    requires update.Obj?
  {
    && "rules" in update.fields && update.fields["rules"].Arr?
    && forall i :: 0 <= i < |update.fields["rules"].items| ==> NamesTool(update.fields["rules"].items[i])
  }

  lemma RulesListed(update: Json)
    requires update.Obj?
    ensures RulesReadable(RulesField(update)) <==> ListsTools(update)
  {
    if "rules" in update.fields && update.fields["rules"].Arr? {
      forall i | 0 <= i < |update.fields["rules"].items|
        ensures ToolOK(RuleOf(update.fields["rules"].items[i]).tool) <==> NamesTool(update.fields["rules"].items[i])
      {
        ToolNamed(update.fields["rules"].items[i]);
      }
    }
  }

  lemma AllowsExactly(update: Json)
    ensures AllowsRules(update) <==> AddsAllowed(update)
  {
    assert "" != "addRules" && "" != "allow";
  }

  /** Which updates cannot be read. */
  lemma UnreadExactly(update: Json)
    ensures Unread(update) <==> !update.Obj? || (AddsAllowed(update) && !ListsTools(update))
  {
    AllowsExactly(update);
    if update.Obj? {
      RulesListed(update);
    }
  }

  /** Which rules an update allows: one for each item, its tool without the spaces around it. */
  lemma GrantedExactly(update: Json)
    ensures if AddsAllowed(update) && ListsTools(update)
            then
              var items := update.fields["rules"].items;
              && |Granted(update)| == |items|
              && forall i :: 0 <= i < |items| ==>
                   Granted(update)[i] == Rule(TrimSpace(items[i].fields["toolName"].s),
                                              if "ruleContent" in items[i].fields && items[i].fields["ruleContent"].Str?
                                              then items[i].fields["ruleContent"].s else "")
            else Granted(update) == []
  {
    AllowsExactly(update);
    if update.Obj? {
      RulesListed(update);
      if ListsTools(update) {
        forall i | 0 <= i < |update.fields["rules"].items|
          ensures NamesTool(update.fields["rules"].items[i])
          ensures RuleOf(update.fields["rules"].items[i]).tool
               == TrimSpace(update.fields["rules"].items[i].fields["toolName"].s)
        {
          ToolNamed(update.fields["rules"].items[i]);
        }
      }
    }
  }

  function GrantedAll(updates: seq<Json>): seq<Rule> {
    if updates == [] then [] else GrantedAll(updates[..|updates| - 1]) + Granted(updates[|updates| - 1])
  }

  function UnreadAll(updates: seq<Json>): seq<Json> {
    if updates == [] then []
    else UnreadAll(updates[..|updates| - 1]) + (if Unread(updates[|updates| - 1]) then [updates[|updates| - 1]] else [])
  }

  function RenderAll(rules: seq<Rule>): seq<string> {
    seq(|rules|, i requires 0 <= i < |rules| => Render(rules[i]))
  }

  /** The destination is the session where there was one; every other field is as it was. */
  predicate OnlyMovedToSession(before: Json, after: Json) {
    if !before.Obj? then after == before
    else
      && after.Obj? && after.fields.Keys == before.fields.Keys
      && ("destination" in before.fields ==> after.fields["destination"] == Str("session"))
      && forall name :: name in before.fields && name != "destination" ==> after.fields[name] == before.fields[name]
  }

  /** One update: what is kept of it, the rules it grants, and whether it could not be read. */
  method ReadUpdate(update: Json) returns (kept: Json, rules: seq<string>, unread: bool)
    ensures OnlyMovedToSession(update, kept)
    ensures rules == RenderAll(Granted(update)) && unread == Unread(update)
  {
    if !update.Obj? {
      return update, [], true;
    }
    var fields := update.fields;
    if "destination" in fields {
      fields := fields["destination" := Str("session")];
    }
    rules, unread := [], false;
    if Field(update, "type") == "addRules" && Field(update, "behavior") == "allow" {
      var ok;
      rules, ok := PermissionRules(RulesField(update));
      unread := !ok;
    }
    return Obj(fields), rules, unread;
  }

  lemma RenderBoth(a: seq<Rule>, b: seq<Rule>)
    ensures RenderAll(a + b) == RenderAll(a) + RenderAll(b)
  {
  }

  lemma ReadOneMore(updates: seq<Json>, i: nat)
    requires i < |updates|
    ensures RenderAll(GrantedAll(updates[..i + 1]))
         == RenderAll(GrantedAll(updates[..i])) + RenderAll(Granted(updates[i]))
    ensures UnreadAll(updates[..i + 1])
         == if Unread(updates[i]) then UnreadAll(updates[..i]) + [updates[i]] else UnreadAll(updates[..i])
  {
    assert updates[..i + 1][..i] == updates[..i];
    assert GrantedAll(updates[..i + 1]) == GrantedAll(updates[..i]) + Granted(updates[i]);
    RenderBoth(GrantedAll(updates[..i]), Granted(updates[i]));
  }

  /** The first n updates are as the conversation may apply them, the others as they came. */
  ghost predicate MovedUpTo(before: seq<Json>, after: seq<Json>, n: nat)
    requires n <= |before| == |after|
  {
    && (forall j :: 0 <= j < n ==> OnlyMovedToSession(before[j], after[j]))
    && (forall j :: n <= j < |after| ==> after[j] == before[j])
  }

  lemma MoveOne(before: seq<Json>, after: seq<Json>, n: nat, update: Json)
    requires n < |before| == |after| && MovedUpTo(before, after, n) && OnlyMovedToSession(before[n], update)
    ensures MovedUpTo(before, after[n := update], n + 1)
  {
  }

  predicate ToldUpTo(done: seq<Json>, rules: seq<string>, unread: seq<Json>) {
    rules == RenderAll(GrantedAll(done)) && unread == UnreadAll(done)
  }

  lemma TellOne(updates: seq<Json>, i: nat, rules: seq<string>, unread: seq<Json>)
    requires i < |updates| && ToldUpTo(updates[..i], rules, unread)
    ensures ToldUpTo(updates[..i + 1], rules + RenderAll(Granted(updates[i])),
                     if Unread(updates[i]) then unread + [updates[i]] else unread)
  {
    ReadOneMore(updates, i);
  }

  /** The loop over the updates, which are rewritten one by one. */
  method ReadUpdates(items: seq<Json>) returns (updates: seq<Json>, rules: seq<string>, unread: seq<Json>)
    ensures |updates| == |items| && MovedUpTo(items, updates, |items|)
    ensures ToldUpTo(items, rules, unread)
  {
    updates, rules, unread := items, [], [];
    for i := 0 to |items|
      invariant |updates| == |items| && MovedUpTo(items, updates, i)
      invariant ToldUpTo(items[..i], rules, unread)
    {
      var update, found, unreadable := ReadUpdate(updates[i]);
      TellOne(items, i, rules, unread);
      MoveOne(items, updates, i, update);
      rules := rules + found;
      if unreadable {
        unread := unread + [updates[i]];
      }
      updates := updates[i := update];
    }
    assert items[..|items|] == items;
  }

  /** sessionPermissions. A value that is not a list is handed on as it is, unread; null holds no update. */
  method SessionPermissions(raw: Json) returns (kept: Json, rules: seq<string>, unread: seq<Json>)
    ensures raw.Arr? ==> kept.Arr? && |kept.items| == |raw.items|
    ensures raw.Arr? ==> forall i :: 0 <= i < |raw.items| ==> OnlyMovedToSession(raw.items[i], kept.items[i])
    ensures raw.Arr? ==> rules == RenderAll(GrantedAll(raw.items)) && unread == UnreadAll(raw.items)
    ensures !raw.Arr? ==> kept == raw && rules == [] && unread == if raw.Null? then [] else [raw]
  {
    if !raw.Arr? {
      return raw, [], if raw.Null? then [] else [raw];
    }
    var updates;
    updates, rules, unread := ReadUpdates(raw.items);
    return Arr(updates), rules, unread;
  }

  /** The project's rules read back as exactly the tools and contents of the readable allow updates, in order. */
  lemma {:induction false} RulesReadBack(updates: seq<Json>, i: nat)
    requires i < |GrantedAll(updates)|
    ensures Parse(RenderAll(GrantedAll(updates))[i]) == Some(GrantedAll(updates)[i])
  {
    var init, last := updates[..|updates| - 1], updates[|updates| - 1];
    if i < |GrantedAll(init)| {
      RulesReadBack(init, i);
    } else {
      RuleRoundTrip(GrantedAll(updates)[i]);
    }
  }
}
