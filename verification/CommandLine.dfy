/** The command lines the agent builds for a provider, and the shell that reads them back
    (internal/agent/agent_config.go). */
module CommandLine {
  import opened Basics

  // ---- the shell: Shell Command Language, sections 2.2.1 and 2.2.2, on lines of literal words ----

  datatype Mode = Bare | Quoted | Escaped

  /** Broken: the line asks the shell for something else than literal words, or no shell could read it. */
  datatype State = Broken | Reading(words: seq<string>, word: Option<string>, mode: Mode)

  predicate LetterOrDigit(c: char) {
    'a' <= c <= 'z' || 'A' <= c <= 'Z' || '0' <= c <= '9'
  }

  /** Characters that mean nothing to the shell outside quotes. */
  predicate Plain(c: char) {
    || LetterOrDigit(c)
    || c == '-' || c == '_' || c == '.' || c == ':' || c == '@' || c == '/'
  }

  function Written(word: Option<string>): string {
    if word.Some? then word.value else ""
  }

  function Step(st: State, c: char): State {
    if st.Broken? || c == '\0' then Broken
    else
      match st.mode
      case Quoted =>
        if c == '\'' then st.(mode := Bare) else st.(word := Some(Written(st.word) + [c]))
      case Escaped =>
        // A backslash before a newline joins two lines.
        if c == '\n' then st.(mode := Bare) else Reading(st.words, Some(Written(st.word) + [c]), Bare)
      case Bare =>
        if c == '\'' then Reading(st.words, Some(Written(st.word)), Quoted)
        else if c == '\\' then st.(mode := Escaped)
        else if c == ' ' || c == '\t' then
          if st.word.Some? then Reading(st.words + [st.word.value], None, Bare) else st
        // An equals sign in the first word would make it an assignment.
        else if Plain(c) || (c == '=' && st.words != []) then st.(word := Some(Written(st.word) + [c]))
        else Broken
  }

  function Scan(st: State, line: string): State
    decreases |line|
  {
    if line == "" then st else Scan(Step(st, line[0]), line[1..])
  }

  /** The words of a line, when it holds only literal words. */
  function Tokenize(line: string): Option<seq<string>> {
    var end := Scan(Reading([], None, Bare), line);
    if end.Broken? || end.mode != Bare then None
    else Some(if end.word.Some? then end.words + [end.word.value] else end.words)
  }

  lemma {:induction false} ScanAppend(st: State, a: string, b: string)
    ensures Scan(st, a + b) == Scan(Scan(st, a), b)
    decreases |a|
  {
    if a == "" {
      assert a + b == b;
    } else {
      ScanAppend(Step(st, a[0]), a[1..], b);
      assert (a + b)[1..] == a[1..] + b;
    }
  }

  predicate NulFree(s: string) {
    '\0' !in s
  }

  // ---- quoteShell ----

  /** strings.ReplaceAll(s, "'", `'\''`) */
  function EscapeQuotes(s: string): string {
    if s == "" then "" else (if s[0] == '\'' then "'\\''" else [s[0]]) + EscapeQuotes(s[1..])
  }

  function QuoteShell(s: string): string {
    "'" + EscapeQuotes(s) + "'"
  }

  lemma ScanEscapedQuote(words: seq<string>, x: string)
    ensures Scan(Reading(words, Some(x), Quoted), "'\\''") == Reading(words, Some(x + "'"), Quoted)
  {
    var st := Reading(words, Some(x), Quoted);
    assert "'\\''" == "'" + "\\" + "'" + "'";
    ScanAppend(st, "'" + "\\" + "'", "'");
    ScanAppend(st, "'" + "\\", "'");
    ScanAppend(st, "'", "\\");
  }

  lemma {:induction false} ScanEscaped(words: seq<string>, x: string, s: string)
    requires NulFree(s)
    ensures Scan(Reading(words, Some(x), Quoted), EscapeQuotes(s)) == Reading(words, Some(x + s), Quoted)
    decreases |s|
  {
    if s == "" {
      assert x + s == x;
    } else {
      var st := Reading(words, Some(x), Quoted);
      var head := if s[0] == '\'' then "'\\''" else [s[0]];
      ScanAppend(st, head, EscapeQuotes(s[1..]));
      if s[0] == '\'' {
        ScanEscapedQuote(words, x);
        assert [s[0]] == "'";
      }
      ScanEscaped(words, x + [s[0]], s[1..]);
      assert x + [s[0]] + s[1..] == x + s;
    }
  }

  /** A quoted text continues the word it stands in by exactly that text. */
  lemma ScanQuoted(words: seq<string>, word: Option<string>, s: string)
    requires NulFree(s)
    ensures Scan(Reading(words, word, Bare), QuoteShell(s)) == Reading(words, Some(Written(word) + s), Bare)
  {
    var st := Reading(words, word, Bare);
    ScanAppend(st, "'" + EscapeQuotes(s), "'");
    ScanAppend(st, "'", EscapeQuotes(s));
    ScanEscaped(words, Written(word), s);
  }

  /** Whatever the text, the shell reads it back as one word. */
  lemma QuoteRoundTrip(s: string)
    requires NulFree(s)
    ensures Tokenize(QuoteShell(s)) == Some([s])
  {
    ScanQuoted([], None, s);
    assert "" + s == s && [] + [s] == [s];
  }

  // ---- joining words ----

  function Join(parts: seq<string>): string {
    if parts == [] then "" else if |parts| == 1 then parts[0] else Join(parts[..|parts| - 1]) + " " + parts[|parts| - 1]
  }

  function Kept(parts: seq<string>): seq<string> {
    if parts == [] then []
    else
      var last := parts[|parts| - 1];
      Kept(parts[..|parts| - 1]) + (if last != "" then [last] else [])
  }

  function Words(parts: seq<string>): string {
    Join(Kept(parts))
  }

  /** The words of a line so far, the last one not ended yet. */
  function Pending(args: seq<string>): State
    requires args != []
  {
    Reading(args[..|args| - 1], Some(args[|args| - 1]), Bare)
  }

  /** The part reads as these words after any others. */
  ghost predicate Reads(part: string, args: seq<string>) {
    args != [] && forall words :: words != [] ==> Scan(Reading(words, None, Bare), part) == Pending(words + args)
  }

  ghost predicate ReadsOrEmpty(part: string, args: seq<string>) {
    if part == "" then args == [] else Reads(part, args)
  }

  lemma ScanSpace(args: seq<string>)
    requires args != []
    ensures Scan(Pending(args), " ") == Reading(args, None, Bare)
  {
    assert args[..|args| - 1] + [args[|args| - 1]] == args;
  }

  lemma ScanNext(args: seq<string>, line: string, part: string, more: seq<string>)
    requires args != [] && Reads(part, more)
    requires Scan(Reading([], None, Bare), line) == Pending(args)
    ensures Scan(Reading([], None, Bare), line + " " + part) == Pending(args + more)
  {
    ScanAppend(Reading([], None, Bare), line + " ", part);
    ScanAppend(Reading([], None, Bare), line, " ");
    ScanSpace(args);
  }

  /** The parts, joined, start a line with these words. */
  ghost predicate StartsLine(parts: seq<string>, args: seq<seq<string>>) {
    && Kept(parts) != [] && Flatten(args) != []
    && Scan(Reading([], None, Bare), Words(parts)) == Pending(Flatten(args))
  }

  lemma JoinOne(part: string, args: seq<string>)
    requires part != "" && args != [] && Scan(Reading([], None, Bare), part) == Pending(args)
    ensures StartsLine([part], [args])
  {
    assert [part][..0] == [] && [args][..0] == [];
    assert [] + args == args;
  }

  /** One part more, which may be empty. */
  lemma JoinNext(parts: seq<string>, args: seq<seq<string>>, part: string, more: seq<string>)
    requires StartsLine(parts, args) && ReadsOrEmpty(part, more)
    ensures StartsLine(parts + [part], args + [more])
  {
    assert (parts + [part])[..|parts|] == parts && (args + [more])[..|args|] == args;
    if part != "" {
      ScanNext(Flatten(args), Words(parts), part, more);
      assert (Kept(parts) + [part])[..|Kept(parts)|] == Kept(parts);
    } else {
      assert Kept(parts + [part]) == Kept(parts) + [] == Kept(parts);
      assert Flatten(args + [more]) == Flatten(args) + [] == Flatten(args);
    }
  }

  ghost predicate PartsRead(parts: seq<string>, args: seq<seq<string>>) {
    && parts != [] && |args| == |parts| && parts[0] != "" && args[0] != []
    && Scan(Reading([], None, Bare), parts[0]) == Pending(args[0])
    && forall i :: 1 <= i < |parts| ==> ReadsOrEmpty(parts[i], args[i])
  }

  lemma FewerRead(parts: seq<string>, args: seq<seq<string>>)
    requires PartsRead(parts, args) && |parts| > 1
    ensures PartsRead(parts[..|parts| - 1], args[..|parts| - 1])
    ensures ReadsOrEmpty(parts[|parts| - 1], args[|parts| - 1])
  {
  }

  lemma {:induction false} JoinReads(parts: seq<string>, args: seq<seq<string>>)
    requires PartsRead(parts, args)
    ensures StartsLine(parts, args)
  {
    if |parts| == 1 {
      JoinOne(parts[0], args[0]);
      assert parts == [parts[0]] && args == [args[0]];
    } else {
      var n := |parts| - 1;
      FewerRead(parts, args);
      JoinReads(parts[..n], args[..n]);
      JoinNext(parts[..n], args[..n], parts[n], args[n]);
      assert parts == parts[..n] + [parts[n]] && args == args[..n] + [args[n]];
    }
  }

  lemma TokenizePending(line: string, args: seq<string>)
    requires args != [] && Scan(Reading([], None, Bare), line) == Pending(args)
    ensures Tokenize(line) == Some(args)
  {
    assert args[..|args| - 1] + [args[|args| - 1]] == args;
  }

  // ---- plain words ----

  predicate PlainWord(s: string) {
    s != "" && forall i :: 0 <= i < |s| ==> Plain(s[i])
  }

  lemma {:induction false} ScanPlain(words: seq<string>, x: Option<string>, s: string)
    requires PlainWord(s)
    ensures Scan(Reading(words, x, Bare), s) == Reading(words, Some(Written(x) + s), Bare)
    decreases |s|
  {
    var st := Step(Reading(words, x, Bare), s[0]);
    assert st == Reading(words, Some(Written(x) + [s[0]]), Bare);
    if |s| == 1 {
      assert s == [s[0]];
    } else {
      ScanPlain(words, st.word, s[1..]);
      assert Written(x) + [s[0]] + s[1..] == Written(x) + s;
    }
  }

  lemma WordReads(s: string)
    requires PlainWord(s)
    ensures Reads(s, [s])
  {
    forall words: seq<string> | words != [] ensures Scan(Reading(words, None, Bare), s) == Pending(words + [s]) {
      ScanPlain(words, None, s);
      assert "" + s == s && (words + [s])[..|words|] == words;
    }
  }

  lemma QuotedReads(s: string)
    requires NulFree(s)
    ensures Reads(QuoteShell(s), [s])
  {
    forall words: seq<string> | words != []
      ensures Scan(Reading(words, None, Bare), QuoteShell(s)) == Pending(words + [s])
    {
      ScanQuoted(words, None, s);
      assert "" + s == s && (words + [s])[..|words|] == words;
    }
  }

  lemma ScanOption(words: seq<string>, name: string, value: string)
    requires PlainWord(name) && NulFree(value) && words != []
    ensures Scan(Reading(words, None, Bare), name + "=" + QuoteShell(value))
         == Reading(words, Some(name + "=" + value), Bare)
  {
    var st := Reading(words, None, Bare);
    ScanAppend(st, name + "=", QuoteShell(value));
    ScanAppend(st, name, "=");
    ScanPlain(words, None, name);
    assert "" + name == name;
    ScanQuoted(words, Some(name + "="), value);
  }

  /** --name='value' is one word, wherever it stands. */
  lemma OptionReads(name: string, value: string)
    requires PlainWord(name) && NulFree(value)
    ensures Reads(name + "=" + QuoteShell(value), [name + "=" + value])
  {
    var arg := name + "=" + value;
    forall words: seq<string> | words != []
      ensures Scan(Reading(words, None, Bare), name + "=" + QuoteShell(value)) == Pending(words + [arg])
    {
      ScanOption(words, name, value);
      assert (words + [arg])[..|words|] == words;
    }
  }

  lemma ReadsMore(line: string, args: seq<string>, part: string, more: seq<string>)
    requires Reads(line, args) && Reads(part, more)
    ensures Reads(line + " " + part, args + more)
  {
    forall words: seq<string> | words != []
      ensures Scan(Reading(words, None, Bare), line + " " + part) == Pending(words + (args + more))
    {
      ScanAppend(Reading(words, None, Bare), line + " ", part);
      ScanAppend(Reading(words, None, Bare), line, " ");
      ScanSpace(words + args);
      assert words + args + more == words + (args + more);
    }
  }

  // ---- the provider's options ----

  function LowerChar(c: char): char {
    if 'A' <= c <= 'Z' then c - 'A' + 'a' else c
  }

  function Lower(s: string): string {
    seq(|s|, i requires 0 <= i < |s| => LowerChar(s[i]))
  }

  function Provider(provider: string): string {
    Lower(TrimSpace(provider))
  }

  /** What agentconfig.ValidModel accepts, once trimmed: nothing, or a letter or digit and then
      letters, digits and . _ - : @ / */
  predicate ValidModel(model: string) {
    var m := TrimSpace(model);
    m != "" ==> LetterOrDigit(m[0]) && forall i :: 0 <= i < |m| ==> Plain(m[i])
  }

  function ModelArgs(provider: string, model: string): seq<string> {
    if (Provider(provider) != "claude" && Provider(provider) != "codex") || TrimSpace(model) == "" then []
    else ["--model", TrimSpace(model)]
  }

  /** The folders worth an option, trimmed. */
  function Named(dirs: seq<string>): seq<string> {
    if dirs == [] then []
    else
      var dir := TrimSpace(dirs[|dirs| - 1]);
      Named(dirs[..|dirs| - 1]) + (if dir != "" then [dir] else [])
  }

  /** Every folder that is not blank, without the spaces around it, and no other, in their order. */
  lemma {:induction false} NamedAddsUp(a: seq<string>, b: seq<string>)
    ensures Named(a + b) == Named(a) + Named(b)
  {
    if b == [] {
      assert a + b == a;
    } else {
      NamedAddsUp(a, b[..|b| - 1]);
      assert (a + b)[..|a + b| - 1] == a + b[..|b| - 1];
    }
  }

  lemma NamedOne(dir: string)
    ensures Named([dir]) == if Blank(dir) then [] else [TrimSpace(dir)]
  {
    TrimSpaceEmpty(dir);
    assert [dir][..0] == [];
  }

  function AddDirs(dirs: seq<string>): seq<string> {
    seq(|dirs|, i requires 0 <= i < |dirs| => "--add-dir=" + QuoteShell(dirs[i]))
  }

  function AddDirArgs(provider: string, dirs: seq<string>): string {
    if Provider(provider) != "claude" && Provider(provider) != "codex" then "" else Join(AddDirs(Named(dirs)))
  }

  function SettingsArg(provider: string, path: string): string {
    if TrimSpace(path) == "" || Provider(provider) != "claude" then "" else "--settings=" + QuoteShell(TrimSpace(path))
  }

  const REASONING_OPTIONS: seq<string> := ["--output-format", "stream-json", "--verbose"]

  /** headlessCommandLine; None is the refusal of a provider without a known headless mode. */
  function HeadlessCommandLine(provider: string, model: string, prompt: string, settings: string,
                               dirs: seq<string>): Option<string> {
    var modelFlag := Join(ModelArgs(provider, model));
    var dirFlags := Words([AddDirArgs(provider, dirs), SettingsArg(provider, settings)]);
    var reasoning := if Provider(provider) == "claude" then Join(REASONING_OPTIONS) else "";
    if provider == "claude" then
      Some(Words(["claude", "-p", "--permission-mode", "bypassPermissions", reasoning, modelFlag, QuoteShell(prompt),
                  dirFlags]))
    else if provider == "codex" then
      Some(Words(["codex", "exec", reasoning, modelFlag, QuoteShell(prompt), dirFlags]))
    else None
  }

  // ---- the arguments meant ----

  function DirArgs(dirs: seq<string>): seq<string> {
    seq(|dirs|, i requires 0 <= i < |dirs| => "--add-dir=" + dirs[i])
  }

  function SettingsArgs(settings: string): seq<string> {
    if TrimSpace(settings) == "" then [] else ["--settings=" + TrimSpace(settings)]
  }

  function ModelWords(model: string): seq<string> {
    if TrimSpace(model) == "" then [] else ["--model", TrimSpace(model)]
  }

  function ClaudeArgs(model: string, prompt: string, settings: string, dirs: seq<string>): seq<string> {
    ["claude", "-p", "--permission-mode", "bypassPermissions"] + REASONING_OPTIONS + ModelWords(model) + [prompt]
    + (DirArgs(Named(dirs)) + SettingsArgs(settings))
  }

  function CodexArgs(model: string, prompt: string, dirs: seq<string>): seq<string> {
    ["codex", "exec"] + ModelWords(model) + [prompt] + DirArgs(Named(dirs))
  }

  predicate AllNulFree(parts: seq<string>) {
    forall i :: 0 <= i < |parts| ==> NulFree(parts[i])
  }

  lemma {:induction false} TrimNulFree(s: string)
    requires NulFree(s)
    ensures NulFree(TrimSpace(s))
  {
    TrimLeftShape(s);
    TrimRightShape(TrimLeft(s));
  }

  lemma {:induction false} NamedNulFree(dirs: seq<string>)
    requires AllNulFree(dirs)
    ensures AllNulFree(Named(dirs))
  {
    if dirs != [] {
      NamedNulFree(dirs[..|dirs| - 1]);
      TrimNulFree(dirs[|dirs| - 1]);
    }
  }

  lemma JoinMore(parts: seq<string>, part: string)
    ensures Join(parts + [part]) == if parts == [] then part else Join(parts) + " " + part
  {
    assert (parts + [part])[..|parts|] == parts;
  }

  lemma {:induction false} AddDirsRead(dirs: seq<string>)
    requires AllNulFree(dirs)
    ensures ReadsOrEmpty(Join(AddDirs(dirs)), DirArgs(dirs))
    ensures dirs != [] ==> Join(AddDirs(dirs)) != ""
  {
    if dirs != [] {
      var init, last := dirs[..|dirs| - 1], dirs[|dirs| - 1];
      var part, arg := "--add-dir=" + QuoteShell(last), "--add-dir=" + last;
      OptionReads("--add-dir", last);
      assert "--add-dir" + "=" == "--add-dir=";
      assert AddDirs(dirs) == AddDirs(init) + [part] && DirArgs(dirs) == DirArgs(init) + [arg];
      JoinMore(AddDirs(init), part);
      AddDirsRead(init);
      if init == [] {
        assert [] + [arg] == [arg];
      } else {
        ReadsMore(Join(AddDirs(init)), DirArgs(init), part, [arg]);
      }
    }
  }

  lemma ModelReads(model: string)
    requires ValidModel(model)
    ensures ReadsOrEmpty(Join(ModelWords(model)), ModelWords(model))
  {
    var m := TrimSpace(model);
    if m != "" {
      WordReads("--model");
      WordReads(m);
      ReadsMore("--model", ["--model"], m, [m]);
      assert ["--model"] + [m] == ["--model", m] && ["--model", m][..1] == ["--model"];
    }
  }

  lemma SettingsRead(settings: string)
    requires NulFree(settings)
    ensures ReadsOrEmpty(SettingsArg("claude", settings), SettingsArgs(settings))
  {
    ProviderNames();
    if TrimSpace(settings) != "" {
      TrimNulFree(settings);
      OptionReads("--settings", TrimSpace(settings));
      assert "--settings" + "=" == "--settings=";
    }
  }

  lemma ProviderNames()
    ensures Provider("claude") == "claude" && Provider("codex") == "codex"
  {
    assert TrimSpace("claude") == "claude" && TrimSpace("codex") == "codex";
    assert Lower("claude") == "claude" && Lower("codex") == "codex";
  }

  // ---- the lines read as the arguments meant ----

  lemma WordReadsFirst(s: string)
    requires PlainWord(s)
    ensures Scan(Reading([], None, Bare), s) == Pending([s])
  {
    ScanPlain([], None, s);
    assert "" + s == s;
  }

  /** Of three words only their characters matter. */
  lemma ThreeRead(x: string, y: string, z: string)
    requires PlainWord(x) && PlainWord(y) && PlainWord(z)
    ensures Reads(Join([x, y, z]), [x, y, z]) && Join([x, y, z]) != ""
  {
    WordReads(x);
    WordReads(y);
    WordReads(z);
    ReadsMore(x, [x], y, [y]);
    ReadsMore(x + " " + y, [x] + [y], z, [z]);
    assert [x] + [y] + [z] == [x, y, z];
    assert [x, y, z][..2] == [x, y] && [x, y][..1] == [x];
    assert Join([x, y]) == x + " " + y;
    assert Join([x, y, z]) == x + " " + y + " " + z;
  }

  /** Two parts, either of which may be empty, read one after the other. */
  lemma PairReads(a: string, x: seq<string>, b: string, y: seq<string>)
    requires ReadsOrEmpty(a, x) && ReadsOrEmpty(b, y)
    ensures ReadsOrEmpty(Words([a, b]), x + y)
  {
    assert [a, b][..1] == [a] && [a][..0] == [];
    assert Kept([a]) == if a != "" then [a] else [];
    assert Kept([a, b]) == if a != "" && b != "" then [a, b] else if a != "" then [a] else if b != "" then [b] else [];
    if a != "" && b != "" {
      assert Join([a, b]) == a + " " + b;
      ReadsMore(a, x, b, y);
    } else {
      assert a == "" ==> x + y == y;
      assert b == "" ==> x + y == x;
    }
  }

  lemma DirFlagsRead(provider: string, settings: string, dirs: seq<string>)
    requires provider == "claude" || provider == "codex"
    requires NulFree(settings) && AllNulFree(dirs)
    ensures ReadsOrEmpty(DirFlags(provider, settings, dirs),
                         DirArgs(Named(dirs)) + (if provider == "claude" then SettingsArgs(settings) else []))
  {
    ProviderNames();
    NamedNulFree(dirs);
    AddDirsRead(Named(dirs));
    SettingsRead(settings);
    PairReads(AddDirArgs(provider, dirs), DirArgs(Named(dirs)), SettingsArg(provider, settings),
              if provider == "claude" then SettingsArgs(settings) else []);
  }

  lemma {:induction false} FlattenFrom(first: seq<string>, parts: seq<seq<string>>)
    ensures Flatten([first] + parts) == first + Flatten(parts)
  {
    var all := [first] + parts;
    if parts == [] {
      assert all[..0] == [] && Flatten(all) == [] + first;
    } else {
      FlattenFrom(first, parts[..|parts| - 1]);
      assert all[..|parts|] == [first] + parts[..|parts| - 1];
      assert first + Flatten(parts) == first + Flatten(parts[..|parts| - 1]) + parts[|parts| - 1];
    }
  }

  lemma EightRead(w: string, x: string, y: string, z: string, reasoning: string, r: seq<string>,
                  modelFlag: string, model: seq<string>, prompt: string, dirFlags: string, dirs: seq<string>)
    requires PlainWord(w) && PlainWord(x) && PlainWord(y) && PlainWord(z)
    requires ReadsOrEmpty(reasoning, r) && ReadsOrEmpty(modelFlag, model) && NulFree(prompt)
             && ReadsOrEmpty(dirFlags, dirs)
    ensures Tokenize(Words([w, x, y, z, reasoning, modelFlag, QuoteShell(prompt), dirFlags]))
         == Some(Flatten([[w], [x], [y], [z], r, model, [prompt], dirs]))
  {
    WordReadsFirst(w);
    WordReads(x);
    WordReads(y);
    WordReads(z);
    QuotedReads(prompt);
    var parts := [w, x, y, z, reasoning, modelFlag, QuoteShell(prompt), dirFlags];
    var args := [[w], [x], [y], [z], r, model, [prompt], dirs];
    JoinReads(parts, args);
    TokenizePending(Words(parts), Flatten(args));
  }

  lemma SixRead(w: string, x: string, reasoning: string, r: seq<string>,
                modelFlag: string, model: seq<string>, prompt: string, dirFlags: string, dirs: seq<string>)
    requires PlainWord(w) && PlainWord(x)
    requires ReadsOrEmpty(reasoning, r) && ReadsOrEmpty(modelFlag, model) && NulFree(prompt)
             && ReadsOrEmpty(dirFlags, dirs)
    ensures Tokenize(Words([w, x, reasoning, modelFlag, QuoteShell(prompt), dirFlags]))
         == Some(Flatten([[w], [x], r, model, [prompt], dirs]))
  {
    WordReadsFirst(w);
    WordReads(x);
    QuotedReads(prompt);
    var parts := [w, x, reasoning, modelFlag, QuoteShell(prompt), dirFlags];
    var args := [[w], [x], r, model, [prompt], dirs];
    JoinReads(parts, args);
    TokenizePending(Words(parts), Flatten(args));
  }

  lemma FlattenFour(a: seq<string>, b: seq<string>, c: seq<string>, d: seq<string>)
    ensures Flatten([a, b, c, d]) == a + (b + (c + d))
  {
    FlattenFrom(a, [b, c, d]);
    FlattenFrom(b, [c, d]);
    FlattenFrom(c, [d]);
    FlattenFrom(d, []);
    assert [a] + [b, c, d] == [a, b, c, d] && [b] + [c, d] == [b, c, d] && [c] + [d] == [c, d] && [d] + [] == [d];
    assert d + [] == d;
  }

  lemma FlattenEight(a: seq<string>, b: seq<string>, c: seq<string>, d: seq<string>,
                     e: seq<string>, f: seq<string>, g: seq<string>, h: seq<string>)
    ensures Flatten([a, b, c, d, e, f, g, h]) == a + (b + (c + (d + (e + (f + (g + h))))))
  {
    FlattenFour(e, f, g, h);
    FlattenFrom(d, [e, f, g, h]);
    FlattenFrom(c, [d, e, f, g, h]);
    FlattenFrom(b, [c, d, e, f, g, h]);
    FlattenFrom(a, [b, c, d, e, f, g, h]);
    assert [d] + [e, f, g, h] == [d, e, f, g, h] && [c] + [d, e, f, g, h] == [c, d, e, f, g, h];
    assert [b] + [c, d, e, f, g, h] == [b, c, d, e, f, g, h] && [a] + [b, c, d, e, f, g, h] == [a, b, c, d, e, f, g, h];
  }

  lemma FlattenSix(a: seq<string>, b: seq<string>, c: seq<string>, d: seq<string>, e: seq<string>, f: seq<string>)
    ensures Flatten([a, b, c, d, e, f]) == a + (b + (c + (d + (e + f))))
  {
    FlattenFour(c, d, e, f);
    FlattenFrom(b, [c, d, e, f]);
    FlattenFrom(a, [b, c, d, e, f]);
    assert [b] + [c, d, e, f] == [b, c, d, e, f] && [a] + [b, c, d, e, f] == [a, b, c, d, e, f];
  }

  lemma FourWords(w: string, x: string, y: string, z: string, r: seq<string>, model: seq<string>, prompt: string,
                  dirs: seq<string>)
    ensures [w] + ([x] + ([y] + ([z] + (r + (model + ([prompt] + dirs))))))
         == [w, x, y, z] + r + model + [prompt] + dirs
  {
  }

  lemma TwoWords(w: string, x: string, model: seq<string>, prompt: string, dirs: seq<string>)
    ensures [w] + ([x] + ([] + (model + ([prompt] + dirs)))) == [w, x] + model + [prompt] + dirs
  {
  }

  function DirFlags(provider: string, settings: string, dirs: seq<string>): string {
    Words([AddDirArgs(provider, dirs), SettingsArg(provider, settings)])
  }

  lemma ClaudeLine(model: string, prompt: string, settings: string, dirs: seq<string>)
    ensures HeadlessCommandLine("claude", model, prompt, settings, dirs)
         == Some(Words(["claude", "-p", "--permission-mode", "bypassPermissions", Join(REASONING_OPTIONS),
                        Join(ModelWords(model)), QuoteShell(prompt), DirFlags("claude", settings, dirs)]))
  {
    ProviderNames();
    assert ModelArgs("claude", model) == ModelWords(model);
  }

  lemma CodexLine(model: string, prompt: string, settings: string, dirs: seq<string>)
    ensures HeadlessCommandLine("codex", model, prompt, settings, dirs)
         == Some(Words(["codex", "exec", "", Join(ModelWords(model)), QuoteShell(prompt),
                        DirFlags("codex", settings, dirs)]))
  {
    ProviderNames();
    assert ModelArgs("codex", model) == ModelWords(model);
  }

  lemma EightArgs(w: string, x: string, y: string, z: string, reasoning: string, r: seq<string>,
                  modelFlag: string, model: seq<string>, prompt: string, dirFlags: string, dirs: seq<string>)
    requires PlainWord(w) && PlainWord(x) && PlainWord(y) && PlainWord(z)
    requires ReadsOrEmpty(reasoning, r) && ReadsOrEmpty(modelFlag, model) && NulFree(prompt)
             && ReadsOrEmpty(dirFlags, dirs)
    ensures Tokenize(Words([w, x, y, z, reasoning, modelFlag, QuoteShell(prompt), dirFlags]))
         == Some([w, x, y, z] + r + model + [prompt] + dirs)
  {
    EightRead(w, x, y, z, reasoning, r, modelFlag, model, prompt, dirFlags, dirs);
    FlattenEight([w], [x], [y], [z], r, model, [prompt], dirs);
    FourWords(w, x, y, z, r, model, prompt, dirs);
  }

  lemma SixArgs(w: string, x: string, modelFlag: string, model: seq<string>, prompt: string, dirFlags: string,
                dirs: seq<string>)
    requires PlainWord(w) && PlainWord(x)
    requires ReadsOrEmpty(modelFlag, model) && NulFree(prompt) && ReadsOrEmpty(dirFlags, dirs)
    ensures Tokenize(Words([w, x, "", modelFlag, QuoteShell(prompt), dirFlags]))
         == Some([w, x] + model + [prompt] + dirs)
  {
    SixRead(w, x, "", [], modelFlag, model, prompt, dirFlags, dirs);
    FlattenSix([w], [x], [], model, [prompt], dirs);
    TwoWords(w, x, model, prompt, dirs);
  }

  lemma PlainNames()
    ensures PlainWord("claude") && PlainWord("-p") && PlainWord("--permission-mode") && PlainWord("bypassPermissions")
    ensures PlainWord("codex") && PlainWord("exec")
  {
  }

  lemma ReasoningReads()
    ensures ReadsOrEmpty(Join(REASONING_OPTIONS), REASONING_OPTIONS)
  {
    ThreeRead("--output-format", "stream-json", "--verbose");
  }

  /** The shell reads Claude's headless line back as exactly the arguments meant: one for the prompt, one
      for each folder that has a name, one for the settings. */
  lemma ClaudeLineRoundTrip(model: string, prompt: string, settings: string, dirs: seq<string>)
    requires ValidModel(model) && NulFree(prompt) && NulFree(settings) && AllNulFree(dirs)
    ensures HeadlessCommandLine("claude", model, prompt, settings, dirs).Some?
    ensures Tokenize(HeadlessCommandLine("claude", model, prompt, settings, dirs).value)
         == Some(ClaudeArgs(model, prompt, settings, dirs))
  {
    ClaudeLine(model, prompt, settings, dirs);
    ModelReads(model);
    DirFlagsRead("claude", settings, dirs);
    PlainNames();
    ReasoningReads();
    EightArgs("claude", "-p", "--permission-mode", "bypassPermissions", Join(REASONING_OPTIONS), REASONING_OPTIONS,
              Join(ModelWords(model)), ModelWords(model), prompt, DirFlags("claude", settings, dirs),
                  DirArgs(Named(dirs)) + SettingsArgs(settings));
  }

  /** And Codex's. */
  lemma CodexLineRoundTrip(model: string, prompt: string, settings: string, dirs: seq<string>)
    requires ValidModel(model) && NulFree(prompt) && NulFree(settings) && AllNulFree(dirs)
    ensures HeadlessCommandLine("codex", model, prompt, settings, dirs).Some?
    ensures Tokenize(HeadlessCommandLine("codex", model, prompt, settings, dirs).value)
         == Some(CodexArgs(model, prompt, dirs))
  {
    CodexLine(model, prompt, settings, dirs);
    ModelReads(model);
    DirFlagsRead("codex", settings, dirs);
    PlainNames();
    assert DirArgs(Named(dirs)) + [] == DirArgs(Named(dirs));
    SixArgs("codex", "exec", Join(ModelWords(model)), ModelWords(model), prompt, DirFlags("codex", settings, dirs),
            DirArgs(Named(dirs)));
  }

  // ---- the launcher around a line ----

  /** The line a terminal runs: the agent, given the provider's line as one argument. */
  function LauncherLine(binary: string, endpoint: string, token: string, command: string): string {
    QuoteShell(binary) + " agent-exec --url " + QuoteShell(endpoint) + " --token " + QuoteShell(token)
    + " --command " + QuoteShell(command)
  }

  lemma FirstQuoted(s: string)
    requires NulFree(s)
    ensures Scan(Reading([], None, Bare), QuoteShell(s)) == Pending([s])
  {
    ScanQuoted([], None, s);
    assert "" + s == s;
  }

  /** An option and its quoted value continue a line by two words. */
  lemma ScanOptionValue(args: seq<string>, line: string, option: string, value: string)
    requires args != [] && PlainWord(option) && NulFree(value)
    requires Scan(Reading([], None, Bare), line) == Pending(args)
    ensures Scan(Reading([], None, Bare), line + " " + option + " " + QuoteShell(value))
         == Pending(args + [option, value])
  {
    WordReads(option);
    QuotedReads(value);
    ScanNext(args, line, option, [option]);
    ScanNext(args + [option], line + " " + option, QuoteShell(value), [value]);
    assert args + [option] + [value] == args + [option, value];
  }

  lemma LauncherReads(binary: string, name: string, u: string, endpoint: string, t: string, token: string, c: string,
                      command: string)
    requires NulFree(binary) && NulFree(endpoint) && NulFree(token) && NulFree(command)
    requires PlainWord(name) && PlainWord(u) && PlainWord(t) && PlainWord(c)
    ensures Tokenize(QuoteShell(binary) + " " + name + " " + u + " " + QuoteShell(endpoint)
                     + " " + t + " " + QuoteShell(token)
                     + " " + c + " " + QuoteShell(command))
         == Some([binary, name] + [u, endpoint] + [t, token] + [c, command])
  {
    FirstQuoted(binary);
    WordReads(name);
    var line, args := QuoteShell(binary) + " " + name, [binary] + [name];
    ScanNext([binary], QuoteShell(binary), name, [name]);
    ScanOptionValue(args, line, u, endpoint);
    line, args := line + " " + u + " " + QuoteShell(endpoint), args + [u, endpoint];
    ScanOptionValue(args, line, t, token);
    line, args := line + " " + t + " " + QuoteShell(token), args + [t, token];
    ScanOptionValue(args, line, c, command);
    TokenizePending(line + " " + c + " " + QuoteShell(command), args + [c, command]);
    assert [binary] + [name] == [binary, name];
  }

  lemma LauncherLiterals()
    ensures PlainWord("agent-exec") && PlainWord("--url") && PlainWord("--token") && PlainWord("--command")
    ensures forall x :: x + " agent-exec --url " == x + " " + "agent-exec" + " " + "--url" + " "
    ensures forall x :: x + " --token " == x + " " + "--token" + " "
    ensures forall x :: x + " --command " == x + " " + "--command" + " "
  {
    assert " agent-exec --url " == " " + "agent-exec" + " " + "--url" + " ";
    assert " --token " == " " + "--token" + " ";
    assert " --command " == " " + "--command" + " ";
  }

  /** A line passed through the launcher, quoted again, reaches the agent unchanged. */
  lemma LauncherRoundTrip(binary: string, endpoint: string, token: string, command: string)
    requires NulFree(binary) && NulFree(endpoint) && NulFree(token) && NulFree(command)
    ensures Tokenize(LauncherLine(binary, endpoint, token, command))
         == Some([binary, "agent-exec"] + ["--url", endpoint] + ["--token", token] + ["--command", command])
  {
    LauncherLiterals();
    LauncherReads(binary, "agent-exec", "--url", endpoint, "--token", token, "--command", command);
  }
}
