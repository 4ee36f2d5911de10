/**
  The remote command builder of src/symphony/ssh/worker.py: quote every token, render one line, re-parse it. Two
  parsers are modelled: Python's `shlex.split`, which the code runs, and token recognition with quote removal as in
  sections 2.2, 2.3 and 2.6.7 of the POSIX.1-2017 Shell Command Language, which the remote shell runs.
 */
module RemoteCommand {
  import opened Options

  /** Only `And` is emitted verbatim; a word spelled "&&" is data. */
  datatype Token = Word(text: string) | And

  datatype BuildError = NoTokens | CannotBeQuoted | DoesNotParse | DoesNotMatch

  datatype Built = Line(line: string) | Failed(error: BuildError)

  // ---- Quoting ----

  predicate Quotable(value: string)
  {
    '\0' !in value && '\n' !in value && '\r' !in value
  }

  predicate IsSafe(c: char)
  {
    || 'a' <= c <= 'z' || 'A' <= c <= 'Z' || '0' <= c <= '9'
    || c == '_' || c == '@' || c == '%' || c == '+' || c == '=' || c == ':' || c == ',' || c == '.'
    || c == '/' || c == '-'
  }

  predicate AllSafe(value: string)
  {
    forall c :: c in value ==> IsSafe(c)
  }

  /** Each single quote closes the quoting, stands between double quotes, and reopens it. */
  function Escape(value: string): string
  {
    if value == "" then ""
    else (if value[0] == '\'' then "'\"'\"'" else [value[0]]) + Escape(value[1..])
  }

  /** `shlex.quote`. */
  function Quote(value: string): string
  {
    if value == "" then "''"
    else if AllSafe(value) then value
    else "'" + Escape(value) + "'"
  }

  function TextOf(t: Token): string { if t.And? then "&&" else t.text }

  function RenderToken(t: Token): string { if t.And? then "&&" else Quote(t.text) }

  function Render(tokens: seq<Token>): string
  {
    if tokens == [] then ""
    else if |tokens| == 1 then RenderToken(tokens[0])
    else RenderToken(tokens[0]) + " " + Render(tokens[1..])
  }

  function Texts(tokens: seq<Token>): seq<string>
  {
    if tokens == [] then [] else [TextOf(tokens[0])] + Texts(tokens[1..])
  }

  predicate AllQuotable(tokens: seq<Token>)
  {
    forall t :: t in tokens && t.Word? ==> Quotable(t.text)
  }

  // ---- shlex.split ----

  datatype Mode = Between | InWord | Single | Double | Escaped | EscapedInDouble | InOperator

  function Prepend<T>(x: T, xs: Option<seq<T>>): Option<seq<T>>
  {
    if xs.None? then None else Some([x] + xs.value)
  }

  /** The state machine of `shlex` in POSIX mode with `whitespace_split`; None is its ValueError. */
  function Shlex(line: string, mode: Mode, cur: string, quoted: bool): Option<seq<string>>
    requires mode != InOperator
    decreases |line|
  {
    if line == "" then
      if mode != Between && mode != InWord then None
      else Some(if cur != "" || quoted then [cur] else [])
    else
      var c, rest := line[0], line[1..];
      match mode
      case Between =>
        if IsShlexSpace(c) then Shlex(rest, Between, cur, quoted)
        else if c == '\\' then Shlex(rest, Escaped, cur, quoted)
        else if c == '\'' then Shlex(rest, Single, cur, true)
        else if c == '"' then Shlex(rest, Double, cur, true)
        else Shlex(rest, InWord, [c], quoted)
      case InWord =>
        if IsShlexSpace(c) then
          if cur != "" || quoted then Prepend(cur, Shlex(rest, Between, "", false))
          else Shlex(rest, Between, cur, quoted)
        else if c == '\'' then Shlex(rest, Single, cur, true)
        else if c == '"' then Shlex(rest, Double, cur, true)
        else if c == '\\' then Shlex(rest, Escaped, cur, quoted)
        else Shlex(rest, InWord, cur + [c], quoted)
      case Single =>
        if c == '\'' then Shlex(rest, InWord, cur, quoted) else Shlex(rest, Single, cur + [c], quoted)
      case Double =>
        if c == '"' then Shlex(rest, InWord, cur, quoted)
        else if c == '\\' then Shlex(rest, EscapedInDouble, cur, quoted)
        else Shlex(rest, Double, cur + [c], quoted)
      case Escaped => Shlex(rest, InWord, cur + [c], quoted)
      case EscapedInDouble =>
        Shlex(rest, Double, cur + (if c == '\\' || c == '"' then [c] else ['\\', c]), quoted)
  }

  function ShlexSplit(line: string): Option<seq<string>> { Shlex(line, Between, "", false) }

  // ---- The remote shell ----

  datatype ShellToken = ShellWord(text: string) | ShellOperator(text: string)

  predicate StartsOperator(c: char)
  {
    c == '&' || c == '|' || c == ';' || c == '<' || c == '>' || c == '(' || c == ')' || c == '\n'
  }

  predicate IsShlexSpace(c: char) { c == ' ' || c == '\t' || c == '\r' || c == '\n' }

  /** The two- and three-character operators of the shell grammar. */
  predicate Extends(op: string, c: char)
  {
    || (op == "&" && c == '&') || (op == "|" && c == '|') || (op == ";" && c == ';')
    || (op == "<" && (c == '<' || c == '&' || c == '>')) || (op == ">" && (c == '>' || c == '&' || c == '|'))
    || (op == "<<" && c == '-')
  }

  /** Token recognition; None is an unterminated quote, or an expansion, which is outside this model. */
  function Shell(line: string, mode: Mode, cur: string): Option<seq<ShellToken>>
    decreases |line|, if mode == InOperator then 1 else 0
  {
    if line == "" then
      match mode
      case Between => Some([])
      case InWord => Some([ShellWord(cur)])
      case InOperator => Some([ShellOperator(cur)])
      case _ => None
    else
      var c, rest := line[0], line[1..];
      match mode
      case InOperator =>
        if Extends(cur, c) then Shell(rest, InOperator, cur + [c])
        else Prepend(ShellOperator(cur), Shell(line, Between, ""))
      case Between =>
        if c == '\\' then Shell(rest, Escaped, "")
        else if c == '\'' then Shell(rest, Single, "")
        else if c == '"' then Shell(rest, Double, "")
        else if c == '$' || c == '`' then None
        else if StartsOperator(c) then Shell(rest, InOperator, [c])
        else if c == ' ' || c == '\t' then Shell(rest, Between, "")
        else if c == '#' then Shell(AfterComment(rest), Between, "")
        else Shell(rest, InWord, [c])
      case InWord =>
        if c == '\\' then Shell(rest, Escaped, cur)
        else if c == '\'' then Shell(rest, Single, cur)
        else if c == '"' then Shell(rest, Double, cur)
        else if c == '$' || c == '`' then None
        else if StartsOperator(c) then Prepend(ShellWord(cur), Shell(rest, InOperator, [c]))
        else if c == ' ' || c == '\t' then Prepend(ShellWord(cur), Shell(rest, Between, ""))
        else Shell(rest, InWord, cur + [c])
      case Single =>
        if c == '\'' then Shell(rest, InWord, cur) else Shell(rest, Single, cur + [c])
      case Double =>
        if c == '"' then Shell(rest, InWord, cur)
        else if c == '\\' then Shell(rest, EscapedInDouble, cur)
        else if c == '$' || c == '`' then None
        else Shell(rest, Double, cur + [c])
      case Escaped =>
        if c == '\n' then Shell(rest, if cur == "" then Between else InWord, cur)
        else Shell(rest, InWord, cur + [c])
      case EscapedInDouble =>
        if c == '\n' then Shell(rest, Double, cur)
        else Shell(rest, Double, cur + (if c == '$' || c == '`' || c == '"' || c == '\\' then [c] else ['\\', c]))
  }

  function AfterComment(line: string): (r: string)
    ensures |r| <= |line|
  {
    if line == "" || line[0] == '\n' then line else AfterComment(line[1..])
  }

  function ShellTokenize(line: string): Option<seq<ShellToken>> { Shell(line, Between, "") }

  function ShellTokens(tokens: seq<Token>): seq<ShellToken>
  {
    if tokens == [] then []
    else [ShellTokenOf(tokens[0])] + ShellTokens(tokens[1..])
  }

  // ---- The builder ----

  function BuildRemoteCommand(tokens: seq<Token>): Built
  {
    if tokens == [] then Failed(NoTokens)
    else if !AllQuotable(tokens) then Failed(CannotBeQuoted)
    else
      var rendered := Render(tokens);
      var reparsed := ShlexSplit(rendered);
      if reparsed.None? then Failed(DoesNotParse)
      else if reparsed.value != Texts(tokens) then Failed(DoesNotMatch)
      else Line(rendered)
  }

  // ---- Reading back what was quoted ----

  lemma {:induction false} ShlexReadsSafe(value: string, rest: string, cur: string, quoted: bool)
    requires AllSafe(value)
    ensures Shlex(value + rest, InWord, cur, quoted) == Shlex(rest, InWord, cur + value, quoted)
    decreases |value|
  {
    if value == "" {
      assert value + rest == rest && cur + value == cur;
    } else {
      assert (value + rest)[1..] == value[1..] + rest;
      assert cur + [value[0]] + value[1..] == cur + value;
      assert IsSafe(value[0]);
      ShlexReadsSafe(value[1..], rest, cur + [value[0]], quoted);
    }
  }

  lemma EscapeUnfolds(value: string, rest: string)
    requires value != ""
    ensures var tail := Escape(value[1..]) + "'" + rest;
            Escape(value) + "'" + rest == (if value[0] == '\'' then "'\"'\"'" else [value[0]]) + tail
  {
  }

  lemma {:induction false} ShlexReadsEscaped(value: string, rest: string, cur: string)
    ensures Shlex(Escape(value) + "'" + rest, Single, cur, true) == Shlex(rest, InWord, cur + value, true)
    decreases |value|
  {
    var tail := Escape(value[if value == "" then 0 else 1..]) + "'" + rest;
    if value == "" {
      assert Escape(value) + "'" + rest == "'" + rest;
      assert ("'" + rest)[1..] == rest;
      assert cur + value == cur;
    } else {
      assert cur + [value[0]] + value[1..] == cur + value;
      ShlexReadsEscaped(value[1..], rest, cur + [value[0]]);
      EscapeUnfolds(value, rest);
      if value[0] == '\'' {
        ShlexReadsQuotedQuote(tail, cur);
      } else {
        assert ([value[0]] + tail)[1..] == tail;
      }
    }
  }

  lemma ShlexReadsQuotedQuote(tail: string, cur: string)
    ensures Shlex("'\"'\"'" + tail, Single, cur, true) == Shlex(tail, Single, cur + "'", true)
  {
    var a, b, c, d := "\"'\"'" + tail, "'\"'" + tail, "\"'" + tail, "'" + tail;
    assert ("'\"'\"'" + tail)[1..] == a && a[1..] == b && b[1..] == c && c[1..] == d && d[1..] == tail;
    assert Shlex(a, InWord, cur, true) == Shlex(b, Double, cur, true);
    assert Shlex(b, Double, cur, true) == Shlex(c, Double, cur + "'", true);
    assert Shlex(c, Double, cur + "'", true) == Shlex(d, InWord, cur + "'", true);
  }

  predicate IsQuoted(t: Token) { t.Word? && (t.text == "" || !AllSafe(t.text)) }

  lemma ShlexReadsQuoted(value: string, rest: string)
    ensures Shlex("'" + Escape(value) + "'" + rest, Between, "", false) == Shlex(rest, InWord, value, true)
  {
    var tail := Escape(value) + "'" + rest;
    assert "'" + Escape(value) + "'" + rest == "'" + tail;
    assert ("'" + tail)[0] == '\'' && ("'" + tail)[1..] == tail;
    ShlexReadsEscaped(value, rest, "");
    assert "" + value == value;
  }

  lemma ShlexReadsBare(value: string, rest: string)
    requires value != "" && AllSafe(value)
    ensures Shlex(value + rest, Between, "", false) == Shlex(rest, InWord, value, false)
  {
    assert (value + rest)[0] == value[0] && (value + rest)[1..] == value[1..] + rest;
    assert IsSafe(value[0]);
    ShlexReadsSafe(value[1..], rest, [value[0]], false);
    assert [value[0]] + value[1..] == value;
  }

  lemma ShlexReadsAnd(rest: string)
    ensures Shlex("&&" + rest, Between, "", false) == Shlex(rest, InWord, "&&", false)
  {
    assert ("&&" + rest)[1..] == "&" + rest && ("&" + rest)[1..] == rest;
    assert ("&" + rest)[0] == '&' && ("&&" + rest)[0] == '&';
    assert "&" + ['&'] == "&&";
    assert Shlex("&&" + rest, Between, "", false) == Shlex("&" + rest, InWord, "&", false);
  }

  /** A rendered token is read back whole, whatever follows it. */
  lemma ShlexReadsToken(t: Token, rest: string)
    ensures Shlex(RenderToken(t) + rest, Between, "", false) == Shlex(rest, InWord, TextOf(t), IsQuoted(t))
  {
    if t.And? {
      ShlexReadsAnd(rest);
    } else if t.text == "" {
      assert "''" == "'" + Escape("") + "'";
      ShlexReadsQuoted("", rest);
    } else if AllSafe(t.text) {
      ShlexReadsBare(t.text, rest);
    } else {
      ShlexReadsQuoted(t.text, rest);
    }
  }

  /** The line splits back into exactly the tokens it was rendered from. */
  lemma {:induction false} ShlexInvertsRender(tokens: seq<Token>)
    ensures ShlexSplit(Render(tokens)) == Some(Texts(tokens))
  {
    if tokens != [] {
      var t := tokens[0];
      assert TextOf(t) != "" || IsQuoted(t);
      if |tokens| == 1 {
        assert RenderToken(t) + "" == RenderToken(t);
        ShlexReadsToken(t, "");
        assert Texts(tokens) == [TextOf(t)];
      } else {
        var next := Render(tokens[1..]);
        assert Render(tokens) == RenderToken(t) + (" " + next);
        assert (" " + next)[0] == ' ' && (" " + next)[1..] == next;
        ShlexReadsToken(t, " " + next);
        ShlexInvertsRender(tokens[1..]);
        assert Shlex(" " + next, InWord, TextOf(t), IsQuoted(t)) == Prepend(TextOf(t), Shlex(next, Between, "", false));
      }
    }
  }

  lemma {:induction false} ShellReadsSafe(value: string, rest: string, cur: string)
    requires AllSafe(value)
    ensures Shell(value + rest, InWord, cur) == Shell(rest, InWord, cur + value)
    decreases |value|
  {
    if value == "" {
      assert value + rest == rest && cur + value == cur;
    } else {
      assert (value + rest)[1..] == value[1..] + rest;
      assert cur + [value[0]] + value[1..] == cur + value;
      assert IsSafe(value[0]);
      ShellReadsSafe(value[1..], rest, cur + [value[0]]);
    }
  }

  lemma {:induction false} ShellReadsEscaped(value: string, rest: string, cur: string)
    ensures Shell(Escape(value) + "'" + rest, Single, cur) == Shell(rest, InWord, cur + value)
    decreases |value|
  {
    var tail := Escape(value[if value == "" then 0 else 1..]) + "'" + rest;
    if value == "" {
      assert Escape(value) + "'" + rest == "'" + rest;
      assert ("'" + rest)[1..] == rest;
      assert cur + value == cur;
    } else {
      assert cur + [value[0]] + value[1..] == cur + value;
      ShellReadsEscaped(value[1..], rest, cur + [value[0]]);
      EscapeUnfolds(value, rest);
      if value[0] == '\'' {
        ShellReadsQuotedQuote(tail, cur);
      } else {
        assert ([value[0]] + tail)[1..] == tail;
      }
    }
  }

  lemma ShellReadsQuotedQuote(tail: string, cur: string)
    ensures Shell("'\"'\"'" + tail, Single, cur) == Shell(tail, Single, cur + "'")
  {
    var a, b, c, d := "\"'\"'" + tail, "'\"'" + tail, "\"'" + tail, "'" + tail;
    assert ("'\"'\"'" + tail)[1..] == a && a[1..] == b && b[1..] == c && c[1..] == d && d[1..] == tail;
    assert Shell(a, InWord, cur) == Shell(b, Double, cur);
    assert Shell(b, Double, cur) == Shell(c, Double, cur + "'");
    assert Shell(c, Double, cur + "'") == Shell(d, InWord, cur + "'");
  }

  lemma ShellReadsQuoted(value: string, rest: string)
    ensures Shell("'" + Escape(value) + "'" + rest, Between, "") == Shell(rest, InWord, value)
  {
    var tail := Escape(value) + "'" + rest;
    assert "'" + Escape(value) + "'" + rest == "'" + tail;
    assert ("'" + tail)[0] == '\'' && ("'" + tail)[1..] == tail;
    ShellReadsEscaped(value, rest, "");
    assert "" + value == value;
  }

  lemma ShellStartsWord(c: char, tail: string)
    requires IsSafe(c)
    ensures Shell([c] + tail, Between, "") == Shell(tail, InWord, [c])
  {
    assert ([c] + tail)[0] == c && ([c] + tail)[1..] == tail;
  }

  lemma ShellReadsBare(value: string, rest: string)
    requires value != "" && AllSafe(value)
    ensures Shell(value + rest, Between, "") == Shell(rest, InWord, value)
  {
    var c, tail := value[0], value[1..] + rest;
    assert value + rest == [c] + tail;
    assert IsSafe(c);
    ShellStartsWord(c, tail);
    ShellReadsSafe(value[1..], rest, [c]);
    assert [c] + value[1..] == value;
  }

  lemma ShellReadsWord(value: string, rest: string)
    ensures Shell(Quote(value) + rest, Between, "") == Shell(rest, InWord, value)
  {
    if value == "" {
      assert "''" == "'" + Escape("") + "'";
      ShellReadsQuoted("", rest);
    } else if AllSafe(value) {
      ShellReadsBare(value, rest);
    } else {
      ShellReadsQuoted(value, rest);
    }
  }

  lemma ShellReadsAnd(rest: string)
    ensures Shell("&&" + rest, Between, "") == Shell(rest, InOperator, "&&")
  {
    assert ("&&" + rest)[1..] == "&" + rest && ("&" + rest)[1..] == rest;
    assert ("&" + rest)[0] == '&' && ("&&" + rest)[0] == '&';
    assert "&" + ['&'] == "&&";
    assert Shell("&&" + rest, Between, "") == Shell("&" + rest, InOperator, "&");
  }

  /** A blank ends the token before it. */
  lemma BlankDelimits(next: string, cur: string)
    ensures Shell(" " + next, InWord, cur) == Prepend(ShellWord(cur), Shell(next, Between, ""))
    ensures Shell(" " + next, InOperator, "&&") == Prepend(ShellOperator("&&"), Shell(next, Between, ""))
  {
    assert (" " + next)[0] == ' ' && (" " + next)[1..] == next;
    assert Shell(" " + next, Between, "") == Shell(next, Between, "");
  }

  /** The remote shell sees the same tokens, with an operator exactly where one was meant. */
  lemma {:induction false} ShellInvertsRender(tokens: seq<Token>)
    ensures ShellTokenize(Render(tokens)) == Some(ShellTokens(tokens))
  {
    if tokens != [] {
      var t := tokens[0];
      var next := Render(tokens[1..]);
      var rest := if |tokens| > 1 then " " + next else "";
      assert Render(tokens) == RenderToken(t) + rest;
      if t.And? {
        ShellReadsAnd(rest);
      } else {
        ShellReadsWord(t.text, rest);
      }
      if |tokens| > 1 {
        BlankDelimits(next, TextOf(t));
        ShellInvertsRender(tokens[1..]);
      } else {
        assert ShellTokens(tokens) == [ShellTokenOf(t)];
      }
    }
  }

  // ---- Main results ----

  /** The builder fails only on an empty token list or an unquotable word: the re-parse never rejects its own line. */
  lemma BuildSucceedsIffQuotable(tokens: seq<Token>)
    ensures BuildRemoteCommand(tokens)
         == if tokens == [] then Failed(NoTokens)
            else if !AllQuotable(tokens) then Failed(CannotBeQuoted)
            else Line(Render(tokens))
  {
    ShlexInvertsRender(tokens);
  }

  lemma {:induction false} ShellTokensInjective(a: seq<Token>, b: seq<Token>)
    requires ShellTokens(a) == ShellTokens(b)
    ensures a == b
  {
    if a != [] && b != [] {
      assert ShellTokens(a)[1..] == ShellTokens(a[1..]) && ShellTokens(b)[1..] == ShellTokens(b[1..]);
      assert ShellTokens(a)[0] == ShellTokens(b)[0];
      ShellTokensInjective(a[1..], b[1..]);
    }
  }

  /** Two command lines are equal only when they carry the same tokens, operators included. */
  lemma RenderIsInjective(a: seq<Token>, b: seq<Token>)
    requires Render(a) == Render(b)
    ensures a == b
  {
    ShellInvertsRender(a);
    ShellInvertsRender(b);
    ShellTokensInjective(a, b);
  }

  /** `cd -- <workspace> && exec bash -lc <command>`. */
  function LaunchTokens(workspace: string, command: string): seq<Token>
  {
    [Word("cd"), Word("--"), Word(workspace), And, Word("exec"), Word("bash"), Word("-lc"), Word(command)]
  }

  /** Every line the builder returns is read by the remote shell as the tokens it was asked for. */
  lemma BuiltLineMeansItsTokens(tokens: seq<Token>)
    requires tokens != [] && AllQuotable(tokens)
    ensures var built := BuildRemoteCommand(tokens);
            built.Line? && ShellTokenize(built.line) == Some(ShellTokens(tokens))
  {
    BuildSucceedsIffQuotable(tokens);
    ShellInvertsRender(tokens);
  }

  lemma LaunchTokensAreQuotable(workspace: string, command: string)
    requires Quotable(workspace) && Quotable(command)
    ensures AllQuotable(LaunchTokens(workspace, command))
  {
    assert Quotable("cd") && Quotable("--") && Quotable("exec");
    assert Quotable("bash") && Quotable("-lc");
    forall i | 0 <= i < 8 && LaunchTokens(workspace, command)[i].Word?
      ensures Quotable(LaunchTokens(workspace, command)[i].text) {
    }
  }

  lemma LaunchTokensAre(workspace: string, command: string)
    ensures ShellTokens(LaunchTokens(workspace, command)) == LaunchMeaning(workspace, command)
  {
    var cd := [Word("cd"), Word("--"), Word(workspace), And];
    var run := [Word("exec"), Word("bash"), Word("-lc"), Word(command)];
    assert LaunchTokens(workspace, command) == cd + run;
    ShellTokensConcat(cd, run);
    FourTokens(Word("cd"), Word("--"), Word(workspace), And);
    FourTokens(Word("exec"), Word("bash"), Word("-lc"), Word(command));
  }

  function LaunchMeaning(workspace: string, command: string): seq<ShellToken>
  {
    [ShellWord("cd"), ShellWord("--"), ShellWord(workspace), ShellOperator("&&"),
     ShellWord("exec"), ShellWord("bash"), ShellWord("-lc"), ShellWord(command)]
  }

  /** Whatever the path and the command spell, the launch line has one operator, and both arrive as single words. */
  lemma LaunchLineMeansWhatItSays(tokens: seq<Token>, workspace: string, command: string)
    requires Quotable(workspace) && Quotable(command) && tokens == LaunchTokens(workspace, command)
    ensures var built := BuildRemoteCommand(tokens);
            built.Line? && ShellTokenize(built.line) == Some(LaunchMeaning(workspace, command))
  {
    LaunchTokensAreQuotable(workspace, command);
    LaunchTokensAre(workspace, command);
    BuiltLineMeansItsTokens(tokens);
  }

  function ShellTokenOf(t: Token): ShellToken
  {
    if t.And? then ShellOperator("&&") else ShellWord(t.text)
  }

  lemma FourTokens(a: Token, b: Token, c: Token, d: Token)
    ensures ShellTokens([a, b, c, d]) == [ShellTokenOf(a), ShellTokenOf(b), ShellTokenOf(c), ShellTokenOf(d)]
  {
    assert [a, b, c, d][1..] == [b, c, d] && [b, c, d][1..] == [c, d] && [c, d][1..] == [d] && [d][1..] == [];
    assert ShellTokens([d]) == [ShellTokenOf(d)];
    assert ShellTokens([c, d]) == [ShellTokenOf(c), ShellTokenOf(d)];
  }

  lemma {:induction false} ShellTokensConcat(a: seq<Token>, b: seq<Token>)
    ensures ShellTokens(a + b) == ShellTokens(a) + ShellTokens(b)
  {
    if a == [] {
      assert a + b == b;
    } else {
      assert (a + b)[1..] == a[1..] + b;
      ShellTokensConcat(a[1..], b);
    }
  }

  // ---- One line ----

  /** No character that ends a line or a C string. */
  predicate OneLine(text: string)
  {
    forall i :: 0 <= i < |text| ==> text[i] != '\0' && text[i] != '\n' && text[i] != '\r'
  }

  lemma OneLineConcat(a: string, b: string)
    ensures OneLine(a + b) <==> OneLine(a) && OneLine(b)
  {
    if OneLine(a + b) {
      assert forall i :: 0 <= i < |a| ==> a[i] == (a + b)[i];
      assert forall i :: 0 <= i < |b| ==> b[i] == (a + b)[|a| + i];
    }
  }

  lemma {:induction false} EscapeIsOneLine(value: string)
    ensures OneLine(Escape(value)) <==> OneLine(value)
  {
    if value != "" {
      EscapeIsOneLine(value[1..]);
      var head := if value[0] == '\'' then "'\"'\"'" else [value[0]];
      OneLineConcat(head, Escape(value[1..]));
      OneLineConcat([value[0]], value[1..]);
      assert [value[0]] + value[1..] == value;
      assert OneLine(head) <==> OneLine([value[0]]) by { assert [value[0]][0] == value[0] && head[0] == value[0]; }
    }
  }

  lemma QuoteIsOneLine(value: string)
    ensures OneLine(Quote(value)) <==> OneLine(value)
  {
    EscapeIsOneLine(value);
    OneLineConcat("'", Escape(value));
    OneLineConcat("'" + Escape(value), "'");
  }

  /** Every word is free of line ends and of the null character. */
  ghost predicate WordsAreLines(tokens: seq<Token>)
  {
    forall k :: 0 <= k < |tokens| && tokens[k].Word? ==> OneLine(tokens[k].text)
  }

  lemma {:induction false} RenderIsOneLine(tokens: seq<Token>)
    ensures OneLine(Render(tokens)) <==> WordsAreLines(tokens)
  {
    if tokens != [] {
      if tokens[0].Word? {
        QuoteIsOneLine(tokens[0].text);
      }
      assert OneLine(RenderToken(tokens[0])) <==> tokens[0].Word? ==> OneLine(tokens[0].text);
      RenderIsOneLine(tokens[1..]);
      OneLineConcat(RenderToken(tokens[0]), " ");
      OneLineConcat(RenderToken(tokens[0]) + " ", Render(tokens[1..]));
      FirstWordIsLine(tokens[0], tokens[1..]);
      assert tokens == [tokens[0]] + tokens[1..];
    }
  }

  lemma FirstWordIsLine(t: Token, later: seq<Token>)
    ensures WordsAreLines([t] + later) <==> (t.Word? ==> OneLine(t.text)) && WordsAreLines(later)
  {
    var tokens := [t] + later;
    assert tokens[0] == t && forall k :: 0 <= k < |later| ==> later[k] == tokens[k + 1];
  }

  /** A command is built exactly when no word would break the line, and what is built is one line. */
  lemma BuiltIsOneLine(tokens: seq<Token>)
    ensures BuildRemoteCommand(tokens).Line? <==> tokens != [] && WordsAreLines(tokens)
    ensures BuildRemoteCommand(tokens).Line? ==> OneLine(BuildRemoteCommand(tokens).line)
  {
    BuildSucceedsIffQuotable(tokens);
    RenderIsOneLine(tokens);
    assert AllQuotable(tokens) <==> WordsAreLines(tokens);
  }
}
