/** `shellQuote` and `_buildExecCommand` (packages/kaos/src/ssh.ts), read back by a POSIX shell. */
module SshCommand {
  import opened Wrappers
  import opened PosixShell

  // ---------- the source's side ----------

  predicate IsSafe(c: char) {
    || 'A' <= c <= 'Z' || 'a' <= c <= 'z' || '0' <= c <= '9'
    || c == '_' || c == '.' || c == '/' || c == ':' || c == '=' || c == '@'
    || c == '%' || c == '^' || c == ',' || c == '+' || c == '-'
  }

  predicate AllSafe(s: string) {
    forall k | 0 <= k < |s| :: IsSafe(s[k])
  }

  /** `arg.replaceAll("'", "'\"'\"'")` */
  function ReplaceQuotes(arg: string): string {
    if arg == [] then []
    else (if arg[0] == '\'' then "'\"'\"'" else [arg[0]]) + ReplaceQuotes(arg[1..])
  }

  function ShellQuote(arg: string): string {
    if arg == "" then "''"
    else if AllSafe(arg) then arg
    else "'" + ReplaceQuotes(arg) + "'"
  }

  function Join(pieces: seq<string>): string {
    if pieces == [] then ""
    else if |pieces| == 1 then pieces[0]
    else pieces[0] + " " + Join(pieces[1..])
  }

  function QuoteAll(args: seq<string>): (r: seq<string>)
    ensures |r| == |args|
  {
    if args == [] then [] else [ShellQuote(args[0])] + QuoteAll(args[1..])
  }

  type Env = seq<(string, string)>

  datatype EnvError = InvalidName(name: string)

  function Assignments(env: Env): (r: seq<string>)
    ensures |r| == |env|
  {
    if env == [] then [] else [env[0].0 + "=" + ShellQuote(env[0].1)] + Assignments(env[1..])
  }

  function WithEnv(args: seq<string>, env: Env): string {
    var command := Join(QuoteAll(args));
    if env == [] then command else Join(Assignments(env)) + " " + command
  }

  /** The command line that is sent. */
  function Command(args: seq<string>, cwd: string, env: Env): string {
    if cwd == "" then WithEnv(args, env) else "cd " + ShellQuote(cwd) + " && " + WithEnv(args, env)
  }

  ghost predicate NamesValid(env: Env) {
    forall k | 0 <= k < |env| :: IsName(env[k].0)
  }

  lemma {:induction false} AssignmentsConcat(a: Env, b: Env)
    ensures Assignments(a + b) == Assignments(a) + Assignments(b)
  {
    if a == [] {
      assert a + b == b;
    } else {
      assert (a + b)[1..] == a[1..] + b;
      AssignmentsConcat(a[1..], b);
    }
  }

  /** `_buildExecCommand`; the first invalid variable name is reported. */
  method BuildExecCommand(args: seq<string>, cwd: string, env: Option<Env>) returns (r: Result<string, EnvError>)
    ensures r.Ok? <==> env.None? || NamesValid(env.value)
    ensures r.Ok? ==> r.value == Command(args, cwd, if env.None? then [] else env.value)
    ensures r.Err? ==> exists k :: 0 <= k < |env.value| && r.error == InvalidName(env.value[k].0)
                                   && !IsName(env.value[k].0) && NamesValid(env.value[..k])
  {
    var command := Join(QuoteAll(args));
    if env.Some? {
      var entries := env.value;
      var assignments: seq<string> := [];
      var i := 0;
      while i < |entries|
        invariant i <= |entries| && NamesValid(entries[..i])
        invariant assignments == Assignments(entries[..i])
      {
        if !IsName(entries[i].0) {
          return Err(InvalidName(entries[i].0));
        }
        AssignmentsConcat(entries[..i], [entries[i]]);
        assert entries[..i + 1] == entries[..i] + [entries[i]];
        assignments := assignments + [entries[i].0 + "=" + ShellQuote(entries[i].1)];
        i := i + 1;
      }
      assert entries[..i] == entries;
      if |assignments| > 0 {
        command := Join(assignments) + " " + command;
      }
    }
    if cwd != "" {
      command := "cd " + ShellQuote(cwd) + " && " + command;
    }
    r := Ok(command);
  }

  // ---------- the words a shell should see ----------

  function Mark(s: string, quoted: bool): (r: seq<WordChar>)
    ensures |r| == |s| && forall k | 0 <= k < |s| :: r[k] == WordChar(s[k], quoted)
  {
    if s == [] then [] else [WordChar(s[0], quoted)] + Mark(s[1..], quoted)
  }

  /** The word that stands for `arg`: its very characters, quoted unless all of them are safe. */
  function WordOf(arg: string): (w: seq<WordChar>)
    ensures |w| == |arg| && forall k | 0 <= k < |arg| :: w[k].c == arg[k]
  {
    Mark(arg, !AllSafe(arg))
  }

  function WordsOf(args: seq<string>): (r: seq<Token>)
    ensures |r| == |args| && forall k | 0 <= k < |args| :: r[k] == Word(WordOf(args[k]))
  {
    if args == [] then [] else [Word(WordOf(args[0]))] + WordsOf(args[1..])
  }

  function AssignmentWord(name: string, value: string): seq<WordChar> {
    Mark(name, false) + [WordChar('=', false)] + WordOf(value)
  }

  function AssignmentWords(env: Env): (r: seq<Token>)
    ensures |r| == |env| && forall k | 0 <= k < |env| :: r[k] == Word(AssignmentWord(env[k].0, env[k].1))
  {
    if env == [] then [] else [Word(AssignmentWord(env[0].0, env[0].1))] + AssignmentWords(env[1..])
  }

  function CommandTokens(args: seq<string>, cwd: string, env: Env): seq<Token> {
    (if cwd == "" then [] else [Word(Mark("cd", false)), Word(WordOf(cwd)), Operator("&&")])
    + AssignmentWords(env) + WordsOf(args)
  }

  // ---------- reading quoted text ----------

  lemma SafeIsOrdinary(c: char)
    requires IsSafe(c)
    ensures c != '\'' && c != '"' && c != '\\' && c != '#'
    ensures !StartsExpansion(c) && !IsBlank(c) && !StartsOperator(c)
  {
  }

  lemma PlainStep(c: char, rest: string, w: Option<seq<WordChar>>)
    requires IsSafe(c)
    ensures Lex([c] + rest, Plain(w)) == Lex(rest, Plain(Some(Pending(w) + [WordChar(c, false)])))
  {
    hide IsSafe, StartsOperator, StartsExpansion, IsBlank;
    SafeIsOrdinary(c);
    assert ([c] + rest)[1..] == rest;
  }

  lemma PendingSome(w: seq<WordChar>)
    ensures Pending(Some(w)) == w
  {
  }

  lemma {:induction false} LexSafe(s: string, rest: string, w: Option<seq<WordChar>>)
    requires AllSafe(s) && s != []
    ensures Lex(s + rest, Plain(w)) == Lex(rest, Plain(Some(Pending(w) + Mark(s, false))))
    decreases |s|
  {
    hide Lex, IsSafe, Mark, Pending;
    var first := WordChar(s[0], false);
    assert s + rest == [s[0]] + (s[1..] + rest);
    PlainStep(s[0], s[1..] + rest, w);
    if |s| == 1 {
      assert s[1..] + rest == rest && Mark(s, false) == [first];
    } else {
      LexSafe(s[1..], rest, Some(Pending(w) + [first]));
      PendingSome(Pending(w) + [first]);
      assert Pending(w) + Mark(s, false) == (Pending(w) + [first]) + Mark(s[1..], false);
    }
  }

  lemma SingleStep(c: char, rest: string, w: seq<WordChar>)
    requires c != '\''
    ensures Lex([c] + rest, Single(w)) == Lex(rest, Single(w + [WordChar(c, true)]))
  {
  }

  lemma QuoteOpensAndCloses(rest: string, w: Option<seq<WordChar>>)
    ensures Lex("'" + rest, Plain(w)) == Lex(rest, Single(Pending(w)))
    ensures Lex("\"" + rest, Plain(w)) == Lex(rest, Double(Pending(w)))
    ensures Lex("'" + rest, Single(Pending(w))) == Lex(rest, Plain(Some(Pending(w))))
    ensures Lex("\"" + rest, Double(Pending(w))) == Lex(rest, Plain(Some(Pending(w))))
    ensures Lex("'" + rest, Double(Pending(w))) == Lex(rest, Double(Pending(w) + [WordChar('\'', true)]))
  {
  }

  /** `'"'"'` inside single quotes is one quote character. */
  lemma EscapedQuote(rest: string, w: seq<WordChar>)
    ensures Lex("'\"'\"'" + rest, Single(w)) == Lex(rest, Single(w + [WordChar('\'', true)]))
  {
    hide Lex;
    var w' := w + [WordChar('\'', true)];
    QuoteOpensAndCloses("\"'\"'" + rest, Some(w));
    assert "'\"'\"'" + rest == "'" + ("\"'\"'" + rest);
    QuoteOpensAndCloses("'\"'" + rest, Some(w));
    assert "\"'\"'" + rest == "\"" + ("'\"'" + rest);
    QuoteOpensAndCloses("\"'" + rest, Some(w));
    assert "'\"'" + rest == "'" + ("\"'" + rest);
    QuoteOpensAndCloses("'" + rest, Some(w'));
    assert "\"'" + rest == "\"" + ("'" + rest);
    QuoteOpensAndCloses(rest, Some(w'));
  }

  lemma {:induction false} LexReplaced(arg: string, rest: string, w: seq<WordChar>)
    ensures Lex(ReplaceQuotes(arg) + rest, Single(w)) == Lex(rest, Single(w + Mark(arg, true)))
  {
    hide Lex;
    if arg == [] {
      assert ReplaceQuotes(arg) + rest == rest && w + Mark(arg, true) == w;
    } else {
      var first := WordChar(arg[0], true);
      var after := ReplaceQuotes(arg[1..]) + rest;
      if arg[0] == '\'' {
        assert ReplaceQuotes(arg) + rest == "'\"'\"'" + after;
        EscapedQuote(after, w);
      } else {
        assert ReplaceQuotes(arg) + rest == [arg[0]] + after;
        SingleStep(arg[0], after, w);
      }
      LexReplaced(arg[1..], rest, w + [first]);
      assert w + Mark(arg, true) == (w + [first]) + Mark(arg[1..], true);
    }
  }

  /** Whatever the argument and whatever stands around it, it is read back as itself. */
  lemma LexQuoted(arg: string, rest: string, w: Option<seq<WordChar>>)
    ensures Lex(ShellQuote(arg) + rest, Plain(w)) == Lex(rest, Plain(Some(Pending(w) + WordOf(arg))))
  {
    hide Lex;
    if arg == "" {
      QuoteOpensAndCloses("'" + rest, w);
      QuoteOpensAndCloses(rest, w);
      assert "''" + rest == "'" + ("'" + rest) && Pending(w) + WordOf(arg) == Pending(w);
    } else if AllSafe(arg) {
      LexSafe(arg, rest, w);
    } else {
      var body := ReplaceQuotes(arg);
      QuoteOpensAndCloses(body + ("'" + rest), w);
      assert ("'" + body + "'") + rest == "'" + (body + ("'" + rest));
      LexReplaced(arg, "'" + rest, Pending(w));
      QuoteOpensAndCloses(rest, Some(Pending(w) + Mark(arg, true)));
    }
  }

  // ---------- whole commands ----------

  lemma BlankEndsWord(rest: string, w: seq<WordChar>)
    ensures Lex(" " + rest, Plain(Some(w))) == Prefixed([Word(w)], Lex(rest, Plain(None)))
  {
  }

  lemma {:induction false} LexArgs(args: seq<string>)
    ensures Tokens(Join(QuoteAll(args))) == Some(WordsOf(args))
  {
    if args != [] {
      hide Lex, ShellQuote;
      var quoted := ShellQuote(args[0]);
      if |args| == 1 {
        assert Join(QuoteAll(args)) == quoted + "";
        LexQuoted(args[0], "", None);
        assert WordsOf(args) == [Word(WordOf(args[0]))];
      } else {
        var rest := Join(QuoteAll(args[1..]));
        assert QuoteAll(args)[1..] == QuoteAll(args[1..]);
        assert Join(QuoteAll(args)) == quoted + (" " + rest);
        LexQuoted(args[0], " " + rest, None);
        BlankEndsWord(rest, WordOf(args[0]));
        LexArgs(args[1..]);
      }
      assert [] + WordOf(args[0]) == WordOf(args[0]);
    }
  }

  lemma NamesAreSafe(name: string)
    requires IsName(name)
    ensures AllSafe(name) && name != ""
  {
  }

  lemma LexAssignment(name: string, value: string, rest: string)
    requires IsName(name)
    ensures Lex((name + "=" + ShellQuote(value)) + (" " + rest), Plain(None)) ==
            Prefixed([Word(AssignmentWord(name, value))], Lex(rest, Plain(None)))
  {
    hide Lex, ShellQuote, IsName, Mark, WordOf, AllSafe, Prefixed;
    NamesAreSafe(name);
    var tail := ShellQuote(value) + (" " + rest);
    assert (name + "=" + ShellQuote(value)) + (" " + rest) == name + ("=" + tail);
    LexSafe(name, "=" + tail, None);
    assert [] + Mark(name, false) == Mark(name, false);
    PlainStep('=', tail, Some(Mark(name, false)));
    LexQuoted(value, " " + rest, Some(Mark(name, false) + [WordChar('=', false)]));
    BlankEndsWord(rest, AssignmentWord(name, value));
  }

  lemma {:induction false} LexAssignments(env: Env, command: string, tokens: seq<Token>)
    requires env != [] && NamesValid(env) && Tokens(command) == Some(tokens)
    ensures Tokens(Join(Assignments(env)) + " " + command) == Some(AssignmentWords(env) + tokens)
    decreases |env|
  {
    hide Lex, ShellQuote, IsName;
    var (name, value) := env[0];
    var first := name + "=" + ShellQuote(value);
    if |env| == 1 {
      LexAssignment(name, value, command);
      assert Join(Assignments(env)) + " " + command == first + (" " + command);
      assert AssignmentWords(env) == [Word(AssignmentWord(name, value))];
    } else {
      var rest := Join(Assignments(env[1..])) + " " + command;
      LexAssignment(name, value, rest);
      assert Assignments(env)[1..] == Assignments(env[1..]);
      assert Join(Assignments(env)) + " " + command == first + (" " + rest);
      LexAssignments(env[1..], command, tokens);
      assert AssignmentWords(env) + tokens
          == [Word(AssignmentWord(name, value))] + (AssignmentWords(env[1..]) + tokens);
    }
  }

  lemma PrefixedTwice(a: seq<Token>, b: seq<Token>, rest: Option<seq<Token>>)
    ensures Prefixed(a, Prefixed(b, rest)) == Prefixed(a + b, rest)
    ensures Prefixed([], rest) == rest
  {
    if rest.Some? {
      assert a + (b + rest.value) == (a + b) + rest.value;
      assert [] + rest.value == rest.value;
    }
  }

  lemma AndOperator(rest: string)
    ensures Lex("&& " + rest, Plain(None)) == Prefixed([Operator("&&")], Lex(rest, Plain(None)))
  {
    var s := "&& " + rest;
    assert s[..2] == "&&" && |s| >= 3 && s[2] == ' ';
    assert OperatorLength(s) == 2;
    assert s[2..] == " " + rest;
    assert s[2..][1..] == rest;
    PrefixedTwice([], [], Lex(rest, Plain(None)));
    assert EndWord(None) + [Operator(s[..2])] == [Operator("&&")];
  }

  lemma LexChangeDir(cwd: string, rest: string)
    ensures Tokens("cd " + ShellQuote(cwd) + " && " + rest) ==
            Prefixed([Word(Mark("cd", false)), Word(WordOf(cwd)), Operator("&&")], Tokens(rest))
  {
    hide Lex, ShellQuote;
    var afterCwd := " && " + rest;
    var afterCd := ShellQuote(cwd) + afterCwd;
    assert "cd " + ShellQuote(cwd) + " && " + rest == "cd" + (" " + afterCd);
    LexSafe("cd", " " + afterCd, None);
    assert [] + Mark("cd", false) == Mark("cd", false);
    BlankEndsWord(afterCd, Mark("cd", false));
    LexQuoted(cwd, afterCwd, None);
    assert [] + WordOf(cwd) == WordOf(cwd);
    assert afterCwd == " " + ("&& " + rest);
    BlankEndsWord("&& " + rest, WordOf(cwd));
    AndOperator(rest);
    var cd, dir, and := Word(Mark("cd", false)), Word(WordOf(cwd)), Operator("&&");
    PrefixedTwice([dir], [and], Tokens(rest));
    PrefixedTwice([cd], [dir] + [and], Tokens(rest));
    assert [cd] + ([dir] + [and]) == [cd, dir, and];
  }

  lemma WithEnvReadsBack(args: seq<string>, env: Env)
    requires NamesValid(env)
    ensures Tokens(WithEnv(args, env)) == Some(AssignmentWords(env) + WordsOf(args))
  {
    hide Lex, Tokens, WordsOf, Join, QuoteAll, Assignments, NamesValid;
    LexArgs(args);
    if env == [] {
      assert AssignmentWords(env) + WordsOf(args) == WordsOf(args);
    } else {
      LexAssignments(env, Join(QuoteAll(args)), WordsOf(args));
    }
  }

  /** The shell reads the command as what it was built from, for every argument, value and directory. */
  lemma CommandReadsBack(args: seq<string>, cwd: string, env: Env)
    requires NamesValid(env)
    ensures Tokens(Command(args, cwd, env)) == Some(CommandTokens(args, cwd, env))
  {
    hide Lex, ShellQuote, Tokens, Mark, WordOf, WordsOf, AssignmentWords, WithEnv, NamesValid;
    var tokens := AssignmentWords(env) + WordsOf(args);
    WithEnvReadsBack(args, env);
    if cwd == "" {
      assert CommandTokens(args, cwd, env) == tokens;
    } else {
      LexChangeDir(cwd, WithEnv(args, env));
      assert CommandTokens(args, cwd, env)
          == [Word(Mark("cd", false)), Word(WordOf(cwd)), Operator("&&")] + tokens;
    }
  }

  ghost predicate NothingToExpand(t: Token) {
    t.Word? ==> forall k | 0 <= k < |t.chars| :: t.chars[k].quoted || !MustBeQuoted(t.chars[k].c)
  }

  lemma SafeNeedsNoQuotes()
    ensures IsSafe('=') && forall c | IsSafe(c) :: !MustBeQuoted(c)
  {
  }

  lemma WordIsFixed(arg: string)
    ensures NothingToExpand(Word(WordOf(arg)))
  {
    hide IsSafe, MustBeQuoted;
    SafeNeedsNoQuotes();
  }

  lemma AssignmentIsFixed(name: string, value: string)
    requires IsName(name)
    ensures NothingToExpand(Word(AssignmentWord(name, value)))
  {
    hide IsSafe, MustBeQuoted, IsName, WordOf;
    SafeNeedsNoQuotes();
    NamesAreSafe(name);
    WordIsFixed(value);
  }

  /** No later expansion changes a word: no unquoted character is one that has to be quoted. */
  lemma NothingLeftToExpand(args: seq<string>, cwd: string, env: Env, t: Token)
    requires NamesValid(env) && t in CommandTokens(args, cwd, env)
    ensures NothingToExpand(t)
  {
    hide NothingToExpand, AssignmentWord, WordOf, IsName, Mark;
    if t in AssignmentWords(env) {
      var i :| 0 <= i < |env| && AssignmentWords(env)[i] == t;
      AssignmentIsFixed(env[i].0, env[i].1);
    } else if t in WordsOf(args) {
      var i :| 0 <= i < |args| && WordsOf(args)[i] == t;
      WordIsFixed(args[i]);
    } else {
      WordIsFixed(cwd);
      CdIsFixed();
    }
  }

  lemma CdIsFixed()
    ensures NothingToExpand(Word(Mark("cd", false))) && NothingToExpand(Operator("&&"))
  {
  }

  /** Every environment entry is an assignment word for its name. */
  lemma EnvEntryAssigns(name: string, value: string)
    requires IsName(name)
    ensures AssignsAt(AssignmentWord(name, value), |name|)
  {
  }

  /**
    The one reading that quoting does not rule out: an argument is itself an assignment word exactly
    when it is left bare and starts with `NAME=`.
   */
  lemma ArgumentAssignsIff(arg: string, n: nat)
    ensures AssignsAt(WordOf(arg), n) <==> AllSafe(arg) && 0 < n < |arg| && IsName(arg[..n]) && arg[n] == '='
  {
  }

  /** The command `A=b` is sent bare and read as an assignment. */
  lemma BareAssignment()
    ensures ShellQuote("A=b") == "A=b" && AssignsAt(WordOf("A=b"), 1)
  {
    assert "A=b"[..1] == "A";
    ArgumentAssignsIff("A=b", 1);
  }
}
