/**
  Token recognition and quoting of the POSIX shell (XCU sections 2.2 and 2.3), as far as a command
  line without expansions needs them.
 */
module PosixShell {
  import opened Wrappers

  /** A character of a word, after quote removal; `quoted` says whether it was quoted. */
  datatype WordChar = WordChar(c: char, quoted: bool)

  datatype Token = Word(chars: seq<WordChar>) | Operator(text: string)

  /** Where the scanner is: between or inside words, or inside `'...'` or `"..."`. */
  datatype Mode =
    | Plain(word: Option<seq<WordChar>>)
    | Single(inside: seq<WordChar>)
    | Double(inside: seq<WordChar>)

  function Pending(word: Option<seq<WordChar>>): seq<WordChar> {
    if word.Some? then word.value else []
  }

  function EndWord(word: Option<seq<WordChar>>): seq<Token> {
    if word.Some? then [Word(word.value)] else []
  }

  predicate IsBlank(c: char) {
    c == ' ' || c == '\t'
  }

  predicate StartsOperator(c: char) {
    c == '&' || c == '|' || c == ';' || c == '<' || c == '>' || c == '(' || c == ')' || c == '\n'
  }

  /**
    The characters that section 2.2 has quoted if they are to stand for themselves, among them those of pathname and
    tilde expansion; `=` and `%`, special in some positions only, are left out.
   */
  predicate MustBeQuoted(c: char) {
    || c == '|' || c == '&' || c == ';' || c == '<' || c == '>' || c == '(' || c == ')' || c == '$' || c == '`'
    || c == '\\' || c == '"' || c == '\'' || c == ' ' || c == '\t' || c == '\n'
    || c == '*' || c == '?' || c == '[' || c == '#' || c == '~'
  }

  predicate StartsExpansion(c: char) {
    c == '$' || c == '`'
  }

  /** The longest operator at the front of `s`. */
  function OperatorLength(s: string): (n: nat)
    requires s != [] && StartsOperator(s[0])
    ensures 1 <= n <= |s|
  {
    if |s| >= 3 && s[..3] == "<<-" then 3
    else if |s| >= 2 && s[..2] in ["&&", "||", ";;", "<<", ">>", "<&", ">&", "<>", ">|"] then 2
    else 1
  }

  function AfterComment(s: string): (r: string)
    ensures |r| <= |s|
  {
    if s == [] || s[0] == '\n' then s else AfterComment(s[1..])
  }

  function Prefixed(front: seq<Token>, rest: Option<seq<Token>>): Option<seq<Token>> {
    if rest.None? then None else Some(front + rest.value)
  }

  /** The tokens of `s`; `None` when a quote is left open or an expansion would be needed. */
  function Lex(s: string, mode: Mode): Option<seq<Token>>
    decreases |s|
  {
    if s == [] then
      if mode.Plain? then Some(EndWord(mode.word)) else None
    else
      match mode
      case Single(w) =>
        if s[0] == '\'' then Lex(s[1..], Plain(Some(w)))
        else Lex(s[1..], Single(w + [WordChar(s[0], true)]))
      case Double(w) =>
        if s[0] == '"' then Lex(s[1..], Plain(Some(w)))
        else if StartsExpansion(s[0]) then None
        else if s[0] == '\\' && |s| >= 2 && s[1] == '\n' then Lex(s[2..], mode)
        else if s[0] == '\\' && |s| >= 2 && s[1] in "$`\"\\" then Lex(s[2..], Double(w + [WordChar(s[1], true)]))
        else Lex(s[1..], Double(w + [WordChar(s[0], true)]))
      case Plain(w) =>
        if s[0] == '\'' then Lex(s[1..], Single(Pending(w)))
        else if s[0] == '"' then Lex(s[1..], Double(Pending(w)))
        else if StartsExpansion(s[0]) then None
        else if s[0] == '\\' then
          if |s| < 2 then None
          else if s[1] == '\n' then Lex(s[2..], mode)
          else Lex(s[2..], Plain(Some(Pending(w) + [WordChar(s[1], true)])))
        else if IsBlank(s[0]) then Prefixed(EndWord(w), Lex(s[1..], Plain(None)))
        else if StartsOperator(s[0]) then
          var n := OperatorLength(s);
          Prefixed(EndWord(w) + [Operator(s[..n])], Lex(s[n..], Plain(None)))
        else if s[0] == '#' && w.None? then Lex(AfterComment(s), mode)
        else Lex(s[1..], Plain(Some(Pending(w) + [WordChar(s[0], false)])))
  }

  function Tokens(s: string): Option<seq<Token>> {
    Lex(s, Plain(None))
  }

  // ---------- assignment words (XCU section 2.10.2, rule 7) ----------

  predicate IsNameStart(c: char) {
    'A' <= c <= 'Z' || 'a' <= c <= 'z' || c == '_'
  }

  predicate IsNameChar(c: char) {
    IsNameStart(c) || '0' <= c <= '9'
  }

  predicate IsName(s: string) {
    s != [] && IsNameStart(s[0]) && forall k | 0 <= k < |s| :: IsNameChar(s[k])
  }

  /** The word is `NAME=...` with the name and the `=` unquoted, `n` being the name's length. */
  ghost predicate AssignsAt(w: seq<WordChar>, n: nat) {
    && 0 < n < |w| && w[n] == WordChar('=', false)
    && IsNameStart(w[0].c)
    && forall k | 0 <= k < n :: IsNameChar(w[k].c) && !w[k].quoted
  }
}
