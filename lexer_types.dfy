/** Vocabulary of the Pygments-style state-stack lexer that the editor drives:
    token types, tokens, grammar rules and the regular-expression engine,
    which is abstracted as an oracle. */
module LexerTypes {

  datatype Option<+T> = None | Some(value: T)

  /** A Pygments token type such as `Token.Keyword.Constant`. */
  datatype TokenType = TokenType(name: string)

  /** `Token.Text`, emitted for a line feed no rule matched. */
  const Text: TokenType := TokenType("Token.Text")

  /** `Token.Error`, emitted for any other character no rule matched. */
  const Error: TokenType := TokenType("Token.Error")

  /** A yielded `(pos, tokentype, value)` triple; `pos` is an offset into the lexed text. */
  datatype Token = Token(pos: nat, kind: TokenType, value: string)

  /** The name of a lexer state, a key of the lexer's `_tokens` table. */
  type StateName = string

  /** The initial state and the state every unmatched line feed returns to. */
  const Root: StateName := "root"

  /** The source text of a rule's regular expression. */
  type Pattern = string

  /** The second field of a rule: no token (`None`), a plain token type, or a
      callback that turns the match into tokens of its own. */
  datatype Action = Skip | Emit(kind: TokenType) | Callback(name: string)

  /** One element of a tuple directive: `"#pop"`, `"#push"` or a state name. */
  datatype StackOp = Pop | Push | Enter(state: StateName)

  /** The third field of a rule after Pygments has processed it: `None`, a tuple
      of stack operations, an integer `i` (meaning `del statestack[i:]`), or the
      bare string `"#push"`. Any other value is the `assert False` branch,
      which this datatype leaves out. A rule written `"#pop:n"` carries `-n`,
      so `"#pop:0"` carries `0` and empties the list; a bare `"#pop"` carries
      `-1` (`del statestack[-1:]`), not the one-element tuple. */
  datatype Transition = Stay | Ops(ops: seq<StackOp>) | Truncate(index: int) | PushTop

  datatype Rule = Rule(pattern: Pattern, action: Action, transition: Transition)

  /** The lexer's `_tokens` table: each state's rules, in priority order. */
  datatype Grammar = Grammar(tokens: map<StateName, seq<Rule>>)

  /** The foreign code the tokenizer calls: `rexmatch(text, pos)` anchored at
      `pos`, giving the end offset of the match, and the callback actions,
      whose output is left uninterpreted. */
  datatype Engine = Engine(
    rexmatch: (Pattern, string, nat) -> Option<nat>,
    expand: (string, string, nat, nat) -> seq<Token>)

  /** What any regular-expression engine guarantees: a match that starts at
      `pos` ends between `pos` and the end of the text. */
  ghost predicate Sound(e: Engine)
  {
    forall p: Pattern, text: string, pos: nat ::
      pos <= |text| && e.rexmatch(p, text, pos).Some? ==>
        pos <= e.rexmatch(p, text, pos).value <= |text|
  }

  function Last<T>(s: seq<T>): T
    requires |s| > 0
  {
    s[|s| - 1]
  }

  function Front<T>(s: seq<T>): seq<T>
    requires |s| > 0
  {
    s[..|s| - 1]
  }
}
