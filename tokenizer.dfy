/** The state-stack tokenizer of `ViewLexer.get_tokens_unprocessed`
    (editor.py lines 68-123) as specification functions: one step of the
    `while 1` loop, and a run of at most `fuel` steps. */
module Tokenizer {
  import opened LexerTypes
  import opened Transitions

  /** The loop's variables: `pos` and `statestack`. (`statetokens` is always
      the rule list of the stack's top, so it is not part of the state.) */
  datatype Config = Config(pos: nat, stack: seq<StateName>)

  /** The exceptions that escape the generator: `IndexError` on an empty
      list and `KeyError` for a state the grammar does not define. */
  datatype Fault = StackUnderflow | UnknownState(name: StateName)

  /** How the generator ends: it stops, it raises, or (the code does not
      guarantee termination) it is still running when the budget runs out. */
  datatype Outcome = Finished | Raised(fault: Fault) | OutOfFuel

  /** Everything the generator yields, in order, and how it ends. */
  datatype Trace = Trace(tokens: seq<Token>, outcome: Outcome)

  /** The rule chosen at a position: its index and the end of its match. */
  datatype Selected = Selected(index: nat, matchEnd: nat)

  datatype StepResult =
    | Continue(emitted: seq<Token>, next: Config)
    | Stop
    | Fail(emitted: seq<Token>, fault: Fault)

  /** The loop is ready to run a step: the stack is not empty and its top
      names a state of the grammar, as `tokendefs[statestack[-1]]` needs. */
  predicate Ready(g: Grammar, c: Config)
  {
    |c.stack| > 0 && Last(c.stack) in g.tokens
  }

  /** The rules of the active state. */
  function ActiveRules(g: Grammar, c: Config): seq<Rule>
    requires Ready(g, c)
  {
    g.tokens[Last(c.stack)]
  }

  /** The first rule at or after index `from` whose pattern matches at `pos`. */
  function FirstMatchFrom(e: Engine, rules: seq<Rule>, text: string, pos: nat, from: nat): (r: Option<Selected>)
    requires from <= |rules|
    ensures r.Some? ==>
      && from <= r.value.index < |rules|
      && e.rexmatch(rules[r.value.index].pattern, text, pos) == Some(r.value.matchEnd)
      && forall j :: from <= j < r.value.index ==> e.rexmatch(rules[j].pattern, text, pos).None?
    ensures r.None? ==> forall j :: from <= j < |rules| ==> e.rexmatch(rules[j].pattern, text, pos).None?
    decreases |rules| - from
  {
    if from == |rules| then None
    else match e.rexmatch(rules[from].pattern, text, pos)
      case Some(matchEnd) => Some(Selected(from, matchEnd))
      case None => FirstMatchFrom(e, rules, text, pos, from + 1)
  }

  /** The `for ... in statetokens` search: the first rule, in order, that
      matches at `pos`; later rules are not consulted. */
  function FirstMatch(e: Engine, rules: seq<Rule>, text: string, pos: nat): Option<Selected>
  {
    FirstMatchFrom(e, rules, text, pos, 0)
  }

  /** What the action of a rule matching `text[pos..matchEnd]` yields. */
  function Emitted(e: Engine, action: Action, text: string, pos: nat, matchEnd: nat): seq<Token>
    requires pos <= matchEnd <= |text|
  {
    match action
    case Skip => []
    case Emit(kind) => [Token(pos, kind, text[pos..matchEnd])]
    case Callback(name) => e.expand(name, text, pos, matchEnd)
  }

  /** The stack after a matched rule's directive, and the lookup of the new
      top's rules that follows it. */
  function Settle(g: Grammar, t: Transition, stack: seq<StateName>): (r: Option<Fault>)
  {
    if t.Stay? then None
    else match NewStack(t, stack)
      case None => Some(StackUnderflow)
      case Some(s) =>
        if |s| == 0 then Some(StackUnderflow)
        else if Last(s) !in g.tokens then Some(UnknownState(Last(s)))
        else None
  }

  /** One iteration of the `while 1` loop. */
  function Step(g: Grammar, e: Engine, text: string, c: Config): (r: StepResult)
    requires Sound(e) && c.pos <= |text| && Ready(g, c)
    ensures r.Continue? ==> Ready(g, r.next) && c.pos <= r.next.pos <= |text|
    ensures r.Stop? <==> c.pos == |text| && FirstMatch(e, ActiveRules(g, c), text, c.pos).None?
  {
    var rules := ActiveRules(g, c);
    match FirstMatch(e, rules, text, c.pos)
    case Some(sel) =>
      var rule := rules[sel.index];
      var out := Emitted(e, rule.action, text, c.pos, sel.matchEnd);
      (match Settle(g, rule.transition, c.stack)
       case Some(fault) => Fail(out, fault)
       case None =>
         Continue(out, Config(sel.matchEnd, if rule.transition.Stay? then c.stack else NewStack(rule.transition, c.stack).value)))
    case None =>
      if c.pos == |text| then Stop
      else if text[c.pos] == '\n' then
        if Root in g.tokens then Continue([Token(c.pos, Text, "\n")], Config(c.pos + 1, [Root]))
        else Fail([], UnknownState(Root))
      else Continue([Token(c.pos, Error, [text[c.pos]])], Config(c.pos + 1, c.stack))
  }

  /** The tokens yielded by at most `fuel` iterations from `c`, and how the
      generator ends. */
  function Run(g: Grammar, e: Engine, text: string, c: Config, fuel: nat): Trace
    requires Sound(e) && c.pos <= |text| && Ready(g, c)
    decreases fuel
  {
    if fuel == 0 then Trace([], OutOfFuel)
    else match Step(g, e, text, c)
      case Stop => Trace([], Finished)
      case Fail(out, fault) => Trace(out, Raised(fault))
      case Continue(out, next) =>
        var rest := Run(g, e, text, next, fuel - 1);
        Trace(out + rest.tokens, rest.outcome)
  }

  /** `get_tokens_unprocessed(text, stack)`: copy the caller's stack, look
      up its top, and run the loop from offset 0. */
  function Tokenize(g: Grammar, e: Engine, text: string, stack: seq<StateName>, fuel: nat): Trace
    requires Sound(e)
  {
    if |stack| == 0 then Trace([], Raised(StackUnderflow))
    else if Last(stack) !in g.tokens then Trace([], Raised(UnknownState(Last(stack))))
    else Run(g, e, text, Config(0, stack), fuel)
  }

  // ---------------------------------------------------------------------
  // One step, case by case.

  /** On a match, the action's output is yielded at `pos`, `pos` moves to the
      end of the match and the stack follows the rule's directive; with a
      plain token type the token is exactly the matched text. */
  lemma StepOnMatch(g: Grammar, e: Engine, text: string, c: Config, sel: Selected)
    requires Sound(e) && c.pos <= |text| && Ready(g, c)
    requires FirstMatch(e, ActiveRules(g, c), text, c.pos) == Some(sel)
    ensures c.pos <= sel.matchEnd <= |text| && sel.index < |ActiveRules(g, c)|
    ensures var rule := ActiveRules(g, c)[sel.index];
      var r := Step(g, e, text, c);
      && !r.Stop?
      && r.emitted == Emitted(e, rule.action, text, c.pos, sel.matchEnd)
      && (rule.action.Skip? ==> r.emitted == [])
      && (rule.action.Emit? ==> r.emitted == [Token(c.pos, rule.action.kind, text[c.pos..sel.matchEnd])])
      && (r.Continue? <==> Settle(g, rule.transition, c.stack).None?)
      && (r.Continue? ==> r.next.pos == sel.matchEnd && Some(r.next.stack) == NewStack(rule.transition, c.stack))
  {
  }

  /** No rule matches a line feed: the stack becomes exactly `["root"]`,
      a `Text` token holding the line feed is yielded, and `pos` moves by one. */
  lemma NoMatchAtLineFeed(g: Grammar, e: Engine, text: string, c: Config)
    requires Sound(e) && c.pos < |text| && Ready(g, c) && Root in g.tokens
    requires FirstMatch(e, ActiveRules(g, c), text, c.pos).None? && text[c.pos] == '\n'
    ensures Step(g, e, text, c) == Continue([Token(c.pos, Text, "\n")], Config(c.pos + 1, [Root]))
  {
  }

  /** No rule matches any other character: a one-character `Error` token is
      yielded, the stack is untouched and `pos` moves by exactly one. */
  lemma NoMatchElsewhere(g: Grammar, e: Engine, text: string, c: Config)
    requires Sound(e) && c.pos < |text| && Ready(g, c)
    requires FirstMatch(e, ActiveRules(g, c), text, c.pos).None? && text[c.pos] != '\n'
    ensures Step(g, e, text, c) == Continue([Token(c.pos, Error, [text[c.pos]])], Config(c.pos + 1, c.stack))
  {
  }

  /** A rule written `"#pop:n"` with `n >= 1` (a bare `"#pop"` is `n == 1`)
      raises exactly when it would pop every entry the stack holds, or more;
      otherwise the top `n` entries go. There is no clamping at the bottom of
      the stack. `"#pop:0"` is `PopZeroEmptiesStack`. */
  lemma PopCountPastBottom(g: Grammar, e: Engine, text: string, c: Config, sel: Selected, n: nat)
    requires Sound(e) && c.pos <= |text| && Ready(g, c) && n >= 1
    requires FirstMatch(e, ActiveRules(g, c), text, c.pos) == Some(sel)
    requires ActiveRules(g, c)[sel.index].transition == Truncate(-(n as int))
    ensures n >= |c.stack| ==> Step(g, e, text, c).Fail? && Step(g, e, text, c).fault == StackUnderflow
    ensures n < |c.stack| && Last(c.stack[..|c.stack| - n]) in g.tokens ==>
      Step(g, e, text, c).Continue? && Step(g, e, text, c).next.stack == c.stack[..|c.stack| - n]
  {
  }

  /** A rule written `"#pop:0"` carries `-0 == 0`: `del statestack[0:]`
      empties the list, and the step raises whatever the stack holds. */
  lemma PopZeroEmptiesStack(g: Grammar, e: Engine, text: string, c: Config, sel: Selected)
    requires Sound(e) && c.pos <= |text| && Ready(g, c)
    requires FirstMatch(e, ActiveRules(g, c), text, c.pos) == Some(sel)
    requires ActiveRules(g, c)[sel.index].transition == Truncate(0)
    ensures NewStack(Truncate(0), c.stack) == Some([])
    ensures Step(g, e, text, c).Fail? && Step(g, e, text, c).fault == StackUnderflow
  {
  }

  /** The same for a tuple of `n` `"#pop"`s: the first pop that meets an empty
      list raises, and popping every entry leaves nothing for the top lookup. */
  lemma PopsPastBottom(g: Grammar, e: Engine, text: string, c: Config, sel: Selected, n: nat)
    requires Sound(e) && c.pos <= |text| && Ready(g, c)
    requires FirstMatch(e, ActiveRules(g, c), text, c.pos) == Some(sel)
    requires ActiveRules(g, c)[sel.index].transition == Ops(Pops(n))
    ensures n >= |c.stack| ==> Step(g, e, text, c).Fail? && Step(g, e, text, c).fault == StackUnderflow
    ensures n < |c.stack| && Last(c.stack[..|c.stack| - n]) in g.tokens ==>
      Step(g, e, text, c).Continue? && Step(g, e, text, c).next.stack == c.stack[..|c.stack| - n]
  {
    ApplyPops(n, c.stack);
  }

  /** A run that fails in its first step yields that step's output. */
  lemma RunAfterFail(g: Grammar, e: Engine, text: string, c: Config, fuel: nat)
    requires Sound(e) && c.pos <= |text| && Ready(g, c) && fuel > 0
    requires Step(g, e, text, c).Fail?
    ensures Run(g, e, text, c, fuel) == Trace(Step(g, e, text, c).emitted, Raised(Step(g, e, text, c).fault))
  {
  }

  /** A run whose first step continues yields that step's output, then the
      rest of the run from the next configuration. */
  lemma RunAfterContinue(g: Grammar, e: Engine, text: string, c: Config, fuel: nat)
    requires Sound(e) && c.pos <= |text| && Ready(g, c) && fuel > 0
    requires Step(g, e, text, c).Continue?
    ensures var step := Step(g, e, text, c);
      var rest := Run(g, e, text, step.next, fuel - 1);
      Run(g, e, text, c, fuel) == Trace(step.emitted + rest.tokens, rest.outcome)
  {
  }

  /** The default initial stack `("root",)` starts the loop in `root` at 0. */
  lemma TokenizeFromRoot(g: Grammar, e: Engine, text: string, fuel: nat)
    requires Sound(e) && Root in g.tokens
    ensures Tokenize(g, e, text, [Root], fuel) == Run(g, e, text, Config(0, [Root]), fuel)
  {
  }
}
