/** `ViewLexer` (editor.py lines 38-147): the editor's lexer object. It numbers
    the style's token types when it is built, tokenizes with the state-stack
    loop, and turns the tokens into styled spans through the host's styling
    cursor. */
module Editor {
  import opened LexerTypes
  import opened Transitions
  import opened Tokenizer
  import opened TokenizerProperties

  // ---------------------------------------------------------------------
  // Style slots (editor.py lines 50-60).

  /** `slots` numbers the keys as the `__init__` loop does: each key listed in
      `keys` gets the position of its last occurrence, and no other key
      gets a slot. */
  ghost predicate SlotsByLastIndex(keys: seq<TokenType>, slots: map<TokenType, nat>)
  {
    && (forall k :: k in slots <==> k in keys)
    && (forall i :: 0 <= i < |keys| ==> i <= slots[keys[i]] < |keys| && keys[slots[keys[i]]] == keys[i])
  }

  /** The `for k, v in self.pyg_style` loop: `token_styles[k] = index`, then
      `index += 1`. (The `v` half only feeds the Qt colour calls.) */
  method BuildTokenStyles(keys: seq<TokenType>) returns (tokenStyles: map<TokenType, nat>)
    ensures SlotsByLastIndex(keys, tokenStyles)
  {
    tokenStyles := map[];
    var index := 0;
    for i := 0 to |keys|
      invariant index == i
      invariant SlotsByLastIndex(keys[..i], tokenStyles)
    {
      tokenStyles := tokenStyles[keys[i] := index];
      index := index + 1;
      assert keys[..i + 1] == keys[..i] + [keys[i]];
    }
    assert keys[..|keys|] == keys;
  }

  /** The numbering is determined by the keys: two maps that both number
      `keys` by last occurrence are the same map. */
  lemma SlotsUnique(keys: seq<TokenType>, a: map<TokenType, nat>, b: map<TokenType, nat>)
    requires SlotsByLastIndex(keys, a) && SlotsByLastIndex(keys, b)
    ensures a == b
  {
    forall k | k in a
      ensures k in b && a[k] == b[k]
    {
      var i :| 0 <= i < |keys| && keys[i] == k;
      var x, y := a[k], b[k];
      assert keys[x] == k && keys[y] == k;
      assert a[keys[y]] >= y && b[keys[x]] >= x;
    }
  }

  /** When the style lists each token type once (it iterates a dictionary),
      the slots are exactly `0 .. n-1`, in iteration order, one per type. */
  lemma DistinctKeysGetDenseSlots(keys: seq<TokenType>, slots: map<TokenType, nat>)
    requires SlotsByLastIndex(keys, slots)
    requires forall i, j :: 0 <= i < j < |keys| ==> keys[i] != keys[j]
    ensures forall i :: 0 <= i < |keys| ==> slots[keys[i]] == i
    ensures forall v :: v in slots.Values <==> 0 <= v < |keys|
    ensures forall k1, k2 :: k1 in slots && k2 in slots && k1 != k2 ==> slots[k1] != slots[k2]
  {
    forall i | 0 <= i < |keys|
      ensures slots[keys[i]] == i
    {
      var s := slots[keys[i]];
      assert i <= s && keys[s] == keys[i];
    }
    forall v | v in slots.Values
      ensures 0 <= v < |keys|
    {
      var k :| k in slots && slots[k] == v;
      var i :| 0 <= i < |keys| && keys[i] == k;
    }
    forall v | 0 <= v < |keys|
      ensures v in slots.Values
    {
      assert slots[keys[v]] == v;
    }
    forall k1, k2 | k1 in slots && k2 in slots && k1 != k2
      ensures slots[k1] != slots[k2]
    {
      var i :| 0 <= i < |keys| && keys[i] == k1;
      var j :| 0 <= j < |keys| && keys[j] == k2;
    }
  }

  // ---------------------------------------------------------------------
  // Styled spans (editor.py lines 125-133).

  /** One `setStyling(length, slot)` call. The length is `len(value)`, a count
      of characters; the host reads it as a count of UTF-8 bytes, so the two
      agree only on ASCII text. */
  datatype Span = Span(length: nat, slot: nat)

  /** The spans issued for a token stream, and the token type whose
      `token_styles` lookup raised `KeyError`, if one did. */
  datatype Styling = Styling(spans: seq<Span>, missing: Option<TokenType>)

  /** One span per token, in token order, whose length is the length of the
      token's text and whose slot is its type's slot, up to the first token
      whose type has no slot. */
  function StyleSpans(tokens: seq<Token>, styles: map<TokenType, nat>): (r: Styling)
    ensures |r.spans| <= |tokens|
    ensures forall i :: 0 <= i < |r.spans| ==>
      tokens[i].kind in styles && r.spans[i] == Span(|tokens[i].value|, styles[tokens[i].kind])
    ensures r.missing.None? ==> |r.spans| == |tokens|
    ensures r.missing.Some? ==>
      |r.spans| < |tokens| && tokens[|r.spans|].kind == r.missing.value && r.missing.value !in styles
  {
    if tokens == [] then Styling([], None)
    else if tokens[0].kind !in styles then Styling([], Some(tokens[0].kind))
    else
      var rest := StyleSpans(tokens[1..], styles);
      Styling([Span(|tokens[0].value|, styles[tokens[0].kind])] + rest.spans, rest.missing)
  }

  /** How `highlight_slow` ends. The tokenizer's budget running out stands
      for the source's loop that never ends. */
  datatype HighlightOutcome =
    | Completed
    | TokenizerRaised(fault: Fault)
    | Diverged
    | MissingStyle(kind: TokenType)

  datatype Highlighting = Highlighting(spans: seq<Span>, outcome: HighlightOutcome)

  /** Python's `text[start:]` for a non-negative `start`. */
  function Suffix(text: string, start: nat): string
  {
    if start <= |text| then text[start..] else ""
  }

  /** What `highlight_slow(start, end)` issues: it lexes `text[start:]`
      from `("root",)` (never from a cached stack) and ignores `end`. */
  function Highlight(g: Grammar, e: Engine, styles: map<TokenType, nat>, text: string, start: nat, fuel: nat): Highlighting
    requires Sound(e)
  {
    var trace := Tokenize(g, e, Suffix(text, start), [Root], fuel);
    var styled := StyleSpans(trace.tokens, styles);
    Highlighting(
      styled.spans,
      if styled.missing.Some? then MissingStyle(styled.missing.value)
      else match trace.outcome
        case Finished => Completed
        case Raised(fault) => TokenizerRaised(fault)
        case OutOfFuel => Diverged)
  }

  /** The number of characters the spans style. */
  function Covered(spans: seq<Span>): nat
  {
    if spans == [] then 0 else Covered(Front(spans)) + Last(spans).length
  }

  lemma {:induction false} CoveredIsTextLength(spans: seq<Span>, tokens: seq<Token>)
    requires |spans| == |tokens|
    requires forall i :: 0 <= i < |spans| ==> spans[i].length == |tokens[i].value|
    ensures Covered(spans) == TextLength(tokens)
    decreases |spans|
  {
    if spans != [] {
      CoveredIsTextLength(Front(spans), Front(tokens));
    }
  }

  /** The spans tile `code` along the tokens: one span per token, together
      styling all of `code`, span `i` starting where token `i` starts and
      covering exactly that token's text. */
  ghost predicate SpansTile(sp: seq<Span>, ts: seq<Token>, code: string)
  {
    && |sp| == |ts|
    && Covered(sp) == |code|
    && forall i :: 0 <= i < |sp| ==>
         && Covered(sp[..i]) == ts[i].pos
         && sp[i].length == |ts[i].value|
         && ts[i].pos + sp[i].length <= |code|
         && code[ts[i].pos..ts[i].pos + sp[i].length] == ts[i].value
  }

  /** Spans one per token, each as long as its token's text, over tokens
      laid end to end over `code` from offset 0, tile `code`. */
  lemma SpansFollowTokens(sp: seq<Span>, ts: seq<Token>, code: string)
    requires |sp| == |ts| && LaidOut(ts, code)
    requires forall i :: 0 <= i < |sp| ==> sp[i].length == |ts[i].value|
    ensures SpansTile(sp, ts, code)
  {
    CoveredIsTextLength(sp, ts);
    forall i | 0 <= i < |sp|
      ensures Covered(sp[..i]) == ts[i].pos
    {
      PrefixLengths(sp, ts, i);
      CoveredIsTextLength(sp[..i], ts[..i]);
    }
  }

  lemma PrefixLengths(sp: seq<Span>, ts: seq<Token>, i: nat)
    requires |sp| == |ts| && i <= |sp|
    requires forall j :: 0 <= j < |sp| ==> sp[j].length == |ts[j].value|
    ensures forall j :: 0 <= j < i ==> sp[..i][j].length == |ts[..i][j].value|
  {
  }

  /** A completed highlight issued one span per token of a tokenizer run
      that stopped. */
  lemma HighlightCompleted(g: Grammar, e: Engine, styles: map<TokenType, nat>, text: string, start: nat, fuel: nat)
    requires Sound(e)
    requires Highlight(g, e, styles, text, start, fuel).outcome == Completed
    ensures var trace := Tokenize(g, e, Suffix(text, start), [Root], fuel);
      && trace.outcome == Finished
      && StyleSpans(trace.tokens, styles).missing.None?
      && Highlight(g, e, styles, text, start, fuel).spans == StyleSpans(trace.tokens, styles).spans
  {
  }

  /** When every action is a plain token type and styling completes, the
      spans tile `text[start:]` along the tokens, with no gap: they style
      exactly its length, and span `i` starts (relative to `start`) where
      token `i` starts and covers exactly that token's text. Offsets and
      lengths are counted in characters throughout. */
  lemma HighlightTilesSuffix(g: Grammar, e: Engine, styles: map<TokenType, nat>, text: string, start: nat, fuel: nat)
    requires Sound(e) && Root in g.tokens && AllEmit(g)
    requires Highlight(g, e, styles, text, start, fuel).outcome == Completed
    ensures SpansTile(Highlight(g, e, styles, text, start, fuel).spans, Tokenize(g, e, Suffix(text, start), [Root], fuel).tokens, Suffix(text, start))
  {
    var code := Suffix(text, start);
    var ts := Tokenize(g, e, code, [Root], fuel).tokens;
    HighlightCompleted(g, e, styles, text, start, fuel);
    TokensSpellText(g, e, code, fuel);
    SpansFollowTokens(StyleSpans(ts, styles).spans, ts, code);
  }

  lemma AppendAssociates<T>(a: seq<T>, b: seq<T>, c: seq<T>)
    ensures a + (b + c) == (a + b) + c
  {
  }

  // ---------------------------------------------------------------------
  // The lexer object.

  class ViewLexer {
    /** The Pygments lexer's `_tokens` table and its regular-expression engine. */
    const grammar: Grammar
    const engine: Engine
    /** `token_styles`: the slot of each token type of the style. */
    const tokenStyles: map<TokenType, nat>
    /** `cache = {0: ("root",)}`: set once and never read. */
    const cache: map<nat, seq<StateName>>
    /** The host's styling cursor: where `startStyling` put it, and the
        spans `setStyling` has issued since. */
    var stylingStart: nat
    var spans: seq<Span>

    /** `__init__`: takes the style's token types in iteration order and numbers them. */
    constructor (grammar: Grammar, engine: Engine, styleKeys: seq<TokenType>)
      ensures this.grammar == grammar && this.engine == engine
      ensures SlotsByLastIndex(styleKeys, tokenStyles)
      ensures cache == map[0 := [Root]]
      ensures stylingStart == 0 && spans == []
    {
      this.grammar := grammar;
      this.engine := engine;
      this.cache := map[0 := [Root]];
      var slots := BuildTokenStyles(styleKeys);
      this.tokenStyles := slots;
      this.stylingStart := 0;
      this.spans := [];
    }

    /** The host's `startStyling(start)`. */
    method StartStyling(start: nat)
      modifies this
      ensures stylingStart == start && spans == []
    {
      stylingStart := start;
      spans := [];
    }

    /** The host's `setStyling(length, slot)`: styles the next `length`
        characters. */
    method SetStyling(length: nat, slot: nat)
      modifies this
      ensures stylingStart == old(stylingStart)
      ensures spans == old(spans) + [Span(length, slot)]
    {
      spans := spans + [Span(length, slot)];
    }

    /** The `for rexmatch, action, new_state in statetokens` search: the
        rules are tried in order and the first match ends the search. */
    method FindRule(statetokens: seq<Rule>, text: string, pos: nat) returns (found: Option<Selected>)
      ensures found == FirstMatch(engine, statetokens, text, pos)
    {
      found := None;
      var j := 0;
      while j < |statetokens| && found.None?
        invariant j <= |statetokens|
        invariant found.None? ==> FirstMatchFrom(engine, statetokens, text, pos, j) == FirstMatch(engine, statetokens, text, pos)
        invariant found.Some? ==> found == FirstMatch(engine, statetokens, text, pos)
      {
        var m := engine.rexmatch(statetokens[j].pattern, text, pos);
        if m.Some? {
          found := Some(Selected(j, m.value));
        }
        j := j + 1;
      }
    }

    /** One iteration of the `while 1` loop of `get_tokens_unprocessed`, on
        its variables `pos`, `statestack` and `statetokens`: what it yields,
        and where the loop goes next (with the new `statetokens`). */
    method LexStep(text: string, pos: nat, statestack: seq<StateName>, statetokens: seq<Rule>)
      returns (r: StepResult, nextTokens: seq<Rule>)
      requires Sound(engine) && pos <= |text| && Ready(grammar, Config(pos, statestack))
      requires statetokens == ActiveRules(grammar, Config(pos, statestack))
      ensures r == Step(grammar, engine, text, Config(pos, statestack))
      ensures r.Continue? ==> nextTokens == ActiveRules(grammar, r.next)
    {
      ghost var here := Config(pos, statestack);
      var found := FindRule(statetokens, text, pos);
      if found.Some? {
        var rule := statetokens[found.value.index];
        var matchEnd := found.value.matchEnd;
        StepOnMatch(grammar, engine, text, here, found.value);
        var out: seq<Token> := [];
        match rule.action {
          case Skip =>
          case Emit(kind) =>
            out := [Token(pos, kind, text[pos..matchEnd])];
          case Callback(name) =>
            out := engine.expand(name, text, pos, matchEnd);
        }
        var newStack := statestack;
        nextTokens := statetokens;
        if !rule.transition.Stay? {
          var next := ApplyTransition(rule.transition, statestack);
          if next.None? || |next.value| == 0 {
            return Fail(out, StackUnderflow), nextTokens;
          }
          newStack := next.value;
          var newTop := newStack[|newStack| - 1];
          if newTop !in grammar.tokens {
            return Fail(out, UnknownState(newTop)), nextTokens;
          }
          nextTokens := grammar.tokens[newTop];
        }
        r := Continue(out, Config(matchEnd, newStack));
      } else {
        nextTokens := statetokens;
        if pos == |text| {
          // `text[pos]` raises `IndexError`, which ends the generator.
          return Stop, nextTokens;
        }
        if text[pos] == '\n' {
          // At the end of a line, the stack goes back to `["root"]`.
          if Root !in grammar.tokens {
            return Fail([], UnknownState(Root)), nextTokens;
          }
          nextTokens := grammar.tokens[Root];
          r := Continue([Token(pos, Text, "\n")], Config(pos + 1, [Root]));
        } else {
          r := Continue([Token(pos, Error, [text[pos]])], Config(pos + 1, statestack));
        }
      }
    }

    /** `get_tokens_unprocessed(text, stack)`: the `while 1` loop over `pos`
        and a private copy of `stack`, for at most `fuel` iterations. */
    method GetTokensUnprocessed(text: string, stack: seq<StateName>, fuel: nat) returns (tokens: seq<Token>, outcome: Outcome)
      requires Sound(engine)
      ensures Trace(tokens, outcome) == Tokenize(grammar, engine, text, stack, fuel)
    {
      tokens := [];
      var pos: nat := 0;
      var statestack := stack;
      if |statestack| == 0 {
        return tokens, Raised(StackUnderflow);
      }
      var top := statestack[|statestack| - 1];
      if top !in grammar.tokens {
        return tokens, Raised(UnknownState(top));
      }
      var statetokens := grammar.tokens[top];
      var budget := fuel;
      while true
        invariant pos <= |text| && Ready(grammar, Config(pos, statestack))
        invariant statetokens == ActiveRules(grammar, Config(pos, statestack))
        invariant var rest := Run(grammar, engine, text, Config(pos, statestack), budget);
          Tokenize(grammar, engine, text, stack, fuel) == Trace(tokens + rest.tokens, rest.outcome)
        decreases budget
      {
        if budget == 0 {
          return tokens, OutOfFuel;
        }
        ghost var here := Config(pos, statestack);
        ghost var before := tokens;
        var step, nextTokens := LexStep(text, pos, statestack, statetokens);
        match step
        case Stop =>
          return tokens, Finished;
        case Fail(out, fault) =>
          RunAfterFail(grammar, engine, text, here, budget);
          tokens := tokens + out;
          return tokens, Raised(fault);
        case Continue(out, next) =>
          tokens := tokens + out;
          pos, statestack, statetokens := next.pos, next.stack, nextTokens;
          budget := budget - 1;
          RunAfterContinue(grammar, engine, text, here, budget + 1);
          AppendAssociates(before, out, Run(grammar, engine, text, next, budget).tokens);
      }
    }

    /** `highlight_slow(start, end)`: lexes `text[start:]` from `("root",)`,
        starts styling at `start` and issues one `setStyling` per token. */
    method HighlightSlow(text: string, start: nat, end: nat, fuel: nat) returns (outcome: HighlightOutcome)
      requires Sound(engine)
      modifies this
      ensures stylingStart == start
      ensures Highlighting(spans, outcome) == Highlight(grammar, engine, tokenStyles, text, start, fuel)
    {
      var code := Suffix(text, start);
      var tokens, status := GetTokensUnprocessed(code, [Root], fuel);
      ghost var styled := StyleSpans(tokens, tokenStyles);
      StartStyling(start);
      var i := 0;
      while i < |tokens|
        invariant i <= |tokens| && stylingStart == start && |spans| == i
        invariant forall k :: 0 <= k < i ==>
          tokens[k].kind in tokenStyles && spans[k] == Span(|tokens[k].value|, tokenStyles[tokens[k].kind])
      {
        var kind := tokens[i].kind;
        if kind !in tokenStyles {
          // `self.token_styles[ttype]` raises `KeyError`.
          assert spans == styled.spans;
          return MissingStyle(kind);
        }
        SetStyling(|tokens[i].value|, tokenStyles[kind]);
        i := i + 1;
      }
      assert spans == styled.spans;
      outcome := match status
        case Finished => Completed
        case Raised(fault) => TokenizerRaised(fault)
        case OutOfFuel => Diverged;
    }
  }
}
