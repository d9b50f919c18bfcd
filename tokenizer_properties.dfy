/** Properties of whole tokenizer runs: when the loop ends, when it cannot,
    and when the yielded tokens reproduce the text. */
module TokenizerProperties {
  import opened LexerTypes
  import opened Transitions
  import opened Tokenizer

  /** Every pattern of the grammar consumes at least one character whenever
      it matches this text. Pygments does not demand this. */
  ghost predicate NonEmptyMatches(g: Grammar, e: Engine, text: string)
  {
    forall st, j, pos: nat ::
      st in g.tokens && 0 <= j < |g.tokens[st]| && pos <= |text| &&
      e.rexmatch(g.tokens[st][j].pattern, text, pos).Some? ==>
        e.rexmatch(g.tokens[st][j].pattern, text, pos).value > pos
  }

  /** Every rule's action is a plain token type (no `None`, no callback). */
  ghost predicate AllEmit(g: Grammar)
  {
    forall st, j :: st in g.tokens && 0 <= j < |g.tokens[st]| ==> g.tokens[st][j].action.Emit?
  }

  /** With non-empty matches every step moves forward: a match moves `pos`
      to its end, past `pos`, and the no-match branch moves it by one. */
  lemma StepAdvances(g: Grammar, e: Engine, text: string, c: Config)
    requires Sound(e) && c.pos <= |text| && Ready(g, c) && NonEmptyMatches(g, e, text)
    ensures Step(g, e, text, c).Continue? ==> Step(g, e, text, c).next.pos > c.pos
  {
    match FirstMatch(e, ActiveRules(g, c), text, c.pos)
    case Some(sel) =>
      assert e.rexmatch(g.tokens[Last(c.stack)][sel.index].pattern, text, c.pos) == Some(sel.matchEnd);
    case None =>
  }

  /** With non-empty matches the loop ends, by stopping or raising, within
      one step per remaining character plus one. */
  lemma {:induction false} RunTerminates(g: Grammar, e: Engine, text: string, c: Config, fuel: nat)
    requires Sound(e) && c.pos <= |text| && Ready(g, c) && NonEmptyMatches(g, e, text)
    requires fuel > |text| - c.pos
    ensures Run(g, e, text, c, fuel).outcome != OutOfFuel
    decreases fuel
  {
    StepAdvances(g, e, text, c);
    match Step(g, e, text, c)
    case Stop =>
    case Fail(_, _) =>
    case Continue(_, next) =>
      RunTerminates(g, e, text, next, fuel - 1);
  }

  /** The code's loop need not end: if the first rule matching at `pos`
      matches the empty string and has no directive, the loop yields the
      same output again and again at the same position, whatever the budget. */
  lemma {:induction false} EmptyMatchNeverEnds(g: Grammar, e: Engine, text: string, c: Config, sel: Selected, fuel: nat)
    requires Sound(e) && c.pos <= |text| && Ready(g, c)
    requires FirstMatch(e, ActiveRules(g, c), text, c.pos) == Some(sel)
    requires sel.matchEnd == c.pos && ActiveRules(g, c)[sel.index].transition.Stay?
    ensures Run(g, e, text, c, fuel).outcome == OutOfFuel
    decreases fuel
  {
    if fuel > 0 {
      assert Step(g, e, text, c).Continue? && Step(g, e, text, c).next == c;
      EmptyMatchNeverEnds(g, e, text, c, sel, fuel - 1);
    }
  }

  // ---------------------------------------------------------------------
  // Tiling: the tokens cover the text with no gap and no overlap.

  /** `ts` lies end to end over `text[from..to]`, each token holding exactly
      the text at its position. */
  predicate Tiles(ts: seq<Token>, text: string, from: nat, to: nat)
    decreases |ts|
  {
    if ts == [] then from == to <= |text|
    else
      var t := Last(ts);
      && t.pos + |t.value| == to
      && to <= |text|
      && t.value == text[t.pos..to]
      && Tiles(Front(ts), text, from, t.pos)
  }

  /** The total length of the tokens' text. */
  function TextLength(ts: seq<Token>): nat
  {
    if ts == [] then 0 else TextLength(Front(ts)) + |Last(ts).value|
  }

  /** The tokens' text, concatenated. */
  function Values(ts: seq<Token>): string
  {
    if ts == [] then "" else Values(Front(ts)) + Last(ts).value
  }

  lemma {:induction false} TilesAppend(a: seq<Token>, b: seq<Token>, text: string, from: nat, mid: nat, to: nat)
    requires Tiles(a, text, from, mid) && Tiles(b, text, mid, to)
    ensures Tiles(a + b, text, from, to)
    decreases |b|
  {
    if b == [] {
      assert a + b == a;
    } else {
      assert Front(a + b) == a + Front(b);
      assert Last(a + b) == Last(b);
      TilesAppend(a, Front(b), text, from, mid, Last(b).pos);
    }
  }

  /** Tiled tokens start where the previous ones end, and together hold
      exactly the covered text. */
  lemma {:induction false} TilesSpell(ts: seq<Token>, text: string, from: nat, to: nat)
    requires Tiles(ts, text, from, to)
    ensures from <= to <= |text|
    ensures to == from + TextLength(ts)
    ensures Values(ts) == text[from..to]
    ensures forall i :: 0 <= i < |ts| ==> ts[i].pos == from + TextLength(ts[..i])
    decreases |ts|
  {
    if ts != [] {
      var t := Last(ts);
      TilesSpell(Front(ts), text, from, t.pos);
      assert text[from..t.pos] + text[t.pos..to] == text[from..to];
      forall i | 0 <= i < |ts|
        ensures ts[i].pos == from + TextLength(ts[..i])
      {
        if i < |ts| - 1 {
          assert Front(ts)[i] == ts[i] && Front(ts)[..i] == ts[..i];
        } else {
          assert ts[..i] == Front(ts);
        }
      }
    }
  }

  /** One step of a grammar whose actions are all plain token types yields
      a single token holding exactly the text the step consumed. */
  lemma StepYieldsConsumedText(g: Grammar, e: Engine, text: string, c: Config)
    requires Sound(e) && c.pos <= |text| && Ready(g, c) && AllEmit(g)
    ensures var r := Step(g, e, text, c);
      r.Continue? ==>
        && |r.emitted| == 1
        && r.emitted[0].pos == c.pos
        && r.emitted[0].value == text[c.pos..r.next.pos]
  {
    var rules := ActiveRules(g, c);
    match FirstMatch(e, rules, text, c.pos)
    case Some(sel) =>
      assert rules[sel.index] == g.tokens[Last(c.stack)][sel.index];
      assert rules[sel.index].action.Emit?;
    case None =>
  }

  /** ... and so tiles that text. */
  lemma StepTiles(g: Grammar, e: Engine, text: string, c: Config)
    requires Sound(e) && c.pos <= |text| && Ready(g, c) && AllEmit(g)
    ensures Step(g, e, text, c).Continue? ==> Tiles(Step(g, e, text, c).emitted, text, c.pos, Step(g, e, text, c).next.pos)
  {
    var r := Step(g, e, text, c);
    if r.Continue? {
      StepYieldsConsumedText(g, e, text, c);
      SingleTile(r.emitted[0], text, c.pos, r.next.pos);
      assert r.emitted == [r.emitted[0]];
    }
  }

  lemma SingleTile(t: Token, text: string, from: nat, to: nat)
    requires t.pos == from <= to <= |text| && t.value == text[from..to]
    ensures Tiles([t], text, from, to)
  {
    assert Front([t]) == [];
  }

  /** When every action is a plain token type and the loop stops, the
      tokens tile the text from the starting position to its end. */
  lemma {:induction false} RunTiles(g: Grammar, e: Engine, text: string, c: Config, fuel: nat)
    requires Sound(e) && c.pos <= |text| && Ready(g, c) && AllEmit(g)
    requires Run(g, e, text, c, fuel).outcome == Finished
    ensures Tiles(Run(g, e, text, c, fuel).tokens, text, c.pos, |text|)
    decreases fuel
  {
    match Step(g, e, text, c)
    case Stop =>
    case Fail(_, _) =>
    case Continue(out, next) =>
      StepTiles(g, e, text, c);
      RunTiles(g, e, text, next, fuel - 1);
      TilesAppend(out, Run(g, e, text, next, fuel - 1).tokens, text, c.pos, next.pos, |text|);
  }

  /** The tokens lie end to end over all of `text` from offset 0: each
      starts where the text of the ones before it ends and holds exactly the
      text at its position. */
  ghost predicate LaidOut(ts: seq<Token>, text: string)
  {
    && TextLength(ts) == |text|
    && forall i :: 0 <= i < |ts| ==>
         && ts[i].pos == TextLength(ts[..i])
         && ts[i].pos + |ts[i].value| <= |text|
         && ts[i].value == text[ts[i].pos..ts[i].pos + |ts[i].value|]
  }

  /** Round trip: lexing from `("root",)` with plain-token-type rules only,
      when the loop stops, yields tokens whose texts spell the whole input,
      each at the offset where its text begins. */
  lemma TokensSpellText(g: Grammar, e: Engine, text: string, fuel: nat)
    requires Sound(e) && Root in g.tokens && AllEmit(g)
    requires Tokenize(g, e, text, [Root], fuel).outcome == Finished
    ensures Values(Tokenize(g, e, text, [Root], fuel).tokens) == text
    ensures LaidOut(Tokenize(g, e, text, [Root], fuel).tokens, text)
  {
    var ts := Tokenize(g, e, text, [Root], fuel).tokens;
    RunTiles(g, e, text, Config(0, [Root]), fuel);
    TilesSpell(ts, text, 0, |text|);
    assert text[0..|text|] == text;
    TilesValues(ts, text, 0, |text|);
  }

  /** Each tiled token holds the text at its own position. */
  lemma {:induction false} TilesValues(ts: seq<Token>, text: string, from: nat, to: nat)
    requires Tiles(ts, text, from, to)
    ensures forall i :: 0 <= i < |ts| ==> ts[i].pos + |ts[i].value| <= |text| && ts[i].value == text[ts[i].pos..ts[i].pos + |ts[i].value|]
    decreases |ts|
  {
    if ts != [] {
      TilesValues(Front(ts), text, from, Last(ts).pos);
      forall i | 0 <= i < |ts| - 1
        ensures ts[i] == Front(ts)[i]
      {
      }
    }
  }
}
