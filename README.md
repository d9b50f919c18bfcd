# Griphitor editor lexer, modelled in Dafny

Griphitor is a Qt (QScintilla) text editor that highlights its buffer with
Pygments. Its lexer object, `ViewLexer`, carries its own copy of Pygments'
`RegexLexer` tokenizer loop. This project models that loop and the code
around it:

- the state-stack tokenizer `get_tokens_unprocessed`. It keeps a position
  and a list of state names. At each position it tries the active state's
  rules in order and yields a token for the first match. It then applies
  the rule's stack directive. When no rule matches it falls back to the
  line-feed reset or a one-character `Error` token, and it stops at the end
  of the text;
- the style-slot numbering loop in `ViewLexer.__init__`;
- the span emission of `highlight_slow`: one `setStyling(length, slot)`
  call per token through the host's styling cursor;
- `View.get_line_separator`.

Layout:

- `lexer_types.dfy` (module `LexerTypes`) holds the vocabulary: tokens,
  rules, directives, the grammar table and the regular-expression engine.
  The engine is an oracle.
- `transitions.dfy` (module `Transitions`) gives the stack directives as
  functions, with an in-place method proved against them.
- `tokenizer.dfy` (module `Tokenizer`) holds one loop iteration (`Step`),
  a run of at most `fuel` iterations (`Run`) and the generator
  (`Tokenize`). These are the specification functions.
- `tokenizer_properties.dfy` (module `TokenizerProperties`) proves when a
  run ends and that the tokens spell the text.
- `view_lexer.dfy` (module `Editor`) holds slot numbering, spans and the
  `ViewLexer` class. The class's methods implement the loops imperatively
  and are proved equal to the specification functions.
- `line_separator.dfy` (module `EditorView`) models `get_line_separator`.

How the code departs from an idealised highlighter, and what the model
follows:

- **Popping past the bottom of the stack raises.** `"#pop"` on an empty
  list raises `IndexError` (`list.pop()`). `del statestack[-n:]` with `n`
  at least the stack height empties the list. The `statestack[-1]` lookup
  that follows is outside the `try`, so it raises too. The model follows
  the code: `Raised(StackUnderflow)`. The pop is not clamped at the root
  state; the model raises where the code raises.
- **There is no incremental restart.** `cache = {0: ("root",)}` is written
  and never read. `highlight_slow` always lexes `text[start:]` from
  `("root",)` and ignores `end`. The model does the same.
- **The loop need not terminate.** A rule that matches the empty string
  and has no directive makes it spin forever. The model runs on a step
  budget (`fuel`) and reports `OutOfFuel`.

## Model

| member | source | states |
|---|---|---|
| Transitions.ApplyOpsConcat | src/editor.py:92-99 | A tuple directive is applied element by element, left to right: doing `a + b` is doing `a` and then `b`, and a failure in `a` is final |
| Transitions.ApplyPops | src/editor.py:94-95 | `n` `"#pop"`s remove exactly the top `n` entries when the stack holds at least `n`, and raise when it holds fewer |
| Transitions.ApplyEnters | src/editor.py:98-99 | A tuple of state names pushes exactly those names, in order, on top of the stack |
| Transitions.PopCountMatchesPops | src/editor.py:93-102 | `"#pop:n"` (`del statestack[-n:]`) and `n` `"#pop"`s leave the same stack when it holds at least `n` entries; with fewer, the slice empties the list and the tuple raises |
| Transitions.ApplyTransition | src/editor.py:90-106 | The in-place `pop`/`append`/`del` loop over the state list yields exactly the stack `NewStack` specifies, including the `IndexError` cases |
| Tokenizer.FirstMatchFrom | src/editor.py:80-82 | The selected rule matches at `pos` with the returned end, and no earlier rule matches; when none is selected, no rule matches |
| Tokenizer.Step | src/editor.py:79-123 | Every continuing iteration leaves the loop ready: the stack is non-empty, its top is a known state, and `pos` does not move backwards or past the end. The generator stops exactly when no rule matches at `pos == len(text)` |
| Tokenizer.StepOnMatch | src/editor.py:80-108 | On a match: the action's output is yielded at `pos`; a plain token type yields `(pos, type, text[pos:end])`; `None` yields nothing. `pos` becomes the match end and the stack follows the directive. The iteration continues exactly when the directive and the new top's lookup do not raise |
| Tokenizer.NoMatchAtLineFeed | src/editor.py:113-119 | With no match at a line feed, `(pos, Text, "\n")` is yielded, the stack becomes exactly `["root"]` and `pos` moves by one |
| Tokenizer.NoMatchElsewhere | src/editor.py:120-121 | With no match at any other character, `(pos, Error, text[pos])` is yielded, the stack is unchanged and `pos` moves by exactly one |
| Tokenizer.PopCountPastBottom | src/editor.py:100-107 | A `"#pop:n"` rule raises `IndexError` exactly when `n` is at least the stack height; otherwise the top `n` entries go. No clamping |
| Tokenizer.PopZeroEmptiesStack | src/editor.py:100-107 | A `"#pop:0"` rule (`del statestack[0:]`) empties the list, and the step raises `IndexError` whatever the stack holds |
| Tokenizer.PopsPastBottom | src/editor.py:93-107 | A tuple of `n` `"#pop"`s raises when `n` is at least the stack height; otherwise the top `n` entries go |
| Tokenizer.TokenizeFromRoot | src/editor.py:68-78 | With the default stack `("root",)` the loop starts in `root` at offset 0 |
| TokenizerProperties.StepAdvances | src/editor.py:89-121 | When every pattern match is non-empty, every continuing iteration moves `pos` strictly forward |
| TokenizerProperties.RunTerminates | src/editor.py:79-123 | When every pattern match is non-empty, the loop stops or raises within `len(text) - pos + 1` iterations |
| TokenizerProperties.EmptyMatchNeverEnds | src/editor.py:79-89 | When the first rule matching at `pos` matches the empty string and has no directive, the loop never ends, whatever the budget |
| TokenizerProperties.StepYieldsConsumedText | src/editor.py:83-89 | With plain token-type actions only, each iteration yields one token holding exactly the text it consumed, at the position where it started |
| TokenizerProperties.RunTiles | src/editor.py:79-123 | With plain token-type actions only, a run that stops yields tokens lying end to end from the starting position to the end of the text |
| TokenizerProperties.TokensSpellText | src/editor.py:68-123 | Round trip: from `("root",)` with plain token-type actions only, when the generator stops, the yielded values concatenate to the whole text. Each token sits at the offset where its value begins |
| Editor.BuildTokenStyles | src/editor.py:50-60 | The slot loop gives every style key a slot and no other key one; each key's slot is the position of its last occurrence in iteration order |
| Editor.SlotsUnique | src/editor.py:50-60 | The slot numbering is determined by the keys' iteration order alone |
| Editor.DistinctKeysGetDenseSlots | src/editor.py:50-60 | When each key occurs once, key `i` gets slot `i`, the slots are exactly `0 .. n-1`, and no two keys share a slot |
| Editor.StyleSpans | src/editor.py:132-133 | One span per token, in token order, each with the length of the token's text and its type's slot. The spans stop at the first token type without a slot, which raises `KeyError` |
| Editor.SpansFollowTokens | src/editor.py:131-133 | Spans as long as their tokens, over tokens lying end to end over the code, style the whole code; each starts where its token starts |
| Editor.HighlightCompleted | src/editor.py:125-133 | A highlight that completes issued one span per token of a tokenizer run that stopped |
| Editor.HighlightTilesSuffix | src/editor.py:125-133 | With plain token-type actions only, a completed highlight's spans tile `text[start:]` with no gap: they style exactly its length, and span `i` starts where token `i` starts and covers exactly that token's text |
| Editor.ViewLexer.constructor | src/editor.py:39-60 | The lexer holds the grammar, slots numbered as the slot loop numbers them, and `cache == {0: ("root",)}` |
| Editor.ViewLexer.StartStyling | src/editor.py:131 | `startStyling(start)` puts the cursor at `start` with no spans issued |
| Editor.ViewLexer.SetStyling | src/editor.py:133 | `setStyling(length, slot)` appends exactly one span and leaves the cursor's start alone |
| Editor.ViewLexer.FindRule | src/editor.py:80-108 | The rule search loop returns exactly the first rule, in order, that matches at `pos` |
| Editor.ViewLexer.LexStep | src/editor.py:80-123 | One iteration on the variables `pos`, `statestack` and `statetokens` does exactly what `Step` specifies, and afterwards `statetokens` is the new top's rule list |
| Editor.ViewLexer.GetTokensUnprocessed | src/editor.py:68-123 | The `while 1` loop, run on a private copy of the caller's stack, yields exactly the tokens and ending `Tokenize` specifies |
| Editor.ViewLexer.HighlightSlow | src/editor.py:125-133 | Styling starts at `start`; the spans issued and the way the call ends are exactly those `Highlight` specifies |
| EditorView.LineSeparator | src/editor.py:174-184 | `"\r\n"` exactly for Windows, `"\n"` exactly for Unix, `"\r"` exactly for Mac, and `""` exactly for any other mode |
| EditorView.SeparatorIdentifiesMode | src/editor.py:174-184 | Each of the three modes has its own separator, from which the mode can be read back; every other mode has none |

## Left out

- Theme loading at import (src/editor.py:22-25): filesystem and JSON I/O.
- `convert_size` (src/editor.py:28-35): floating-point `log`, `pow` and `round`.
- The regular-expression engine behind `rexmatch` and Pygments' `_tokens` tables. Matching is an oracle (`Engine.rexmatch`). The only property assumed of it is that a match starting at `pos` ends between `pos` and the end of the text.
- Callback actions `action(lexer, m)`. Their output is an uninterpreted token list (`Engine.expand`).
- The `assert False` branch for a malformed directive (src/editor.py:105-106). The `Transition` datatype has no such value.
- Generator laziness. A run is modelled as the list of everything it yields plus how it ends, so a consumer stopping early is not modelled. `highlight_slow` issues the spans of the tokens yielded before a tokenizer exception, and so does the model.
- Non-termination. A loop that never ends is modelled as a run that is still going when the `fuel` budget runs out (`OutOfFuel`, `Diverged`).
- The token-type hierarchy. Token types are compared by name only; parent types such as `Token.Keyword` are not looked up for a subtype.
- Style values. `setColor`, `setPaper` and `setFont` (src/editor.py:54-59) only colour a slot; the model keeps the slot numbers.
- `defaultPaper`, `language`, `description`, `styleText`'s timing and window title (src/editor.py:135-144), `set_extra_settings` and `View.__init__`'s `SendScintilla` settings: Qt-only calls.
- The editor buffer. `view.text()` is a parameter of `HighlightSlow`.
- Editor.HighlightTilesSuffix: the model counts offsets and span lengths in characters, as Python's `text[start:]` and `len(value)` do (src/editor.py:128, 133). QScintilla's `startStyling` and `setStyling` count UTF-8 bytes, so in the running editor the spans line up with the document only for ASCII text; the host's byte positions are not modelled.
- `src/__main__.py` is not part of this model: window, menu and dialog wiring.
- Editor.ViewLexer.constructor: the style's keys come in as a sequence in iteration order. The Pygments style object and its per-key values are not modelled.
