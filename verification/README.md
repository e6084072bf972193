# typr sentence generator and typing test, in Dafny

This project models the logic of typr, a typing-speed test whose API
produces random grammatical sentences. It covers four parts:

- **The sentence generator** (`generateSentence` with its inner `expand`,
  and `capitalize`). A symbol is read in one of three ways:
  - a bracketed `{category}` becomes a word drawn from that category's word
    set, or the text `[category]` when the set is empty;
  - a grammar key picks one of its alternatives at random, splits it on
    single spaces, expands each part and re-joins the results with single
    spaces, in order;
  - anything else is emitted unchanged.

  A sentence is the expansion of `S` with its first character upper-cased
  and a period appended.
- **The shipped grammar table**, as a constant. Its well-formedness is
  proved: `S` is present, every rule has alternatives, every leaf names one
  of the seven categories, and the grammar is acyclic.
- **The sentence endpoint's count clamp and batch**. The requested count
  passes through `Math.min(parseInt(count) || 1, 20)`. The endpoint then
  runs that many generations and returns either all of them in order or a
  single failure.
- **The typing test's reducer**. It moves a test through idle, typing and
  finished on each input change. It also computes the per-keystroke
  statistics and the reset state.

The model's two effects are parameters. A `Store` gives, for each position
of a derivation, the random draw in [0, 1) that picks an alternative and
the store's reply to "random member of set". A position is the path of
child indices from the root, and sentence `i` of a batch is rooted at
`[i]`. `ExpandLocal` proves that an expansion reads only the positions
below its own. Sibling expansions are therefore independent, and
evaluating them in sequence gives the same result as `Promise.all`. Clock
readings in the typing test are parameters as well.

Files: `wrappers.dfy` (Option, Result), `text.dfy` (split, join,
capitalise), `grammar.dfy` (categories, grammar, symbol classification,
well-formedness), `generator.dfy` (expansion and sentence generation),
`grammar_rules.dfy` (the shipped grammar), `sentence_route.dfy` (count
clamp and batch), `example.dfy` (a worked derivation),
`typing_test.dfy` (the reducer).

Points where the code's behaviour is easy to misread:
- An empty category produces `[category]`, in square brackets, not the
  braces the category was written with.
- A negative count is not raised to the minimum of 1. It is echoed back
  with no sentences, because `|| 1` only replaces falsy values and
  `Array.from` makes no slots for a negative length.
- Alternatives are split on the single character `" "`, not on
  whitespace in general. A doubled space yields an empty symbol, which
  is expanded as the empty literal.
- A grammar key whose list of alternatives is empty is an error (indexing
  `[]` yields `undefined`, and splitting that throws). It is not an
  unguarded recursion, and it is modelled as `EmptyRuleList`.

## Model

| member | source | states |
|---|---|---|
| Text.Split | apps/api/src/sentenceGenerator.ts:16 | splitting on a space yields at least one part, no part contains the separator, and there is one more part than separators |
| Text.JoinSplit | apps/api/src/sentenceGenerator.ts:16-17 | joining the split parts with the same separator restores the original string |
| Text.SplitJoin | apps/api/src/sentenceGenerator.ts:16-17 | splitting a join of separator-free parts gives back exactly those parts in order |
| Text.ToUpperAscii | apps/api/src/sentenceGenerator.ts:25 | a lower-case ASCII letter becomes its upper-case letter; every other character is unchanged |
| Text.Capitalize | apps/api/src/sentenceGenerator.ts:24-26 | the length is kept, the first character is upper-cased (never left lower-case) and every later character is unchanged; the empty string stays empty |
| Text.CapitalizeIdempotent | apps/api/src/sentenceGenerator.ts:24-26 | capitalising an already capitalised string changes nothing |
| Grammars.ParseCategory | apps/api/src/types/grammar.ts:7-14 | a name is recognised exactly when it is the name of one of the seven categories, and then it maps back to that name |
| Grammars.ParseCategoryName | apps/api/src/types/grammar.ts:7-14 | each category's name parses back to that category |
| Grammars.CategoryOf | apps/api/src/sentenceGenerator.ts:7 | the category is the text strictly between the first and last character, and empty for a symbol shorter than two characters, a case `Classify` never reaches since the shortest bracketed symbol is `{}` |
| Grammars.BracketRoundTrip | apps/api/src/sentenceGenerator.ts:6-7 | `{name}` is recognised as bracketed and stripping it gives back `name` |
| Grammars.Placeholder | apps/api/src/sentenceGenerator.ts:9 | the fallback text is the category in square brackets, so it is two characters longer and never itself a bracketed category |
| Grammars.Classify | apps/api/src/sentenceGenerator.ts:6-13 | a symbol starting with `{` and ending with `}` is a category reference even if it is also a key; otherwise a key is a nonterminal, and anything else is a literal carrying the symbol itself |
| SentenceGenerator.ChooseIndex | apps/api/src/sentenceGenerator.ts:15 | for a draw in [0, 1) and a non-empty list, the picked index is in range and is the floor of draw × length |
| SentenceGenerator.ChooseIndexReaches | apps/api/src/sentenceGenerator.ts:15 | every alternative can be picked: the draw i/n picks index i |
| SentenceGenerator.Expand | apps/api/src/sentenceGenerator.ts:5-18 | for an acyclic grammar expansion terminates; a bracketed symbol becomes the returned word unaltered, `[category]` when the store has none, or a store failure; a non-key literal, including the empty symbol, expands to itself; a failure blamed on an empty rule list names a key whose list is empty |
| SentenceGenerator.ExpandParts | apps/api/src/sentenceGenerator.ts:16 | a successful expansion of an alternative yields one word per part, and a failure blamed on an empty rule list names a key that has no alternatives |
| SentenceGenerator.ExpandPartsInOrder | apps/api/src/sentenceGenerator.ts:16 | the words of a successful alternative come back in part order, word j being the expansion of part j at child position j |
| SentenceGenerator.ExpandPartsFails | apps/api/src/sentenceGenerator.ts:16 | an alternative's expansion fails exactly when the expansion of one of its parts fails |
| SentenceGenerator.ExpandNonterminal | apps/api/src/sentenceGenerator.ts:12-17 | a nonterminal's parts all sit strictly lower in the acyclicity order, its expansion fails exactly when one part's does, and otherwise it is the parts' expansions joined with single spaces in order |
| SentenceGenerator.ExpandCompose | apps/api/src/sentenceGenerator.ts:15-17 | given the expansions of the picked alternative's parts, the nonterminal's expansion is exactly their space-join |
| SentenceGenerator.ExpandAvailable | apps/api/src/sentenceGenerator.ts:5-18 | if the store never fails, the only failure expansion can report is an empty rule list |
| SentenceGenerator.ExpandSucceeds | apps/api/src/sentenceGenerator.ts:5-18 | over an acyclic grammar whose keys all have alternatives, with a store that never fails, expansion of any symbol succeeds |
| SentenceGenerator.ExpandFromBank | apps/api/src/sentenceGenerator.ts:6-10 | with a store answering from a word bank, a category leaf is a word of that category's set, or `[category]` exactly when the set is empty, or a store failure |
| SentenceGenerator.ExpandLocal | apps/api/src/sentenceGenerator.ts:16 | two stores that agree below a position give the same expansion there, so sibling expansions are independent and their evaluation order does not matter |
| SentenceGenerator.GenerateSentence | apps/api/src/sentenceGenerator.ts:20-21 | a sentence exists exactly when expanding `S` succeeds; it is one character longer than the expansion, ends in `.`, upper-cases the first character and keeps every other character |
| SentenceGenerator.GenerateSentenceSucceeds | apps/api/src/sentenceGenerator.ts:4-22 | over a well-formed grammar with a store that never fails, generation always yields a non-empty sentence |
| GrammarRules.ShippedJoins | apps/api/src/grammarRules.ts:4-15 | each listed symbol sequence has no spaces inside its symbols and joins with single spaces into the alternative exactly as written |
| GrammarRules.LeafShape | apps/api/src/grammarRules.ts:9-15 | each of the seven keys outside `S`, `SimpleSentence`, `NP`, `VP` and `PP` has a single alternative, the placeholder `{name}` of its own category, both as written and as split |
| GrammarRules.ShippedParts | apps/api/src/grammarRules.ts:4-15 | each shipped alternative splits into the symbols listed for it |
| GrammarRules.ShippedHasStart | apps/api/src/grammarRules.ts:4 | `S` is a key of the shipped grammar and is read as a nonterminal |
| GrammarRules.ShippedNonEmptyRules | apps/api/src/grammarRules.ts:4-15 | every key of the shipped grammar has at least one alternative |
| GrammarRules.ShippedClosed | apps/api/src/grammarRules.ts:4-15 | every symbol of every shipped alternative is a key or a bracketed name of one of the seven categories, so no raw literal reaches a sentence |
| GrammarRules.ShippedRanked | apps/api/src/grammarRules.ts:4-15 | the shipped grammar is acyclic: a rank map puts every nonterminal strictly above the nonterminals its alternatives mention |
| GrammarRules.ShippedWellFormed | apps/api/src/grammarRules.ts:4-15 | the shipped grammar has `S`, non-empty rules, only known leaves and no cycle |
| SentenceRoute.ClampCount | apps/api/src/routes/sentence.ts:8 | the count is never 0 and never above 20; a NaN or 0 parse becomes 1, values from 1 to 20 are kept, larger ones become 20, and negatives pass through unchanged |
| SentenceRoute.ClampCountIdempotent | apps/api/src/routes/sentence.ts:8 | clamping a clamped count changes nothing |
| SentenceRoute.BatchLength | apps/api/src/routes/sentence.ts:12 | a positive count makes that many slots, any other count none |
| SentenceRoute.GenerateFrom | apps/api/src/routes/sentence.ts:11-13 | the remaining generations of a batch come back one per index in index order, or the batch fails exactly when one of them fails |
| SentenceRoute.GenerateBatch | apps/api/src/routes/sentence.ts:11-13 | a batch has exactly as many sentences as slots, sentence j being the generation rooted at j, and fails exactly when some generation fails |
| SentenceRoute.HandleRequest | apps/api/src/routes/sentence.ts:7-17 | the response echoes the clamped count with that many sentences in order, and it is the generic failure, with no partial list, exactly when some generation fails |
| SentenceRoute.DefaultsToOne | apps/api/src/routes/sentence.ts:8 | a non-numeric or zero count is served as exactly one sentence |
| SentenceRoute.CapsAtTwenty | apps/api/src/routes/sentence.ts:8 | a count above 20 is served as exactly 20 sentences |
| SentenceRoute.NegativeCountGeneratesNothing | apps/api/src/routes/sentence.ts:8-14 | a negative count is echoed back with an empty list and never fails |
| SentenceRoute.ShippedRequestSucceeds | apps/api/src/routes/sentence.ts:10-14 | with the shipped grammar and a store that never fails, every request is answered with sentences |
| Example.FoxJumps | apps/api/src/sentenceGenerator.ts:4-22 | a grammar S → NP VP, NP → Det Noun, VP → Verb, with a store giving "the", "fox" and "jumps", produces exactly "The fox jumps." |
| TypingTest.Matches | apps/client/src/components/typing-test.tsx:119-124 | the number of correct characters is at most the number typed |
| TypingTest.CountCorrect | apps/client/src/components/typing-test.tsx:119-124 | the counting loop yields the number of positions where input and text agree, with positions past the end of the text never agreeing |
| TypingTest.MatchesAllIffPrefix | apps/client/src/components/typing-test.tsx:119-124 | every typed character is correct exactly when the input is a prefix of the text |
| TypingTest.RoundRatio | apps/client/src/components/typing-test.tsx:126 | the rounded ratio is the nearest integer to a/b, halves rounding up |
| TypingTest.CalculateStats | apps/client/src/components/typing-test.tsx:107-129 | without a truthy start time, or before time has passed, the stats are zero; otherwise accuracy is the rounded percentage of correct characters (100 for an empty input) and lies in [0, 100], and wpm is the rounded characters/5 per elapsed minute |
| TypingTest.AccuracyBound | apps/client/src/components/typing-test.tsx:125-126 | a rounded percentage of at most all characters never exceeds 100 |
| TypingTest.HandleInput | apps/client/src/components/typing-test.tsx:137-168 | a finished test or an input longer than the text leaves the state unchanged; otherwise input and cursor follow the new value, the start is stamped at `now` on the first keystroke from idle, the end is stamped at `now` on the keystroke that finishes, and the statistics are recomputed from the new input and the start; status never moves back; the test finishes exactly when it was typing and the input reaches the text's length; idle with one character starts typing at `now`, and idle with any other length stays idle |
| TypingTest.Reset | apps/client/src/components/typing-test.tsx:72-89 | reset loads the sentences joined by spaces, with empty input, idle status, null timings, zero stats, cursor 0 and focus on |
| TypingTest.InitialConsistent | apps/client/src/components/typing-test.tsx:43-58 | the initial state satisfies the state invariant |
| TypingTest.ResetConsistent | apps/client/src/components/typing-test.tsx:73-89 | a reset state satisfies the state invariant |
| TypingTest.HandleInputConsistent | apps/client/src/components/typing-test.tsx:137-168 | the reducer preserves the invariant: cursor at the end of an input no longer than the text, idle with no timings or stats, typing with a start and no end, finished with both and a complete input, accuracy in [0, 100] |
| TypingTest.SingleCharacterTextNeverFinishesAtOnce | apps/client/src/components/typing-test.tsx:144-152 | on a one-character text the first keystroke only starts typing, because finishing looks at the previous status |
| TypingTest.TypingRestFinishes | apps/client/src/components/typing-test.tsx:149-152 | a running test finishes once the rest of its text is typed correctly, keeping its start time, and ends with the stats of the full text |
| TypingTest.TypingWholeTextFinishes | apps/client/src/components/typing-test.tsx:137-168 | typing a freshly loaded text of two or more characters correctly, one key at a time, finishes the test with the whole text as input and, on an advancing clock that starts after zero, accuracy 100 |
| TypingTest.PerfectAccuracy | apps/client/src/components/typing-test.tsx:125-126 | an input that is entirely correct scores accuracy 100 |

## Left out

- The Redis client, `getWordBank` and the loader script are store I/O. The `Store` parameter replaces them. `AnswersFrom` ties a store's replies to a word bank.
- The Express server, routing plumbing, JSON encoding and HTTP status codes are left out. The response is modelled as the clamped count with its sentences, or a generic failure.
- `Math.random` is an oracle draw in [0, 1) per derivation position. The index is the floor of draw × length over exact reals. The rounding of the IEEE double product is not modelled.
- `Promise.all` concurrency is evaluated sequentially, left to right. The model reports the leftmost failure. The original reports whichever rejection happens first in time. Both become the same generic response.
- `parseInt` is an input, `Option<int>`, with `None` for `NaN`. Its scanning of the query string is not modelled.
- Lookups of JavaScript prototype keys such as `constructor` on the grammar object are not modelled; the grammar is a plain map.
- Text.ToUpperAscii: capitalisation covers ASCII only. Unicode case mappings such as `ß` to `SS`, which lengthen the string, are not modelled. Strings are sequences of Dafny characters, not UTF-16 code units.
- TypingTest.CalculateStats: words per minute and accuracy use exact rational arithmetic with round-half-up. Floating-point division and `Math.round` at exact .5 boundaries are not modelled.
- TypingTest.HandleInput: the two or three `Date.now()` readings of one keystroke are one `now` parameter.
- The client UI is left out. This covers rendering, the focus and blur handlers with their timers, paste blocking, the React Query fetch, `invalidateAndReset` and the unused sample texts.
- The ESLint configuration is left out.
