# ai-writing-helper: a verified model of the detector, the humanizer and the pattern library

This project models the core of `ai-writing-helper`, a tool that looks for
"AI-style" signatures in Chinese text and rewrites such text to sound more natural.
The core has three parts:

- `AIDetector.detect` (`ai_humanizer/detector.py`). Four analyzers score the text:
  lexical, syntactic, structural and semantic. Each score is clamped to [0, 100].
  The scores are combined with weights 0.3, 0.25, 0.25 and 0.2. The total gives the
  verdict (`is_ai` when it is at least 60), the confidence (total / 100) and a
  five-band summary that names the dimension with the highest score.
- `AIHumanizer.humanize` (`ai_humanizer/humanizer.py`). This is a pipeline of string
  rewrites in three tiers: light, medium and heavy. Every rewrite is logged.
  - Light swaps the first occurrence of some high-frequency and formal words.
  - Medium replaces words, adjusts syntax and adds two sentence-final particles.
  - Heavy replaces words, adjusts syntax, then adds first-person openers, emotion
    words, softened certainty and five particles.
  - `batch_humanize` runs `humanize` over a list.
- `check_pattern` (`ai_humanizer/rules/patterns.py`). It reports, for each pattern of
  the requested categories in list order, whether the pattern occurs in a text.
  There are six ordered lists of regular expressions.

## Modules

| file | module | what it holds |
|---|---|---|
| `wrappers.dfy` | `Wrappers` | `Option` and `Result` |
| `strings.dfy` | `Strings` | the Python `str` operations the core uses: `strip`, `in`, `find`, `replace(w, n, 1)`, `split`, `join`, `re.split` on a character class with and without a capture |
| `entropy.dfy` | `Entropy` | `random` as oracle inputs: `Coin` (`random.random()`), `Choice` (`random.choice`), `Sample` (`random.sample`) |
| `patterns.dfy` | `Patterns` | the six pattern lists, `compile_patterns`, search, and `check_pattern` as a specification function plus the six-loop method |
| `rules.dfy` | `Rules` | the lexicon record and `Env`, the foreign functions the core calls |
| `detector.dfy` | `Detector` | the four analyzers, their combination, the summary and `detect` |
| `humanizer.dfy` | `Humanizer` | every rewriting stage, the three tiers, `humanize` and `batch_humanize` |

## How the model is built

Each loop of the source is a Dafny `method` with the source's loop. The method is
proved equal to a specification function, and the lemmas are stated about that
function. The function is a fold over the same inputs.

- `text` is reassigned in `_light_humanize`, `_replace_words` and `_add_uncertainty`.
  These become methods with a loop over the words. Their results are tied to
  `SwapAll`, `ReplaceAll` and `SoftenAll`.
- `sentences[idx] = …` updates the list in place. It is modelled by updating a `seq`
  at `idx` (`InsertAt`, `InsertLoop`).
- `new_sentences.append` in `_adjust_syntax` is modelled in `ResplitSentences`.
- `_analyze_syntactic` grows lists with `extend` (`CollectPerSentence`).
- `_analyze_semantic` sums `emotion_count` (`AnalyzeSemantic`).
- `check_pattern` runs six guarded loops (`CheckPattern`, `ScanSection`,
  `ScanCategory`).

Foreign code is passed in through `Env`:

- `segment` stands for `jieba.cut`.
- `engine` answers `pattern.search` for what the model does not interpret.
- `findAll` stands for `re.findall(r'不仅(.{2,20})而且(.{2,20})', text)`.
- The word lists of `rules/ai_keywords.py` and `rules/replacements.py` are fields of
  a `Lexicon` record.

Regular expressions are interpreted in exactly one case. A pattern that starts with
`^` and has no `|` demands its literal prefix at the start of the text. This covers
the opening patterns: `^在当今社会` is found exactly when the text starts with
在当今社会.

Randomness is an `Oracle` per stage. The k-th decision of a loop reads the k-th draw:

- a coin for `random.random()`;
- a pick for `random.choice`, which selects `xs[pick % len(xs)]`;
- keys for `random.sample`, where each key selects one of the remaining elements.

The model therefore covers every outcome the generator could produce. Floats are
`real`, and `round(…, 2)` is the identity.

Three design choices:

- A `Change` datatype holds each log entry; its `Message()` is the string the source
  appends.
- `Growth()` is how much longer the text gets through the rewrite an entry records.
- Several lemmas state `Accounted`: the new length equals the old length plus the
  growth of the log.

### Behaviour the model follows where a reading of the design could differ

- The structural "list structure count" tests whether each of the six indicators
  occurs at all, not how often. It is therefore at most 6 (`detector.py:203`).
- `_add_emotions` and `_add_colloquial_expressions` sample among all non-blank
  sentences. They check the following mark only after sampling, so fewer sentences
  than sampled may qualify (`humanizer.py:251-258`, `285-294`).
- A batch with an unknown intensity does not fail before it starts. Blank texts
  succeed, and the batch stops at the first non-blank text (`humanizer.py:41-65`,
  `313-317`). `BatchErrors` states this.
- Step 2 of `_adjust_syntax` logs a change for each of the first two matches, even
  when an earlier rewrite has already removed that match's text. The logged
  replacement is then a no-op (`humanizer.py:195-196`).
- The `不仅…而且…` pattern is greedy as written (`.{2,20}`). Its matches come from the
  `findAll` oracle.

## Model

| member | source | states |
|---|---|---|
| Strings.Strip | ai_humanizer/detector.py:137 | `s.strip()` is the slice of `s` between a blank prefix and a blank suffix; it is empty exactly when `s` is blank, and otherwise neither starts nor ends with whitespace |
| Strings.ReplaceFirst | ai_humanizer/humanizer.py:86 | `replace(w, n, 1)` leaves a text without `w` unchanged; otherwise the length changes by `len(n) - len(w)` |
| Strings.ReplaceFirstShape | ai_humanizer/humanizer.py:166 | when `w` occurs, the result is the text before the first occurrence, then `n`, then the text after that occurrence; for a non-empty `w` the part before contains no `w` |
| Strings.SplitOn | ai_humanizer/detector.py:136 | splitting always yields at least one piece |
| Strings.SplitOnContent | ai_humanizer/detector.py:136 | the split has one piece more than the text has separators, and its pieces, read in order, are the text with the separators removed |
| Strings.SplitOnPieces | ai_humanizer/detector.py:136 | no piece of the split contains a separator |
| Strings.JoinSplitOn | ai_humanizer/detector.py:194 | splitting on one separator and joining with it gives the string back |
| Strings.SplitKeep | ai_humanizer/humanizer.py:199 | the captured split has odd length: bodies at even positions, marks at odd positions |
| Strings.SplitKeepShape | ai_humanizer/humanizer.py:199 | every odd position holds exactly one mark; no body contains a mark |
| Strings.ConcatSplitKeep | ai_humanizer/humanizer.py:242 | `''.join` of the captured split reproduces the text |
| Entropy.Choice | ai_humanizer/humanizer.py:85 | `random.choice(xs)` returns an element of `xs` |
| Entropy.Sample | ai_humanizer/humanizer.py:233 | `random.sample(pop, min(k, len(pop)))` returns `min(k, len(pop))` elements, all from `pop`, and no element twice when `pop` has none twice |
| Patterns.CompilePatterns | ai_humanizer/rules/patterns.py:121-123 | one compiled pattern per source pattern, in the same order, each carrying its source text |
| Patterns.CompiledSizes | ai_humanizer/rules/patterns.py:126-131 | the compiled lists have 25, 5, 3, 6, 7 and 4 patterns |
| Patterns.FoundSound | ai_humanizer/rules/patterns.py:154-156 | every position the scan lists holds a pattern that is found, and the positions strictly increase |
| Patterns.FoundComplete | ai_humanizer/rules/patterns.py:154-156 | every pattern that is found is listed |
| Patterns.FoundAtMost | ai_humanizer/rules/patterns.py:154-156 | at most one position per pattern |
| Patterns.HitsAtFound | ai_humanizer/rules/patterns.py:154-156 | the k-th entry of a loop is `(cat, source)` of the k-th pattern found, so there is one entry per found pattern, in list order, and no more entries than patterns |
| Patterns.HitsTagged | ai_humanizer/rules/patterns.py:154-156 | a loop yields at most one entry per pattern, all tagged with its category |
| Patterns.HitsNonEmpty | ai_humanizer/rules/patterns.py:154-156 | a list with a pattern that is found yields an entry |
| Patterns.ScanCategory | ai_humanizer/rules/patterns.py:154-156 | the loop appends exactly the category's hits, in list order, to the entries collected so far |
| Patterns.ScanSection | ai_humanizer/rules/patterns.py:153-156 | a guarded block scans its category when `pattern_type` is `'all'` or that category, and otherwise appends nothing |
| Patterns.CheckPattern | ai_humanizer/rules/patterns.py:151-183 | `check_pattern` returns the sections of fixed, parallel, summary, list, opening and closing, in that order |
| Patterns.SingleCategory | ai_humanizer/rules/patterns.py:153-181 | a single category name returns exactly that category's hits |
| Patterns.SingleCategoryTagged | ai_humanizer/rules/patterns.py:153-181 | each entry of a single-category result is tagged with that category and carries the source of one of its patterns that is found; there are no more entries than patterns |
| Patterns.SingleCategoryComplete | ai_humanizer/rules/patterns.py:153-181 | every pattern of the category that is found appears in the result |
| Patterns.AllIsConcatenation | ai_humanizer/rules/patterns.py:151-183 | `'all'` returns the six single-category results one after another |
| Patterns.UnknownCategoryEmpty | ai_humanizer/rules/patterns.py:151-183 | a `pattern_type` that is neither `'all'` nor a category returns the empty list |
| Patterns.Rank | ai_humanizer/rules/patterns.py:153-181 | each category has its position in the order in which `check_pattern` tries them |
| Patterns.AllRankOrdered | ai_humanizer/rules/patterns.py:151-183 | under `'all'` every entry is tagged with a category, and the tags never go back in the order fixed, parallel, summary, list, opening, closing |
| Patterns.LibrarySizes | ai_humanizer/rules/patterns.py:10-119 | each category's compiled list has the size of its source list |
| Patterns.LibraryBound | ai_humanizer/rules/patterns.py:153-181 | with the library of `patterns.py`, a single category returns at most 25, 5, 3, 6, 7 or 4 entries |
| Patterns.AllBound | ai_humanizer/rules/patterns.py:151-183 | `'all'` returns at most one entry per pattern of the library |
| Patterns.LibraryBoundAll | ai_humanizer/rules/patterns.py:151-183 | with the library of `patterns.py`, `'all'` returns at most 50 entries |
| Patterns.PlainAnchoredSearch | ai_humanizer/rules/patterns.py:104-105 | `^w` with `w` free of metacharacters is found exactly in the texts that start with `w` |
| Patterns.AnchoredSearchPrefix | ai_humanizer/rules/patterns.py:106 | `^w` followed by a metacharacter that is not a quantifier, with no `\|`, is found only in texts that start with `w` |
| Patterns.OpeningShapes | ai_humanizer/rules/patterns.py:103-111 | each opening pattern is `^` and a plain literal; the third is followed by `.{2,10}的发展` |
| Patterns.OpeningLiteralSearch | ai_humanizer/rules/patterns.py:103-111 | each opening pattern except the third is found exactly when the text starts with its literal, for example `^在当今社会` |
| Patterns.DevelopmentOpeningPrefix | ai_humanizer/rules/patterns.py:106 | `^随着.{2,10}的发展` is found only in texts that start with 随着 |
| Detector.Count | ai_humanizer/detector.py:93-96 | a token-class count is at most the number of tokens, and it is 0 exactly when no token is in the class |
| Detector.CountContained | ai_humanizer/detector.py:99 | the fixed-phrase count is at most the number of phrases, and it is 0 exactly when none is contained in the text |
| Detector.Ratio | ai_humanizer/detector.py:102-104 | a ratio is non-negative, and at most 100 when the count is at most the total |
| Detector.Average | ai_humanizer/detector.py:144 | an average length lies between 0 and the total length |
| Detector.LexicalOf | ai_humanizer/detector.py:80-127 | the lexical score lies in [0, 100]; the details are empty exactly when there are no tokens; each class count is at most the token count, the fixed-phrase count at most the number of phrases, and each ratio lies in [0, 100] |
| Detector.NonBlankStripped | ai_humanizer/detector.py:137 | the kept pieces are non-empty, no more than the pieces, and take their characters from the pieces |
| Detector.Sentences | ai_humanizer/detector.py:136-137 | every sentence is non-empty and contains none of 。！？ and newline |
| Detector.CountLonger | ai_humanizer/detector.py:147 | the too-long count is at most the number of sentences |
| Detector.CountShorter | ai_humanizer/detector.py:148 | the too-short count is at most the number of sentences |
| Detector.LongShortDisjoint | ai_humanizer/detector.py:147-148 | `too_long + too_short` is at most the number of sentences |
| Detector.PerSentenceBound | ai_humanizer/detector.py:151-160 | the per-sentence loop collects at most (sentences × patterns) entries |
| Detector.PerSentenceTagged | ai_humanizer/detector.py:151-160 | every entry the per-sentence loop collects is tagged with its category |
| Detector.SyntacticScore | ai_humanizer/detector.py:166-172 | the syntactic score lies in [0, 100] |
| Detector.SyntacticSpec | ai_humanizer/detector.py:129-185 | the syntactic score lies in [0, 100]; the details are empty exactly when there are no sentences; the sentence count is that of the split, and `too_long + too_short <= sentence_count` |
| Detector.CheckCategory | ai_humanizer/detector.py:153 | `check_pattern(s, cat)` for one category returns that category's hits |
| Detector.CollectPerSentence | ai_humanizer/detector.py:151-154 | the `extend` loop collects each sentence's hits, sentence by sentence |
| Detector.AnalyzeSyntactic | ai_humanizer/detector.py:129-185 | the method with its loops computes `_analyze_syntactic` |
| Detector.SyntacticHitCounts | ai_humanizer/detector.py:151-163 | fixed and parallel hits are at most (sentences × list size); list hits are at most the list size |
| Detector.SyntacticHitBounds | ai_humanizer/detector.py:151-163 | with the library of `patterns.py`: at most 25 fixed and 5 parallel hits per sentence, and at most 6 list hits |
| Detector.StructuralScore | ai_humanizer/detector.py:213-218 | the structural score lies in [0, 100] |
| Detector.StructuralOf | ai_humanizer/detector.py:187-229 | the structural score lies in [0, 100]; details are always present; `list_structure_count <= 6`; the paragraph count is the number of non-blank lines |
| Detector.StructuralFlags | ai_humanizer/detector.py:198-199 | the opening and closing flags are set exactly when `check_pattern(text, 'opening')` and `check_pattern(text, 'closing')` are non-empty |
| Detector.NonBlankHasParagraphs | ai_humanizer/detector.py:194-211 | a text that is not blank has a paragraph, so the fallback to `len(text)` is never taken |
| Detector.OpeningFlag | ai_humanizer/detector.py:198 | a text in which the first opening pattern is found has the opening flag set |
| Detector.OpeningScore | ai_humanizer/detector.py:213-218 | the opening flag alone gives a structural score of at least 30 |
| Detector.OpeningRaisesStructure | ai_humanizer/detector.py:198-218 | with the patterns of `patterns.py`, a text that starts with 在当今社会 has the opening flag and a structural score of at least 30 |
| Detector.EmotionCount | ai_humanizer/detector.py:247-249 | the emotion count is at most (groups × tokens) |
| Detector.SemanticScore | ai_humanizer/detector.py:260-264 | the semantic score lies in [0, 100] |
| Detector.SemanticAntitone | ai_humanizer/detector.py:260-264 | a higher emotion ratio or first-person ratio never raises the semantic score |
| Detector.SemanticSpec | ai_humanizer/detector.py:231-275 | the semantic score lies in [0, 100]; details are empty exactly when there are no tokens; the qualifier and first-person counts are at most the token count; the emotion count is at most (groups × tokens); each ratio is non-negative and the first-person ratio is at most 100 |
| Detector.AnalyzeSemantic | ai_humanizer/detector.py:231-275 | the method with its accumulation loop computes `_analyze_semantic` |
| Detector.Total | ai_humanizer/detector.py:53-58 | the weighted total lies in [0, 100] when every dimension does |
| Detector.LevelOf | ai_humanizer/detector.py:279-293 | the band is chosen by the thresholds 80, 60, 40 and 20, one band per range |
| Detector.LevelMonotone | ai_humanizer/detector.py:279-293 | a higher total never gets a lower band |
| Detector.MainIssue | ai_humanizer/detector.py:296-302 | the main issue has the maximal score, and every dimension before it in the order 词汇, 句式, 结构, 语义 scores strictly less, so ties go to the first |
| Detector.SummaryOf | ai_humanizer/detector.py:277-308 | the summary's band is that of the total, its conclusion is that band's, and its main dimension has the greatest score and every dimension before it in the order 词汇, 句式, 结构, 语义 scores strictly less, so ties go to the first; it reports that dimension's score |
| Detector.Detect | ai_humanizer/detector.py:27-78 | `detect` runs the four analyzers and combines them |
| Detector.DetectBlank | ai_humanizer/detector.py:37-44 | blank text gives `is_ai` false, confidence 0, score 0, length 0 and no details or summary, and only blank text gives no details |
| Detector.DetectVerdict | ai_humanizer/detector.py:53-78 | for other text the score lies in [0, 100], `is_ai` holds exactly when the score is at least 60, the confidence is score / 100 and lies in [0, 1], the length is the text's, and the summary's band and main dimension follow from the scores |
| Detector.DetectWeights | ai_humanizer/detector.py:53-58 | the score is exactly `0.3·lexical + 0.25·syntactic + 0.25·structural + 0.2·semantic` |
| Detector.DetectParagraphs | ai_humanizer/detector.py:205-210 | for other text the structural analysis finds at least one paragraph |
| Humanizer.First | ai_humanizer/humanizer.py:81 | `xs[:n]` has at most `n` elements, is a prefix of `xs`, and is non-empty for non-empty `xs` and positive `n` |
| Humanizer.SwapStepFires | ai_humanizer/humanizer.py:84-87 | one loop step logs a swap exactly when the word occurs in the current text and has a non-empty replacement list; the swap uses one of its replacements and rewrites only the first occurrence; otherwise text and log are unchanged |
| Humanizer.SwapAllFacts | ai_humanizer/humanizer.py:81-87 | each listed word is swapped at most once, only for one of its own replacements, and the log accounts for the new length |
| Humanizer.SwapAllIdle | ai_humanizer/humanizer.py:81-87 | when no listed word has replacements, the text and log are unchanged |
| Humanizer.SwapLoop | ai_humanizer/humanizer.py:81-87 | the loop computes the fold of swaps over the listed words |
| Humanizer.LightHumanize | ai_humanizer/humanizer.py:76-98 | `_light_humanize` runs the high-frequency loop and then the formal loop |
| Humanizer.LightFacts | ai_humanizer/humanizer.py:76-98 | the light tier makes at most 20 + 10 changes; each swaps one of the first 20 high-frequency or first 10 formal words for one of its replacements; the log accounts for the new length |
| Humanizer.ReplaceAllFacts | ai_humanizer/humanizer.py:159-167 | at most one change per token; each replaces a token of the text by one of its replacements; the log accounts for the new length |
| Humanizer.ReplaceAllIdle | ai_humanizer/humanizer.py:159-160 | when no coin falls below the ratio, nothing is replaced |
| Humanizer.ReplaceWords | ai_humanizer/humanizer.py:148-169 | the loop over the tokens of the original text computes `_replace_words` |
| Humanizer.SoftenAllFacts | ai_humanizer/humanizer.py:272-276 | at most one change per word; each replaces that word by one of the first five uncertainty expressions; the log accounts for the new length |
| Humanizer.SoftenAllIdle | ai_humanizer/humanizer.py:272-273 | a text without any of the words is left unchanged |
| Humanizer.UncertaintyFacts | ai_humanizer/humanizer.py:266-278 | `_add_uncertainty` makes at most 4 changes, only to 一定, 必须, 肯定 and 绝对, each with one of the first five uncertainty expressions; it leaves a text without them unchanged |
| Humanizer.SoftenLoop | ai_humanizer/humanizer.py:272-276 | the loop computes the fold of softenings over the words |
| Humanizer.AddUncertainty | ai_humanizer/humanizer.py:266-278 | the method computes `_add_uncertainty` |
| Humanizer.FirstlySecondlyFacts | ai_humanizer/humanizer.py:177-180 | step 1 fires exactly when both 首先 and 其次 occur; it keeps the text's length and leaves the text alone otherwise |
| Humanizer.NotOnlyAllFacts | ai_humanizer/humanizer.py:186-196 | step 2 logs one change per selected match; it shortens the text by at most 2 per match and never lengthens it |
| Humanizer.CommaSplitsInTwo | ai_humanizer/humanizer.py:208-210 | a sentence with `，` has at least two comma-separated parts, so the `len(parts) >= 2` test always passes |
| Humanizer.ReshapeFacts | ai_humanizer/humanizer.py:208-217 | a sentence longer than 50 with `，` is split; otherwise it is kept as it is; a split turns the `，` after the first half of the comma-separated parts (`mid = len(parts) // 2`) into `。` and keeps everything else, so the length is unchanged and the sentence changes |
| Humanizer.ResplitFacts | ai_humanizer/humanizer.py:199-221 | step 3 keeps the text's length, reproduces the text if and only if no sentence is split (a logged split always changes the text), and logs only sentence splits |
| Humanizer.SyntaxFacts | ai_humanizer/humanizer.py:171-223 | `_adjust_syntax` shortens the text by at most 4 and never lengthens it; it logs at most one step-1 change, exactly `min(2, len(matches))` step-2 changes, and then only sentence splits; the text after step 3 equals that after step 2 if and only if no sentence is split |
| Humanizer.ReshapeSentence | ai_humanizer/humanizer.py:207-219 | the loop body keeps or splits one sentence, and reports whether it split |
| Humanizer.ResplitSentences | ai_humanizer/humanizer.py:200-219 | the indexed loop builds the new sentences and the split log of step 3 |
| Humanizer.SplitLongSentences | ai_humanizer/humanizer.py:198-221 | step 3 as a whole: split, rebuild, join |
| Humanizer.SimplifyNotOnly | ai_humanizer/humanizer.py:186-196 | the loop over the first two matches computes step 2 |
| Humanizer.AdjustSyntax | ai_humanizer/humanizer.py:171-223 | the method runs steps 1, 2 and 3 in order |
| Humanizer.BodyIndices | ai_humanizer/humanizer.py:231 | the comprehension lists exactly the even positions of non-blank sentences, increasing, without repeats |
| Humanizer.InsertAllShape | ai_humanizer/humanizer.py:234-240 | the loop keeps the number of pieces, makes at most one change per sampled position, accounts for the length it adds, and logs only the stage's phrases |
| Humanizer.InsertAllPlaces | ai_humanizer/humanizer.py:234-240 | over distinct even positions, a sentence changes only at a sampled position that qualifies, and only by attaching one of the stage's phrases; marks never change |
| Humanizer.InsertAllIdle | ai_humanizer/humanizer.py:234-240 | when no sentence qualifies, the loop changes nothing |
| Humanizer.InsertFacts | ai_humanizer/humanizer.py:225-300 | each insertion stage accounts for the length it adds and makes at most as many changes as it samples (2, 2 or `count`); it logs only its own phrases; it leaves the text alone when it does not run or no sentence qualifies |
| Humanizer.InsertPlaces | ai_humanizer/humanizer.py:225-300 | only non-blank sentences that qualify change, each by one phrase: a first-person opener before a sentence longer than 10, an emotion word before a sentence followed by `。`, or a particle after a sentence longer than 5 followed by `。` or `！` |
| Humanizer.InsertAt | ai_humanizer/humanizer.py:234-297 | the three loop bodies, as the source writes each, perform one step of the insertion fold |
| Humanizer.InsertLoop | ai_humanizer/humanizer.py:234-297 | the loop over the sampled positions computes the insertion fold |
| Humanizer.AddPersonalExpressions | ai_humanizer/humanizer.py:225-243 | the method computes `_add_personal_expressions` |
| Humanizer.AddEmotions | ai_humanizer/humanizer.py:245-264 | the method computes `_add_emotions`, which runs only with more than two non-blank sentences |
| Humanizer.AddColloquialExpressions | ai_humanizer/humanizer.py:280-300 | the method computes `_add_colloquial_expressions(text, count)` |
| Humanizer.MediumFacts | ai_humanizer/humanizer.py:100-116 | the medium log is the word log, then the syntax log, then at most two particles, and holds only word replacements, syntax changes and particles; the word stage makes at most one change per token and accounts for its length; syntax shortens the text by at most 4; the particles account for their length |
| Humanizer.SyntaxKinds | ai_humanizer/humanizer.py:171-223 | the syntax log holds only step-1 changes, simplifications and sentence splits |
| Humanizer.NotOnlyKinds | ai_humanizer/humanizer.py:186-196 | step 2 adds only simplifications to the log |
| Humanizer.HeavyFacts | ai_humanizer/humanizer.py:118-146 | the heavy log is the six stage logs in order: at most two openers, two emotion words, four softenings and five particles, each of its own kind; every stage after syntax accounts for the length it adds |
| Humanizer.MediumHumanize | ai_humanizer/humanizer.py:100-116 | the method runs the medium stages in order |
| Humanizer.HeavyHumanize | ai_humanizer/humanizer.py:118-146 | the method runs the heavy stages in order |
| Humanizer.Messages | ai_humanizer/humanizer.py:67-74 | one message per change, in order |
| Humanizer.HumanizeBlank | ai_humanizer/humanizer.py:41-49 | blank text comes back unchanged with zero lengths and no changes, whatever the intensity |
| Humanizer.HumanizeErrors | ai_humanizer/humanizer.py:54-65 | `humanize` fails exactly on non-blank text with an intensity other than light, medium or heavy, and then with the message `Invalid intensity: … Must be 'light', 'medium', or 'heavy'` |
| Humanizer.HumanizeBookkeeping | ai_humanizer/humanizer.py:67-74 | the result records the tier's text, the original and new lengths, one message per change, `change_count == len(changes)` and the intensity; the light tier makes at most 30 changes and accounts for its length |
| Humanizer.Humanize | ai_humanizer/humanizer.py:27-74 | the method computes `humanize` |
| Humanizer.BatchResults | ai_humanizer/humanizer.py:302-317 | a successful batch has one result per text, in order, each the result of `humanize` on that text |
| Humanizer.BatchErrors | ai_humanizer/humanizer.py:313-317 | a batch fails exactly when the intensity is unknown and some text is not blank, and then with that intensity's error |
| Humanizer.BatchAborts | ai_humanizer/humanizer.py:313-317 | once a prefix of the batch fails, the whole batch fails with the same error |
| Humanizer.BatchHumanize | ai_humanizer/humanizer.py:302-317 | the loop computes `batch_humanize`, returning at the first error |

## Left out

- `jieba.cut` is the `Env.segment` function; its algorithm is not modelled.
- Regular-expression search is modelled only for an anchored literal prefix. Every other search goes to the `Env.engine` oracle.
- `re.findall` for `不仅…而且…` is the `Env.findAll` oracle. Its matches are not tied to the text.
- `random` is replaced by oracle draws; distributions and probabilities are not modelled. A draw the oracle does not supply reads as 0.
- Binary floating point and `round(…, 2)` are not modelled: scores are exact reals.
- The `main_issue` f-string with its `:.2f` rendering is not modelled. The summary keeps the dimension and its score.
- `generate_report` and `compare` are not modelled. They format results for display.
- The contents of `rules/ai_keywords.py` and `rules/replacements.py` are not part of this model. The word lists are caller-supplied fields.
- The lexicon must hold at least one uncertainty expression and one colloquial marker. `random.choice` on an empty list raises, and that error path is not modelled.
- The default arguments `intensity='medium'` of `humanize` and `batch_humanize` (`humanizer.py:27`, `302`) and `pattern_type='all'` of `check_pattern` (`patterns.py:133`) are not modelled: every parameter is explicit, and a call that omits the argument is the call with `"medium"` or `"all"` passed.
- `web/app.py`, `cli/main.py`, `examples/example_usage.py` and `setup.py` are I/O glue and are not modelled.
- Humanizer.SyntaxFacts: does not state that the log accounts for the length change. Step 2 logs a change even when its replacement is a no-op, so the length bookkeeping does not hold for that stage.
- Humanizer.LightFacts: does not state that a swapped word occurred in the text at the moment of the swap. `SwapStepFires` states that condition for each loop step, since the intermediate texts are not visible in the tier's result.
- Humanizer.NotOnlyAllFacts: states only a bound on the length after step 2. No relation is drawn between the matches from `findAll` and the text.
- Detector.StructuralScore: states the bound only. The formula `min(100, 30·open + 30·close + 8·k + 20·[avg > 100])` is its definition.
