/** The word lists the detector and the humanizer consult, and the foreign services
    both depend on. The contents of `rules/ai_keywords.py` and `rules/replacements.py`
    are not part of this model: each list is a field whose value the caller supplies. */
module Rules {
  import opened Patterns

  /** The lexicon. */
  datatype WordLists = WordLists(
    highFreq: seq<string>,                  // AI_HIGH_FREQ_WORDS
    connectors: seq<string>,                // AI_CONNECTORS
    formal: seq<string>,                    // AI_FORMAL_WORDS
    qualifiers: seq<string>,                // AI_QUALIFIERS
    fixedPhrases: seq<string>,              // AI_FIXED_PHRASES
    emotionGroups: seq<seq<string>>,        // EMOTION_WORDS.values(), in insertion order
    firstPerson: seq<string>,               // FIRST_PERSON_EXPRESSIONS
    replacements: map<string, seq<string>>, // WORD_REPLACEMENTS
    uncertainty: seq<string>,               // UNCERTAINTY_EXPRESSIONS
    colloquial: seq<string>)                // COLLOQUIAL_MARKERS

  /** A lexicon the humanizer can draw from: `random.choice` over the first five
      uncertainty expressions or colloquial markers needs at least one of each. */
  type Lexicon = w: WordLists | |w.uncertainty| > 0 && |w.colloquial| > 0
    witness WordLists([], [], [], [], [], [], [], map[], [""], [""])

  /** Everything outside the two engines that they call: the lexicon, the compiled
      pattern library, `jieba.cut` (`segment`), `pattern.search` on patterns other than
      anchored literals (`engine`), and `re.findall(r'不仅(.{2,20})而且(.{2,20})', text)`
      (`findAll`). Each foreign function is an arbitrary total function. */
  datatype Env = Env(
    lex: Lexicon,
    patterns: Library,
    segment: string -> seq<string>,
    engine: Engine,
    findAll: string -> seq<(string, string)>)
}
