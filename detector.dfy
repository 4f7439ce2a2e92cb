/** `AIDetector` of `ai_humanizer/detector.py`: four dimension analyzers (lexical,
    syntactic, structural, semantic), their weighted combination, and the five-band
    summary. Scores are reals; `round(…, 2)` is the identity. */
module Detector {
  import opened Wrappers
  import opened Strings
  import opened Patterns
  import opened Rules

  // ---------------------------------------------------------------------------
  // Results

  datatype LexicalDetails = LexicalDetails(
    highFreqWords: nat, connectors: nat, formalWords: nat, qualifiers: nat,
    fixedPhrases: nat, highFreqRatio: real, connectorRatio: real, formalRatio: real)

  datatype SyntacticDetails = SyntacticDetails(
    sentenceCount: nat, avgSentenceLength: real, fixedPatterns: nat,
    parallelPatterns: nat, listPatterns: nat, tooLongSentences: nat, tooShortSentences: nat)

  datatype StructuralDetails = StructuralDetails(
    paragraphCount: nat, hasOpeningPattern: bool, hasClosingPattern: bool,
    listStructureCount: nat, avgParagraphLength: real)

  datatype SemanticDetails = SemanticDetails(
    qualifierCount: nat, emotionCount: nat, firstPersonCount: nat,
    emotionRatio: real, firstPersonRatio: real)

  /** One analyzer's `{'score': …, 'details': …}`; `None` stands for `details == {}`. */
  datatype Analysis<D> = Analysis(score: real, details: Option<D>)

  datatype Dimensions = Dimensions(
    lexical: Analysis<LexicalDetails>, syntactic: Analysis<SyntacticDetails>,
    structural: Analysis<StructuralDetails>, semantic: Analysis<SemanticDetails>)

  /** The five bands of `_generate_summary`. */
  datatype Level = VeryHigh | High | Medium | Low | VeryLow {
    function Label(): string {
      match this
      case VeryHigh => "极高"
      case High => "较高"
      case Medium => "中等"
      case Low => "较低"
      case VeryLow => "很低"
    }
    function Conclusion(): string {
      match this
      case VeryHigh => "文本具有非常明显的AI生成特征"
      case High => "文本很可能由AI生成"
      case Medium => "文本具有一些AI特征，但不明显"
      case Low => "文本AI特征较少，较为自然"
      case VeryLow => "文本非常自然，几乎无AI特征"
    }
    /** 0 for the lowest band up to 4 for the highest. */
    function Severity(): nat {
      match this
      case VeryLow => 0
      case Low => 1
      case Medium => 2
      case High => 3
      case VeryHigh => 4
    }
  }

  /** The four dimensions, in the order of the `dimensions` dictionary. */
  datatype Dimension = LexicalDim | SyntacticDim | StructuralDim | SemanticDim {
    function Name(): string {
      match this
      case LexicalDim => "词汇"
      case SyntacticDim => "句式"
      case StructuralDim => "结构"
      case SemanticDim => "语义"
    }
    function Position(): nat {
      match this
      case LexicalDim => 0
      case SyntacticDim => 1
      case StructuralDim => 2
      case SemanticDim => 3
    }
  }

  /** `_generate_summary`'s result; `main_issue` is rendered from `mainIssue` and `mainScore`. */
  datatype Summary = Summary(level: Level, conclusion: string, mainIssue: Dimension, mainScore: real)

  /** `detect`'s result; `details == None` stands for `{}`, `summary == None` for a missing key. */
  datatype Detection = Detection(
    isAi: bool, confidence: real, score: real, details: Option<Dimensions>,
    textLength: nat, summary: Option<Summary>)

  // ---------------------------------------------------------------------------
  // Counting

  /** `sum(1 for w in ws if w in vocab)`. */
  function Count(ws: seq<string>, vocab: seq<string>): (n: nat)
    ensures n <= |ws|
    ensures n == 0 <==> forall i | 0 <= i < |ws| :: ws[i] !in vocab
  {
    if ws == [] then 0 else (if ws[0] in vocab then 1 else 0) + Count(ws[1..], vocab)
  }

  /** `sum(1 for p in phrases if p in text)`: the phrases that occur somewhere in `text`. */
  function CountContained(phrases: seq<string>, text: string): (n: nat)
    ensures n <= |phrases|
    ensures n == 0 <==> forall i | 0 <= i < |phrases| :: !Contains(text, phrases[i])
  {
    if phrases == [] then 0
    else (if Contains(text, phrases[0]) then 1 else 0) + CountContained(phrases[1..], text)
  }

  /** `count / total * 100`. */
  function Ratio(count: nat, total: nat): (r: real)
    requires total > 0
    ensures 0.0 <= r
    ensures count <= total ==> r <= 100.0
  {
    var q := count as real / total as real;
    assert count <= total ==> q <= 1.0 by {
      if count <= total {
        assert q * total as real == count as real;
      }
    }
    q * 100.0
  }

  /** `min(a, b)`. */
  function Min(a: real, b: real): (m: real)
    ensures m <= a && m <= b && (m == a || m == b)
  {
    if a <= b then a else b
  }

  /** `total / count`. */
  function Average(total: nat, count: nat): (a: real)
    requires count > 0
    ensures 0.0 <= a <= total as real
  {
    var q := total as real / count as real;
    assert q * count as real == total as real;
    q
  }

  /** `sum(len(s) for s in ss)`. */
  function TotalLength(ss: seq<string>): nat {
    if ss == [] then 0 else |ss[0]| + TotalLength(ss[1..])
  }

  // ---------------------------------------------------------------------------
  // Lexical dimension

  /** `_analyze_lexical(text)` on the tokens `words == list(jieba.cut(text))`. */
  function LexicalOf(lex: Lexicon, words: seq<string>, text: string): (r: Analysis<LexicalDetails>)
    ensures 0.0 <= r.score <= 100.0
    ensures r.details.None? <==> words == []
    ensures r.details.Some? ==>
      var d := r.details.value;
      d.highFreqWords <= |words| && d.connectors <= |words| && d.formalWords <= |words|
      && d.qualifiers <= |words| && d.fixedPhrases <= |lex.fixedPhrases|
      && 0.0 <= d.highFreqRatio <= 100.0 && 0.0 <= d.connectorRatio <= 100.0
      && 0.0 <= d.formalRatio <= 100.0
  {
    var total := |words|;
    if total == 0 then Analysis(0.0, None)
    else
      var highFreq := Count(words, lex.highFreq);
      var connectors := Count(words, lex.connectors);
      var formal := Count(words, lex.formal);
      var qualifiers := Count(words, lex.qualifiers);
      var fixed := CountContained(lex.fixedPhrases, text);
      var highFreqRatio := Ratio(highFreq, total);
      var connectorRatio := Ratio(connectors, total);
      var formalRatio := Ratio(formal, total);
      var score := Min(100.0, highFreqRatio * 15.0 + connectorRatio * 15.0 + formalRatio * 10.0
                              + qualifiers as real * 2.0 + fixed as real * 5.0);
      Analysis(score, Some(LexicalDetails(highFreq, connectors, formal, qualifiers, fixed,
                                          highFreqRatio, connectorRatio, formalRatio)))
  }

  // ---------------------------------------------------------------------------
  // Syntactic dimension

  /** The characters `re.split(r'[。！？\n]', text)` splits at. */
  const SENTENCE_BREAKS: set<char> := {'。', '！', '？', '\n'}

  /** `[p.strip() for p in ps if p.strip()]`. */
  function NonBlankStripped(ps: seq<string>): (r: seq<string>)
    ensures |r| <= |ps|
    ensures forall i | 0 <= i < |r| :: r[i] != []
    ensures forall i | 0 <= i < |r| :: forall c | c in r[i] :: exists j | 0 <= j < |ps| :: c in ps[j]
  {
    if ps == [] then []
    else
      var rest := NonBlankStripped(ps[1..]);
      assert forall i | 0 <= i < |rest| :: forall c | c in rest[i] :: exists j | 0 <= j < |ps| :: c in ps[j] by {
        forall i, c | 0 <= i < |rest| && c in rest[i] ensures exists j | 0 <= j < |ps| :: c in ps[j] {
          var j :| 0 <= j < |ps[1..]| && c in ps[1..][j];
          assert ps[j + 1] == ps[1..][j];
        }
      }
      if IsBlank(ps[0]) then rest else [Strip(ps[0])] + rest
  }

  /** The sentences `_analyze_syntactic` examines: the non-blank pieces, trimmed. */
  function Sentences(text: string): (ss: seq<string>)
    ensures forall i | 0 <= i < |ss| :: ss[i] != [] && forall c | c in ss[i] :: c !in SENTENCE_BREAKS
  {
    var ps := SplitOn(text, SENTENCE_BREAKS);
    SplitOnPieces(text, SENTENCE_BREAKS);
    NonBlankStripped(ps)
  }

  /** `sum(1 for s in ss if len(s) > n)`. */
  function CountLonger(ss: seq<string>, n: nat): (k: nat)
    ensures k <= |ss|
  {
    if ss == [] then 0 else (if |ss[0]| > n then 1 else 0) + CountLonger(ss[1..], n)
  }

  /** `sum(1 for s in ss if len(s) < n)`. */
  function CountShorter(ss: seq<string>, n: nat): (k: nat)
    ensures k <= |ss|
  {
    if ss == [] then 0 else (if |ss[0]| < n then 1 else 0) + CountShorter(ss[1..], n)
  }

  /** No sentence is both longer than 40 and shorter than 5 characters. */
  lemma {:induction false} LongShortDisjoint(ss: seq<string>)
    ensures CountLonger(ss, 40) + CountShorter(ss, 5) <= |ss|
  {
    if ss != [] {
      LongShortDisjoint(ss[1..]);
    }
  }

  /** The entries the loop `for s in ss: xs.extend(check_pattern(s, cat))` collects,
      where `rxs` is the category's compiled list (see `Patterns.SingleCategory`). */
  function PerSentence(engine: Engine, rxs: seq<Regex>, cat: string, ss: seq<string>): seq<(string, string)>
    decreases |ss|
  {
    if ss == [] then []
    else
      var n := |ss| - 1;
      PerSentence(engine, rxs, cat, ss[..n]) + Hits(engine, rxs, cat, ss[n])
  }

  /** Each sentence contributes at most one entry per pattern of the list. */
  lemma {:induction false} PerSentenceBound(engine: Engine, rxs: seq<Regex>, cat: string, ss: seq<string>)
    ensures |PerSentence(engine, rxs, cat, ss)| <= |ss| * |rxs|
    decreases |ss|
  {
    if ss != [] {
      var n := |ss| - 1;
      PerSentenceBound(engine, rxs, cat, ss[..n]);
      HitsTagged(engine, rxs, cat, ss[n]);
      var front := PerSentence(engine, rxs, cat, ss[..n]);
      var last := Hits(engine, rxs, cat, ss[n]);
      assert PerSentence(engine, rxs, cat, ss) == front + last;
      assert |ss[..n]| == n;
      MultiplySuccessor(n, |rxs|);
    }
  }

  /** `(n + 1)·m == n·m + m`. */
  lemma MultiplySuccessor(n: nat, m: nat)
    ensures (n + 1) * m == n * m + m
  {
  }

  /** Every entry the loop collects is tagged with the category. */
  lemma {:induction false} PerSentenceTagged(engine: Engine, rxs: seq<Regex>, cat: string, ss: seq<string>)
    ensures TaggedWith(PerSentence(engine, rxs, cat, ss), cat)
    decreases |ss|
  {
    if ss != [] {
      var n := |ss| - 1;
      PerSentenceTagged(engine, rxs, cat, ss[..n]);
      HitsTagged(engine, rxs, cat, ss[n]);
      var front := PerSentence(engine, rxs, cat, ss[..n]);
      var last := Hits(engine, rxs, cat, ss[n]);
      var all := PerSentence(engine, rxs, cat, ss);
      assert all == front + last;
      forall k | 0 <= k < |all| ensures all[k].0 == cat {
        if k >= |front| { assert all[k] == last[k - |front|]; }
        else { assert all[k] == front[k]; }
      }
    }
  }

  /** The syntactic score: longer sentences and more pattern hits score higher. */
  function SyntacticScore(avg: real, fixed: nat, parallel: nat, list: nat, tooLong: nat): (s: real)
    requires avg >= 0.0
    ensures 0.0 <= s <= 100.0
  {
    Min(100.0, avg / 50.0 * 20.0 + fixed as real * 8.0 + parallel as real * 10.0
               + list as real * 12.0 + tooLong as real * 5.0)
  }

  /** `_analyze_syntactic(text)`. */
  function SyntacticSpec(env: Env, text: string): (r: Analysis<SyntacticDetails>)
    ensures 0.0 <= r.score <= 100.0
    ensures r.details.None? <==> Sentences(text) == []
    ensures r.details.Some? ==>
      var d := r.details.value;
      d.sentenceCount == |Sentences(text)| && d.tooLongSentences + d.tooShortSentences <= d.sentenceCount
  {
    var ss := Sentences(text);
    if ss == [] then Analysis(0.0, None)
    else
      var avg := Average(TotalLength(ss), |ss|);
      var tooLong := CountLonger(ss, 40);
      var tooShort := CountShorter(ss, 5);
      LongShortDisjoint(ss);
      var fixed := PerSentence(env.engine, env.patterns.fixed, "fixed", ss);
      var parallel := PerSentence(env.engine, env.patterns.parallel, "parallel", ss);
      var list := Hits(env.engine, env.patterns.list, "list", text);
      var score := SyntacticScore(avg, |fixed|, |parallel|, |list|, tooLong);
      Analysis(score, Some(SyntacticDetails(|ss|, avg, |fixed|, |parallel|, |list|, tooLong, tooShort)))
  }

  /** `check_pattern(text, cat)` for one category name: that category's hits. */
  method CheckCategory(engine: Engine, lib: Library, text: string, cat: string)
    returns (matches: seq<(string, string)>)
    requires cat in CATEGORIES
    ensures matches == Hits(engine, CompiledFor(lib, cat), cat, text)
  {
    matches := CheckPattern(engine, lib, text, cat);
    SingleCategory(engine, lib, text, cat);
  }

  /** The loop `for sentence in sentences: xs.extend(check_pattern(sentence, cat))`. */
  method CollectPerSentence(engine: Engine, lib: Library, ss: seq<string>, cat: string)
    returns (xs: seq<(string, string)>)
    requires cat in CATEGORIES
    ensures xs == PerSentence(engine, CompiledFor(lib, cat), cat, ss)
  {
    xs := [];
    for i := 0 to |ss|
      invariant xs == PerSentence(engine, CompiledFor(lib, cat), cat, ss[..i])
    {
      var matches := CheckCategory(engine, lib, ss[i], cat);
      assert ss[..i + 1][..i] == ss[..i];
      xs := xs + matches;
    }
    assert ss[..|ss|] == ss;
  }

  /** `_analyze_syntactic` as the source writes it: the fixed-pattern and
      parallel-pattern hits collected sentence by sentence. */
  method AnalyzeSyntactic(env: Env, text: string) returns (r: Analysis<SyntacticDetails>)
    ensures r == SyntacticSpec(env, text)
  {
    var ss := Sentences(text);
    if ss == [] {
      return Analysis(0.0, None);
    }
    var avg := Average(TotalLength(ss), |ss|);
    var tooLong := CountLonger(ss, 40);
    var tooShort := CountShorter(ss, 5);
    var fixed := CollectPerSentence(env.engine, env.patterns, ss, "fixed");
    var parallel := CollectPerSentence(env.engine, env.patterns, ss, "parallel");
    var list := CheckCategory(env.engine, env.patterns, text, "list");
    var score := SyntacticScore(avg, |fixed|, |parallel|, |list|, tooLong);
    r := Analysis(score, Some(SyntacticDetails(|ss|, avg, |fixed|, |parallel|, |list|, tooLong, tooShort)));
  }

  /** With the library of `patterns.py`, the hit counts are at most 25 and 5 per
      sentence and 6 for the whole text. */
  lemma SyntacticHitBounds(env: Env, text: string)
    requires env.patterns == LIBRARY
    ensures var r := SyntacticSpec(env, text);
      r.details.Some? ==>
        r.details.value.fixedPatterns <= 25 * r.details.value.sentenceCount
        && r.details.value.parallelPatterns <= 5 * r.details.value.sentenceCount
        && r.details.value.listPatterns <= 6
  {
    LibraryFieldSizes();
    assert |env.patterns.fixed| == 25 && |env.patterns.parallel| == 5 && |env.patterns.list| == 6;
    SyntacticHitCounts(env, text);
  }

  /** Each sentence contributes at most one hit per fixed or parallel pattern, and the
      whole text at most one per list pattern. */
  lemma SyntacticHitCounts(env: Env, text: string)
    ensures var r := SyntacticSpec(env, text);
      r.details.Some? ==>
        r.details.value.fixedPatterns <= r.details.value.sentenceCount * |env.patterns.fixed|
        && r.details.value.parallelPatterns <= r.details.value.sentenceCount * |env.patterns.parallel|
        && r.details.value.listPatterns <= |env.patterns.list|
  {
    var ss := Sentences(text);
    PerSentenceBound(env.engine, env.patterns.fixed, "fixed", ss);
    PerSentenceBound(env.engine, env.patterns.parallel, "parallel", ss);
    HitsTagged(env.engine, env.patterns.list, "list", text);
  }

  // ---------------------------------------------------------------------------
  // Structural dimension

  /** `[p.strip() for p in text.split('\n') if p.strip()]`. */
  function Paragraphs(text: string): seq<string> {
    NonBlankStripped(SplitOn(text, {'\n'}))
  }

  /** The markers of an enumerated structure. */
  const LIST_INDICATORS: seq<string> := ["第一", "第二", "第三", "首先", "其次", "最后"]

  /** The structural score: opening, closing, enumeration markers and long paragraphs. */
  function StructuralScore(opening: bool, closing: bool, indicators: nat, avg: real): (s: real)
    ensures 0.0 <= s <= 100.0
  {
    Min(100.0, (if opening then 30.0 else 0.0) + (if closing then 30.0 else 0.0)
               + indicators as real * 8.0 + (if avg > 100.0 then 20.0 else 0.0))
  }

  /** `_analyze_structural(text)`. */
  function StructuralOf(env: Env, text: string): (r: Analysis<StructuralDetails>)
    ensures 0.0 <= r.score <= 100.0
    ensures r.details.Some?
    ensures r.details.value.listStructureCount <= 6
    ensures r.details.value.paragraphCount == |Paragraphs(text)|
  {
    var paragraphs := Paragraphs(text);
    var opening := Hits(env.engine, env.patterns.opening, "opening", text) != [];
    var closing := Hits(env.engine, env.patterns.closing, "closing", text) != [];
    var indicators := CountContained(LIST_INDICATORS, text);
    var avg := if paragraphs != [] then Average(TotalLength(paragraphs), |paragraphs|)
               else |text| as real;
    Analysis(StructuralScore(opening, closing, indicators, avg),
             Some(StructuralDetails(|paragraphs|, opening, closing, indicators, avg)))
  }

  /** The opening and closing flags are `any(check_pattern(text, 'opening'))` and
      `any(check_pattern(text, 'closing'))`. */
  lemma StructuralFlags(env: Env, text: string)
    ensures StructuralOf(env, text).details.value.hasOpeningPattern
            <==> CheckPatternSpec(env.engine, env.patterns, text, "opening") != []
    ensures StructuralOf(env, text).details.value.hasClosingPattern
            <==> CheckPatternSpec(env.engine, env.patterns, text, "closing") != []
  {
    SingleCategory(env.engine, env.patterns, text, "opening");
    SingleCategory(env.engine, env.patterns, text, "closing");
  }

  /** A list of pieces that are all blank joins, with a whitespace separator, to a blank string. */
  lemma {:induction false} JoinBlank(ps: seq<string>, sep: char)
    requires IsSpace(sep)
    requires forall i | 0 <= i < |ps| :: IsBlank(ps[i])
    ensures IsBlank(JoinWith(ps, sep))
  {
    if |ps| > 1 {
      JoinBlank(ps[1..], sep);
      var rest := JoinWith(ps[1..], sep);
      var all := ps[0] + [sep] + rest;
      forall i | 0 <= i < |all| ensures IsSpace(all[i]) {
        if i < |ps[0]| { assert all[i] == ps[0][i]; }
        else if i > |ps[0]| { assert all[i] == rest[i - |ps[0]| - 1]; }
      }
    }
  }

  /** `NonBlankStripped` is empty only when every piece is blank. */
  lemma {:induction false} NoneKeptAllBlank(ps: seq<string>)
    requires NonBlankStripped(ps) == []
    ensures forall i | 0 <= i < |ps| :: IsBlank(ps[i])
  {
    if ps != [] {
      NoneKeptAllBlank(ps[1..]);
      forall i | 0 <= i < |ps| ensures IsBlank(ps[i]) {
        if i > 0 { assert ps[i] == ps[1..][i - 1]; }
      }
    }
  }

  /** A text that is not blank has a paragraph, so the fallback average `len(text)` is
      never used by `detect`. */
  lemma NonBlankHasParagraphs(text: string)
    requires !IsBlank(text)
    ensures Paragraphs(text) != []
  {
    var ps := SplitOn(text, {'\n'});
    if NonBlankStripped(ps) == [] {
      NoneKeptAllBlank(ps);
      JoinBlank(ps, '\n');
      JoinSplitOn(text, '\n');
    }
  }

  /** A text in which the first opening pattern is found has the opening flag set. */
  lemma OpeningFlag(env: Env, text: string)
    requires |env.patterns.opening| > 0 && Search(env.engine, env.patterns.opening[0], text)
    ensures StructuralOf(env, text).details.value.hasOpeningPattern
  {
    HitsNonEmpty(env.engine, env.patterns.opening, "opening", text, 0);
  }

  /** The opening flag alone gives a structural score of at least 30. */
  lemma OpeningScore(env: Env, text: string)
    requires StructuralOf(env, text).details.value.hasOpeningPattern
    ensures StructuralOf(env, text).score >= 30.0
  {
  }

  /** With the opening patterns of `patterns.py`, a text that opens with 在当今社会 has the
      opening flag set and a structural score of at least 30. */
  lemma OpeningRaisesStructure(env: Env, text: string)
    requires env.patterns.opening == LIBRARY.opening
    requires StartsWith(text, OPENING_LITERALS[0])
    ensures StructuralOf(env, text).details.value.hasOpeningPattern
    ensures StructuralOf(env, text).score >= 30.0
  {
    OpeningLiteralSearch(env.engine, text, 0);
    CompiledSizes();
    OpeningFlag(env, text);
    OpeningScore(env, text);
  }

  // ---------------------------------------------------------------------------
  // Semantic dimension

  /** `sum(sum(1 for w in words if w in g) for g in groups)`: a word in two groups counts twice. */
  function EmotionCount(words: seq<string>, groups: seq<seq<string>>): (n: nat)
    ensures n <= |groups| * |words|
    decreases |groups|
  {
    if groups == [] then 0
    else
      var k := |groups| - 1;
      MultiplySuccessor(k, |words|);
      EmotionCount(words, groups[..k]) + Count(words, groups[k])
  }

  /** The semantic score: qualifiers raise it, emotion words and first-person
      expressions lower it, each lowering term floored at 0. */
  function SemanticScore(qualifiers: nat, emotionRatio: real, firstPersonRatio: real): (s: real)
    requires emotionRatio >= 0.0 && firstPersonRatio >= 0.0
    ensures 0.0 <= s <= 100.0
  {
    var emotionTerm := if 50.0 - emotionRatio * 10.0 > 0.0 then 50.0 - emotionRatio * 10.0 else 0.0;
    var personTerm := if 30.0 - firstPersonRatio * 10.0 > 0.0 then 30.0 - firstPersonRatio * 10.0 else 0.0;
    Min(100.0, qualifiers as real * 5.0 + emotionTerm + personTerm)
  }

  /** More emotion words or more first-person expressions never raise the semantic score. */
  lemma SemanticAntitone(q: nat, e1: real, e2: real, f1: real, f2: real)
    requires 0.0 <= e1 <= e2 && 0.0 <= f1 <= f2
    ensures SemanticScore(q, e2, f2) <= SemanticScore(q, e1, f1)
  {
  }

  /** `_analyze_semantic(text)`. */
  function SemanticSpec(env: Env, text: string): (r: Analysis<SemanticDetails>)
    ensures 0.0 <= r.score <= 100.0
    ensures r.details.None? <==> env.segment(text) == []
    ensures r.details.Some? ==>
      var d := r.details.value;
      d.qualifierCount <= |env.segment(text)| && d.firstPersonCount <= |env.segment(text)|
      && d.emotionCount <= |env.lex.emotionGroups| * |env.segment(text)|
      && 0.0 <= d.firstPersonRatio <= 100.0 && 0.0 <= d.emotionRatio
  {
    var words := env.segment(text);
    if words == [] then Analysis(0.0, None)
    else
      var qualifiers := Count(words, env.lex.qualifiers);
      var emotion := EmotionCount(words, env.lex.emotionGroups);
      var firstPerson := Count(words, env.lex.firstPerson);
      var emotionRatio := Ratio(emotion, |words|);
      var firstPersonRatio := Ratio(firstPerson, |words|);
      Analysis(SemanticScore(qualifiers, emotionRatio, firstPersonRatio),
               Some(SemanticDetails(qualifiers, emotion, firstPerson, emotionRatio, firstPersonRatio)))
  }

  /** `_analyze_semantic` as the source writes it: `emotion_count` accumulated group by group. */
  method AnalyzeSemantic(env: Env, text: string) returns (r: Analysis<SemanticDetails>)
    ensures r == SemanticSpec(env, text)
  {
    var words := env.segment(text);
    if words == [] {
      return Analysis(0.0, None);
    }
    var qualifiers := Count(words, env.lex.qualifiers);
    var groups := env.lex.emotionGroups;
    var emotion := 0;
    for i := 0 to |groups|
      invariant emotion == EmotionCount(words, groups[..i])
    {
      assert groups[..i + 1][..i] == groups[..i];
      emotion := emotion + Count(words, groups[i]);
    }
    assert groups[..|groups|] == groups;
    var firstPerson := Count(words, env.lex.firstPerson);
    var emotionRatio := Ratio(emotion, |words|);
    var firstPersonRatio := Ratio(firstPerson, |words|);
    r := Analysis(SemanticScore(qualifiers, emotionRatio, firstPersonRatio),
                  Some(SemanticDetails(qualifiers, emotion, firstPerson, emotionRatio, firstPersonRatio)));
  }

  // ---------------------------------------------------------------------------
  // Combination and summary

  /** `0.3·lexical + 0.25·syntactic + 0.25·structural + 0.2·semantic`. */
  function Total(lexical: real, syntactic: real, structural: real, semantic: real): (t: real)
    ensures (0.0 <= lexical <= 100.0 && 0.0 <= syntactic <= 100.0
             && 0.0 <= structural <= 100.0 && 0.0 <= semantic <= 100.0) ==> 0.0 <= t <= 100.0
  {
    lexical * 0.3 + syntactic * 0.25 + structural * 0.25 + semantic * 0.2
  }

  /** The band of a total score, by the thresholds 80, 60, 40 and 20. */
  function LevelOf(total: real): (l: Level)
    ensures total >= 80.0 ==> l == VeryHigh
    ensures 60.0 <= total < 80.0 ==> l == High
    ensures 40.0 <= total < 60.0 ==> l == Medium
    ensures 20.0 <= total < 40.0 ==> l == Low
    ensures total < 20.0 ==> l == VeryLow
  {
    if total >= 80.0 then VeryHigh
    else if total >= 60.0 then High
    else if total >= 40.0 then Medium
    else if total >= 20.0 then Low
    else VeryLow
  }

  /** A higher total never gets a lower band. */
  lemma LevelMonotone(s: real, t: real)
    requires s <= t
    ensures LevelOf(s).Severity() <= LevelOf(t).Severity()
  {
  }

  /** A dimension's score among the four. */
  function ScoreOf(d: Dimension, lexical: real, syntactic: real, structural: real, semantic: real): real {
    match d
    case LexicalDim => lexical
    case SyntacticDim => syntactic
    case StructuralDim => structural
    case SemanticDim => semantic
  }

  /** `max(dimensions.items(), key=lambda x: x[1])`: a dimension of greatest score, the
      first one in dictionary order when several share it. */
  function MainIssue(lexical: real, syntactic: real, structural: real, semantic: real): (d: Dimension)
    ensures forall e: Dimension :: ScoreOf(e, lexical, syntactic, structural, semantic)
                                   <= ScoreOf(d, lexical, syntactic, structural, semantic)
    ensures forall e: Dimension :: e.Position() < d.Position() ==>
      ScoreOf(e, lexical, syntactic, structural, semantic) < ScoreOf(d, lexical, syntactic, structural, semantic)
  {
    var b1 := if syntactic > lexical then SyntacticDim else LexicalDim;
    var s1 := if syntactic > lexical then syntactic else lexical;
    var b2 := if structural > s1 then StructuralDim else b1;
    var s2 := if structural > s1 then structural else s1;
    if semantic > s2 then SemanticDim else b2
  }

  /** `_generate_summary`. */
  function SummaryOf(total: real, lexical: real, syntactic: real, structural: real, semantic: real): (s: Summary)
    ensures s.level == LevelOf(total) && s.conclusion == s.level.Conclusion()
    ensures s.mainScore == ScoreOf(s.mainIssue, lexical, syntactic, structural, semantic)
    ensures forall e: Dimension :: ScoreOf(e, lexical, syntactic, structural, semantic) <= s.mainScore
    ensures forall e: Dimension :: e.Position() < s.mainIssue.Position() ==>
      ScoreOf(e, lexical, syntactic, structural, semantic) < s.mainScore
  {
    var level := LevelOf(total);
    var main := MainIssue(lexical, syntactic, structural, semantic);
    Summary(level, level.Conclusion(), main, ScoreOf(main, lexical, syntactic, structural, semantic))
  }

  // ---------------------------------------------------------------------------
  // detect

  /** The result for empty or whitespace-only text. */
  const BLANK_DETECTION: Detection := Detection(false, 0.0, 0.0, None, 0, None)

  /** `detect(text)`. */
  function DetectSpec(env: Env, text: string): Detection {
    if IsBlank(text) then BLANK_DETECTION
    else
      var lexical := LexicalOf(env.lex, env.segment(text), text);
      var syntactic := SyntacticSpec(env, text);
      var structural := StructuralOf(env, text);
      var semantic := SemanticSpec(env, text);
      var total := Total(lexical.score, syntactic.score, structural.score, semantic.score);
      Detection(total >= 60.0, total / 100.0, total,
                Some(Dimensions(lexical, syntactic, structural, semantic)), |text|,
                Some(SummaryOf(total, lexical.score, syntactic.score, structural.score, semantic.score)))
  }

  /** `detect` as the source writes it, calling the four analyzers in order. */
  method Detect(env: Env, text: string) returns (r: Detection)
    ensures r == DetectSpec(env, text)
  {
    if IsBlank(text) {
      return BLANK_DETECTION;
    }
    var lexical := LexicalOf(env.lex, env.segment(text), text);
    var syntactic := AnalyzeSyntactic(env, text);
    var structural := StructuralOf(env, text);
    var semantic := AnalyzeSemantic(env, text);
    var total := Total(lexical.score, syntactic.score, structural.score, semantic.score);
    r := Detection(total >= 60.0, total / 100.0, total,
                   Some(Dimensions(lexical, syntactic, structural, semantic)), |text|,
                   Some(SummaryOf(total, lexical.score, syntactic.score, structural.score, semantic.score)));
  }

  /** Empty or whitespace-only text is not AI text, with confidence 0, score 0, no
      details and length 0. */
  lemma DetectBlank(env: Env, text: string)
    ensures IsBlank(text) <==> DetectSpec(env, text).details.None?
    ensures IsBlank(text) ==>
      var r := DetectSpec(env, text);
      !r.isAi && r.confidence == 0.0 && r.score == 0.0 && r.textLength == 0 && r.summary.None?
  {
  }

  /** For other text: the total lies in [0, 100], the verdict is `total >= 60`, the
      confidence `total / 100`, the length that of the text, and the summary's band and
      main dimension follow from the scores. */
  lemma DetectVerdict(env: Env, text: string)
    requires !IsBlank(text)
    ensures var r := DetectSpec(env, text);
      && 0.0 <= r.score <= 100.0
      && (r.isAi <==> r.score >= 60.0)
      && r.confidence == r.score / 100.0
      && 0.0 <= r.confidence <= 1.0
      && r.textLength == |text|
      && r.details.Some? && r.summary.Some?
      && r.summary.value.level == LevelOf(r.score)
      && r.summary.value.mainIssue == MainIssue(
           r.details.value.lexical.score, r.details.value.syntactic.score,
           r.details.value.structural.score, r.details.value.semantic.score)
  {
  }

  /** The total is exactly the weighted sum of the four dimension scores. */
  lemma DetectWeights(env: Env, text: string)
    requires !IsBlank(text)
    ensures var r := DetectSpec(env, text);
      r.details.Some? &&
      r.score == 0.3 * r.details.value.lexical.score + 0.25 * r.details.value.syntactic.score
                 + 0.25 * r.details.value.structural.score + 0.2 * r.details.value.semantic.score
  {
  }

  /** For other text the structural analysis always finds a paragraph. */
  lemma DetectParagraphs(env: Env, text: string)
    requires !IsBlank(text)
    ensures DetectSpec(env, text).details.value.structural.details.value.paragraphCount > 0
  {
    NonBlankHasParagraphs(text);
  }
}
