/** `AIHumanizer` of `ai_humanizer/humanizer.py`: tiered rewriting of a text with a log
    of the changes made. Every random decision reads a draw from `Draws`. */
module Humanizer {
  import opened Wrappers
  import opened Strings
  import opened Entropy
  import opened Rules

  // ---------------------------------------------------------------------------
  // The change log

  /** One entry of `changes`; `Message()` is the string the source appends. */
  datatype Change =
    | Swapped(word: string, replacement: string)
    | WordReplaced(word: string, replacement: string)
    | FirstlySecondlyBroken
    | NotOnlySimplified(original: string, simplified: string)
    | LongSentenceSplit
    | FirstPersonAdded(phrase: string)
    | EmotionAdded(phrase: string)
    | CertaintySoftened(word: string, replacement: string)
    | ParticleAdded(phrase: string)
  {
    function Message(): string {
      match this
      case Swapped(w, n) => "'" + w + "' → '" + n + "'"
      case WordReplaced(w, n) => "词汇替换: '" + w + "' → '" + n + "'"
      case FirstlySecondlyBroken => "句式调整: 打破'首先...其次'固定句式"
      case NotOnlySimplified(o, s) => "句式简化: '" + o + "' → '" + s + "'"
      case LongSentenceSplit => "句式调整: 拆分过长句子"
      case FirstPersonAdded(p) => "添加第一人称: '" + p + "'"
      case EmotionAdded(p) => "添加情感词: '" + p + "'"
      case CertaintySoftened(w, n) => "降低绝对性: '" + w + "' → '" + n + "'"
      case ParticleAdded(p) => "添加语气词: '" + p + "'"
    }

    /** How much longer the text gets by the rewrite this entry records. */
    function Growth(): int {
      match this
      case Swapped(w, n) => |n| - |w|
      case WordReplaced(w, n) => |n| - |w|
      case FirstlySecondlyBroken => 0
      case NotOnlySimplified(o, s) => |s| - |o|
      case LongSentenceSplit => 0
      case FirstPersonAdded(p) => |p|
      case EmotionAdded(p) => |p|
      case CertaintySoftened(w, n) => |n| - |w|
      case ParticleAdded(p) => |p|
    }
  }

  /** The summed growth of a log. */
  function TotalGrowth(cs: seq<Change>): int
    decreases |cs|
  {
    if cs == [] then 0 else TotalGrowth(cs[..|cs| - 1]) + cs[|cs| - 1].Growth()
  }

  /** Growth adds up over concatenated logs. */
  lemma {:induction false} TotalGrowthAppend(a: seq<Change>, b: seq<Change>)
    ensures TotalGrowth(a + b) == TotalGrowth(a) + TotalGrowth(b)
    decreases |b|
  {
    if b == [] {
      assert a + b == a;
    } else {
      var n := |b| - 1;
      TotalGrowthAppend(a, b[..n]);
      assert (a + b)[..|a + b| - 1] == a + b[..n];
    }
  }

  /** A text with the changes made to it so far. */
  datatype Rewrite = Rewrite(text: string, changes: seq<Change>)

  /** The log accounts exactly for the change of length from `before`. */
  predicate Accounted(before: string, r: Rewrite) {
    |r.text| == |before| + TotalGrowth(r.changes)
  }

  /** Accounting composes: a stage that starts where another ended. */
  lemma AccountedThen(t0: string, a: Rewrite, b: Rewrite)
    requires Accounted(t0, a) && Accounted(a.text, b)
    ensures Accounted(t0, Rewrite(b.text, a.changes + b.changes))
  {
    TotalGrowthAppend(a.changes, b.changes);
  }

  /** The random draws of one `humanize` call, one oracle per loop that draws. */
  datatype Draws = Draws(
    lightHigh: Oracle, lightFormal: Oracle, words: Oracle, syntax: Oracle,
    personal: Oracle, emotion: Oracle, uncertainty: Oracle, colloquial: Oracle)

  /** `xs[:n]`. */
  function First<T>(xs: seq<T>, n: nat): (r: seq<T>)
    ensures |r| <= n && |r| <= |xs| && (|xs| > 0 && n > 0 ==> |r| > 0)
    ensures forall i | 0 <= i < |r| :: r[i] == xs[i]
  {
    if |xs| <= n then xs else xs[..n]
  }

  // ---------------------------------------------------------------------------
  // _light_humanize

  /** One iteration of a `_light_humanize` loop: replace the first occurrence of `w`
      by a random replacement, when `w` occurs and has replacements. */
  function SwapStep(lex: Lexicon, o: Oracle, st: Rewrite, w: string, k: nat): Rewrite {
    if Contains(st.text, w) && w in lex.replacements && lex.replacements[w] != [] then
      var n := Choice(lex.replacements[w], Pick(o, k));
      Rewrite(ReplaceFirst(st.text, w, n), st.changes + [Swapped(w, n)])
    else st
  }

  /** A step logs a swap exactly when the word occurs in the current text and has a
      non-empty replacement list; the swap then uses one of those replacements and
      changes only the first occurrence. Otherwise text and log stay as they were. */
  lemma SwapStepFires(lex: Lexicon, o: Oracle, st: Rewrite, w: string, k: nat)
    ensures var r := SwapStep(lex, o, st, w, k);
      (|r.changes| == |st.changes| + 1) <==>
        (Contains(st.text, w) && w in lex.replacements && lex.replacements[w] != [])
    ensures var r := SwapStep(lex, o, st, w, k);
      |r.changes| == |st.changes| + 1 ==>
        r.changes[..|st.changes|] == st.changes
        && r.changes[|st.changes|] == Swapped(w, r.changes[|st.changes|].replacement)
        && r.changes[|st.changes|].replacement in lex.replacements[w]
        && r.text == ReplaceFirst(st.text, w, r.changes[|st.changes|].replacement)
    ensures var r := SwapStep(lex, o, st, w, k);
      |r.changes| != |st.changes| + 1 ==> r == st
  {
  }

  /** A `_light_humanize` loop over the words `ws`, from `text` and an empty log. */
  function SwapAll(lex: Lexicon, o: Oracle, ws: seq<string>, text: string): Rewrite
    decreases |ws|
  {
    if ws == [] then Rewrite(text, [])
    else
      var n := |ws| - 1;
      SwapStep(lex, o, SwapAll(lex, o, ws[..n], text), ws[n], n)
  }

  /** Each word is swapped at most once, the log accounts for the length, and every
      swap uses one of the word's replacements. */
  lemma {:induction false} SwapAllFacts(lex: Lexicon, o: Oracle, ws: seq<string>, text: string)
    ensures |SwapAll(lex, o, ws, text).changes| <= |ws|
    ensures Accounted(text, SwapAll(lex, o, ws, text))
    ensures forall c | c in SwapAll(lex, o, ws, text).changes ::
      c.Swapped? && c.word in ws && c.word in lex.replacements && c.replacement in lex.replacements[c.word]
    decreases |ws|
  {
    if ws != [] {
      var n := |ws| - 1;
      var st := SwapAll(lex, o, ws[..n], text);
      SwapAllFacts(lex, o, ws[..n], text);
      assert forall x | x in ws[..n] :: x in ws;
      var w := ws[n];
      if Contains(st.text, w) && w in lex.replacements && lex.replacements[w] != [] {
        var nw := Choice(lex.replacements[w], Pick(o, n));
        var cs := st.changes + [Swapped(w, nw)];
        assert cs[..|cs| - 1] == st.changes;
      }
    }
  }

  /** Words without replacements are never swapped: if no word has one, nothing changes. */
  lemma {:induction false} SwapAllIdle(lex: Lexicon, o: Oracle, ws: seq<string>, text: string)
    requires forall i | 0 <= i < |ws| :: ws[i] !in lex.replacements || lex.replacements[ws[i]] == []
    ensures SwapAll(lex, o, ws, text) == Rewrite(text, [])
    decreases |ws|
  {
    if ws != [] {
      var n := |ws| - 1;
      assert forall i | 0 <= i < n :: ws[..n][i] == ws[i];
      SwapAllIdle(lex, o, ws[..n], text);
    }
  }

  /** `_light_humanize(text)`: the first 20 high-frequency words, then the first 10
      formal words. */
  function LightSpec(lex: Lexicon, d: Draws, text: string): Rewrite {
    var a := SwapAll(lex, d.lightHigh, First(lex.highFreq, 20), text);
    var b := SwapAll(lex, d.lightFormal, First(lex.formal, 10), a.text);
    Rewrite(b.text, a.changes + b.changes)
  }

  /** One loop of `_light_humanize` as the source writes it. */
  method SwapLoop(lex: Lexicon, o: Oracle, ws: seq<string>, text0: string)
    returns (text: string, changes: seq<Change>)
    ensures Rewrite(text, changes) == SwapAll(lex, o, ws, text0)
  {
    text, changes := text0, [];
    for k := 0 to |ws|
      invariant Rewrite(text, changes) == SwapAll(lex, o, ws[..k], text0)
    {
      var word := ws[k];
      assert ws[..k + 1][..k] == ws[..k];
      if Contains(text, word) && word in lex.replacements {
        var replacements := lex.replacements[word];
        if replacements != [] {
          var newWord := Choice(replacements, Pick(o, k));
          text := ReplaceFirst(text, word, newWord);
          changes := changes + [Swapped(word, newWord)];
        }
      }
    }
    assert ws[..|ws|] == ws;
  }

  /** `_light_humanize(text)`. */
  method LightHumanize(lex: Lexicon, d: Draws, text0: string) returns (text: string, changes: seq<Change>)
    ensures Rewrite(text, changes) == LightSpec(lex, d, text0)
  {
    var highChanges, formalChanges;
    text, highChanges := SwapLoop(lex, d.lightHigh, First(lex.highFreq, 20), text0);
    text, formalChanges := SwapLoop(lex, d.lightFormal, First(lex.formal, 10), text);
    changes := highChanges + formalChanges;
  }

  /** The light tier makes at most 20 + 10 changes, each a swap of one of the first 20
      high-frequency or first 10 formal words for one of its replacements, and the log
      accounts for the new length. */
  lemma LightFacts(lex: Lexicon, d: Draws, text: string)
    ensures |LightSpec(lex, d, text).changes| <= 30
    ensures Accounted(text, LightSpec(lex, d, text))
    ensures forall c | c in LightSpec(lex, d, text).changes ::
      c.Swapped? && (c.word in First(lex.highFreq, 20) || c.word in First(lex.formal, 10))
      && c.word in lex.replacements && c.replacement in lex.replacements[c.word]
  {
    var a := SwapAll(lex, d.lightHigh, First(lex.highFreq, 20), text);
    var b := SwapAll(lex, d.lightFormal, First(lex.formal, 10), a.text);
    SwapAllFacts(lex, d.lightHigh, First(lex.highFreq, 20), text);
    SwapAllFacts(lex, d.lightFormal, First(lex.formal, 10), a.text);
    AccountedThen(text, a, b);
  }

  // ---------------------------------------------------------------------------
  // _replace_words

  /** One iteration of `_replace_words`: a word with replacements whose coin falls below
      `ratio` draws a replacement, which replaces the word's first occurrence if the text
      still contains it. */
  function ReplaceStep(lex: Lexicon, o: Oracle, ratio: real, st: Rewrite, w: string, k: nat): Rewrite {
    if w in lex.replacements && Coin(o, k) < ratio && lex.replacements[w] != [] then
      var n := Choice(lex.replacements[w], Pick(o, k));
      if Contains(st.text, w) then Rewrite(ReplaceFirst(st.text, w, n), st.changes + [WordReplaced(w, n)])
      else st
    else st
  }

  /** The loop of `_replace_words` over the tokens `ws`, from `text` and an empty log. */
  function ReplaceAll(lex: Lexicon, o: Oracle, ratio: real, ws: seq<string>, text: string): Rewrite
    decreases |ws|
  {
    if ws == [] then Rewrite(text, [])
    else
      var n := |ws| - 1;
      ReplaceStep(lex, o, ratio, ReplaceAll(lex, o, ratio, ws[..n], text), ws[n], n)
  }

  /** `_replace_words(text, ratio)`: the tokens are those of the text on entry. */
  function ReplaceWordsSpec(env: Env, o: Oracle, text: string, ratio: real): Rewrite {
    ReplaceAll(env.lex, o, ratio, env.segment(text), text)
  }

  /** At most one change per token, each replacing a token by one of its replacements,
      and the log accounts for the new length. */
  lemma {:induction false} ReplaceAllFacts(lex: Lexicon, o: Oracle, ratio: real, ws: seq<string>, text: string)
    ensures |ReplaceAll(lex, o, ratio, ws, text).changes| <= |ws|
    ensures Accounted(text, ReplaceAll(lex, o, ratio, ws, text))
    ensures forall c | c in ReplaceAll(lex, o, ratio, ws, text).changes ::
      c.WordReplaced? && c.word in ws && c.word in lex.replacements
      && c.replacement in lex.replacements[c.word]
    decreases |ws|
  {
    if ws != [] {
      var n := |ws| - 1;
      var st := ReplaceAll(lex, o, ratio, ws[..n], text);
      ReplaceAllFacts(lex, o, ratio, ws[..n], text);
      assert forall x | x in ws[..n] :: x in ws;
      var w := ws[n];
      if w in lex.replacements && Coin(o, n) < ratio && lex.replacements[w] != [] && Contains(st.text, w) {
        var nw := Choice(lex.replacements[w], Pick(o, n));
        var cs := st.changes + [WordReplaced(w, nw)];
        assert cs[..|cs| - 1] == st.changes;
      }
    }
  }

  /** When every coin is at least `ratio`, no word is replaced. */
  lemma {:induction false} ReplaceAllIdle(lex: Lexicon, o: Oracle, ratio: real, ws: seq<string>, text: string)
    requires forall k | 0 <= k < |ws| :: Coin(o, k) >= ratio
    ensures ReplaceAll(lex, o, ratio, ws, text) == Rewrite(text, [])
    decreases |ws|
  {
    if ws != [] {
      ReplaceAllIdle(lex, o, ratio, ws[..|ws| - 1], text);
    }
  }

  /** `_replace_words` as the source writes it. */
  method ReplaceWords(env: Env, o: Oracle, text0: string, ratio: real)
    returns (text: string, changes: seq<Change>)
    ensures Rewrite(text, changes) == ReplaceWordsSpec(env, o, text0, ratio)
  {
    text, changes := text0, [];
    var words := env.segment(text0);
    for k := 0 to |words|
      invariant Rewrite(text, changes) == ReplaceAll(env.lex, o, ratio, words[..k], text0)
    {
      var word := words[k];
      assert words[..k + 1][..k] == words[..k];
      if word in env.lex.replacements && Coin(o, k) < ratio {
        var replacements := env.lex.replacements[word];
        if replacements != [] {
          var newWord := Choice(replacements, Pick(o, k));
          if Contains(text, word) {
            text := ReplaceFirst(text, word, newWord);
            changes := changes + [WordReplaced(word, newWord)];
          }
        }
      }
    }
    assert words[..|words|] == words;
  }

  // ---------------------------------------------------------------------------
  // _add_uncertainty

  /** The absolute words `_add_uncertainty` softens. */
  const ABSOLUTE_WORDS: seq<string> := ["一定", "必须", "肯定", "绝对"]

  /** One iteration of `_add_uncertainty`: an absolute word that occurs has its first
      occurrence replaced by one of the first five uncertainty expressions. */
  function SoftenStep(lex: Lexicon, o: Oracle, st: Rewrite, w: string, k: nat): Rewrite {
    if Contains(st.text, w) then
      var u := Choice(First(lex.uncertainty, 5), Pick(o, k));
      Rewrite(ReplaceFirst(st.text, w, u), st.changes + [CertaintySoftened(w, u)])
    else st
  }

  /** The loop of `_add_uncertainty` over the words `ws`. */
  function SoftenAll(lex: Lexicon, o: Oracle, ws: seq<string>, text: string): Rewrite
    decreases |ws|
  {
    if ws == [] then Rewrite(text, [])
    else
      var n := |ws| - 1;
      SoftenStep(lex, o, SoftenAll(lex, o, ws[..n], text), ws[n], n)
  }

  /** `_add_uncertainty(text)`. */
  function UncertaintySpec(lex: Lexicon, o: Oracle, text: string): Rewrite {
    SoftenAll(lex, o, ABSOLUTE_WORDS, text)
  }

  /** At most one change per word, each replacing that word by one of the first five
      uncertainty expressions, and the log accounts for the new length. */
  lemma {:induction false} SoftenAllFacts(lex: Lexicon, o: Oracle, ws: seq<string>, text: string)
    ensures |SoftenAll(lex, o, ws, text).changes| <= |ws|
    ensures Accounted(text, SoftenAll(lex, o, ws, text))
    ensures forall c | c in SoftenAll(lex, o, ws, text).changes ::
      c.CertaintySoftened? && c.word in ws && c.replacement in First(lex.uncertainty, 5)
    decreases |ws|
  {
    if ws != [] {
      var n := |ws| - 1;
      var st := SoftenAll(lex, o, ws[..n], text);
      SoftenAllFacts(lex, o, ws[..n], text);
      assert forall x | x in ws[..n] :: x in ws;
      var w := ws[n];
      if Contains(st.text, w) {
        var u := Choice(First(lex.uncertainty, 5), Pick(o, n));
        var cs := st.changes + [CertaintySoftened(w, u)];
        assert cs[..|cs| - 1] == st.changes;
      }
    }
  }

  /** A text without any of the words is left as it is. */
  lemma {:induction false} SoftenAllIdle(lex: Lexicon, o: Oracle, ws: seq<string>, text: string)
    requires forall i | 0 <= i < |ws| :: !Contains(text, ws[i])
    ensures SoftenAll(lex, o, ws, text) == Rewrite(text, [])
    decreases |ws|
  {
    if ws != [] {
      var n := |ws| - 1;
      assert forall i | 0 <= i < n :: ws[..n][i] == ws[i];
      SoftenAllIdle(lex, o, ws[..n], text);
    }
  }

  /** `_add_uncertainty` makes at most four changes, only to 一定, 必须, 肯定 and 绝对,
      and leaves a text without them unchanged. */
  lemma UncertaintyFacts(lex: Lexicon, o: Oracle, text: string)
    ensures |UncertaintySpec(lex, o, text).changes| <= 4
    ensures Accounted(text, UncertaintySpec(lex, o, text))
    ensures forall c | c in UncertaintySpec(lex, o, text).changes ::
      c.CertaintySoftened? && c.word in ABSOLUTE_WORDS && c.replacement in First(lex.uncertainty, 5)
    ensures (forall i | 0 <= i < 4 :: !Contains(text, ABSOLUTE_WORDS[i])) ==>
      UncertaintySpec(lex, o, text) == Rewrite(text, [])
  {
    SoftenAllFacts(lex, o, ABSOLUTE_WORDS, text);
    if forall i | 0 <= i < 4 :: !Contains(text, ABSOLUTE_WORDS[i]) {
      SoftenAllIdle(lex, o, ABSOLUTE_WORDS, text);
    }
  }

  /** `_add_uncertainty` as the source writes it. */
  method AddUncertainty(lex: Lexicon, o: Oracle, text0: string) returns (text: string, changes: seq<Change>)
    ensures Rewrite(text, changes) == UncertaintySpec(lex, o, text0)
  {
    text, changes := SoftenLoop(lex, o, ABSOLUTE_WORDS, text0);
  }

  /** The loop of `_add_uncertainty` over the words `absoluteWords`. */
  method SoftenLoop(lex: Lexicon, o: Oracle, absoluteWords: seq<string>, text0: string)
    returns (text: string, changes: seq<Change>)
    ensures Rewrite(text, changes) == SoftenAll(lex, o, absoluteWords, text0)
  {
    text, changes := text0, [];
    for k := 0 to |absoluteWords|
      invariant Rewrite(text, changes) == SoftenAll(lex, o, absoluteWords[..k], text0)
    {
      var word := absoluteWords[k];
      assert absoluteWords[..k + 1][..k] == absoluteWords[..k];
      if Contains(text, word) {
        var uncertain := Choice(First(lex.uncertainty, 5), Pick(o, k));
        text := ReplaceFirst(text, word, uncertain);
        changes := changes + [CertaintySoftened(word, uncertain)];
      }
    }
    assert absoluteWords[..|absoluteWords|] == absoluteWords;
  }

  // ---------------------------------------------------------------------------
  // _adjust_syntax

  /** Step 1: when both 首先 and 其次 occur, their first occurrences become 先说 and 再说. */
  function FirstlySecondly(st: Rewrite): Rewrite {
    if Contains(st.text, "首先") && Contains(st.text, "其次") then
      Rewrite(ReplaceFirst(ReplaceFirst(st.text, "首先", "先说"), "其次", "再说"),
              st.changes + [FirstlySecondlyBroken])
    else st
  }

  /** The rewrite fires exactly when both words occur, and it keeps the length of the
      text (the replacements are as long as the words they replace). */
  lemma FirstlySecondlyFacts(st: Rewrite)
    ensures |FirstlySecondly(st).text| == |st.text|
    ensures FirstlySecondly(st).changes
            == st.changes + (if Contains(st.text, "首先") && Contains(st.text, "其次") then [FirstlySecondlyBroken] else [])
    ensures !(Contains(st.text, "首先") && Contains(st.text, "其次")) ==> FirstlySecondly(st) == st
  {
    if !(Contains(st.text, "首先") && Contains(st.text, "其次")) {
      assert st.changes + [] == st.changes;
    }
  }

  /** The three simplifications of `不仅 a 而且 b`. */
  function Simplifications(a: string, b: string): seq<string> {
    [a + "，还" + b, a + "，也" + b, "既" + a + "又" + b]
  }

  /** Step 2, one match `(a, b)`: the first occurrence of `不仅 a 而且 b` is replaced by a
      random simplification, and the change is logged. */
  function NotOnlyStep(o: Oracle, st: Rewrite, m: (string, string), k: nat): Rewrite {
    var original := "不仅" + m.0 + "而且" + m.1;
    var simplified := Choice(Simplifications(m.0, m.1), Pick(o, k));
    Rewrite(ReplaceFirst(st.text, original, simplified), st.changes + [NotOnlySimplified(original, simplified)])
  }

  /** Step 2 over the matches `ms`. */
  function NotOnlyAll(o: Oracle, ms: seq<(string, string)>, st: Rewrite): Rewrite
    decreases |ms|
  {
    if ms == [] then st
    else
      var n := |ms| - 1;
      NotOnlyStep(o, NotOnlyAll(o, ms[..n], st), ms[n], n)
  }

  /** Every match is logged, and each simplification shortens the text by 2 when its
      original still occurs and leaves it alone otherwise. */
  lemma {:induction false} NotOnlyAllFacts(o: Oracle, ms: seq<(string, string)>, st: Rewrite)
    ensures |NotOnlyAll(o, ms, st).changes| == |st.changes| + |ms|
    ensures |st.text| - 2 * |ms| <= |NotOnlyAll(o, ms, st).text| <= |st.text|
    decreases |ms|
  {
    if ms != [] {
      var n := |ms| - 1;
      NotOnlyAllFacts(o, ms[..n], st);
      var m := ms[n];
      var forms := Simplifications(m.0, m.1);
      var original := "不仅" + m.0 + "而且" + m.1;
      assert forall i | 0 <= i < 3 :: |forms[i]| == |original| - 2;
    }
  }

  /** The marks `re.split(r'([。！？])', text)` captures. */
  const CLAUSE_MARKS: set<char> := {'。', '！', '？'}

  /** The sentence at even position `i` of a captured split, with its mark if it has one. */
  function UnitAt(ps: seq<string>, i: nat): string
    requires i < |ps|
  {
    if i + 1 < |ps| then ps[i] + ps[i + 1] else ps[i]
  }

  /** A sentence longer than 50 characters with a full-width comma is split. */
  predicate Splits(u: string) {
    |u| > 50 && '，' in u && |SplitOn(u, {'，'})| >= 2
  }

  /** Step 3 on one sentence: split at the middle comma, which becomes `。`. */
  function Reshape(u: string): seq<string> {
    if Splits(u) then
      var parts := SplitOn(u, {'，'});
      var mid := |parts| / 2;
      [JoinWith(parts[..mid], '，') + "。", JoinWith(parts[mid..], '，')]
    else [u]
  }

  /** Step 3 on the sentences from position `i` on. */
  function Resplit(ps: seq<string>, i: nat): seq<string>
    decreases |ps| - i
  {
    if i >= |ps| then [] else Reshape(UnitAt(ps, i)) + Resplit(ps, i + 2)
  }

  /** The log step 3 writes for the sentences from position `i` on. */
  function SplitLog(ps: seq<string>, i: nat): seq<Change>
    decreases |ps| - i
  {
    if i >= |ps| then [] else (if Splits(UnitAt(ps, i)) then [LongSentenceSplit] else []) + SplitLog(ps, i + 2)
  }

  /** A sentence with a comma has at least two comma-separated parts. */
  lemma CommaSplitsInTwo(u: string)
    requires '，' in u
    ensures |SplitOn(u, {'，'})| >= 2
  {
    JoinSplitOn(u, '，');
  }

  /** Splitting a sentence turns exactly one of its commas, the one after the first
      half of the parts, into `。`, and keeps everything else. */
  lemma ReshapeFacts(u: string)
    ensures |u| > 50 && '，' in u ==> Splits(u)
    ensures !Splits(u) ==> Reshape(u) == [u]
    ensures Splits(u) ==>
      var parts := SplitOn(u, {'，'});
      var a := JoinWith(parts[..|parts| / 2], '，');
      var b := JoinWith(parts[|parts| / 2..], '，');
      u == a + "，" + b && Concat(Reshape(u)) == a + "。" + b
    ensures |Concat(Reshape(u))| == |u|
    ensures Splits(u) ==> Concat(Reshape(u)) != u
  {
    if '，' in u {
      CommaSplitsInTwo(u);
    }
    if Splits(u) {
      var parts := SplitOn(u, {'，'});
      var mid := |parts| / 2;
      var a := JoinWith(parts[..mid], '，');
      var b := JoinWith(parts[mid..], '，');
      JoinSplitOn(u, '，');
      JoinWithAt(parts, mid, '，');
      assert u == a + "，" + b;
      assert Concat(Reshape(u)) == a + "。" + b by {
        assert Concat([a + "。", b]) == (a + "。") + Concat([b]);
        assert Concat([b]) == b;
      }
      assert Concat(Reshape(u))[|a|] == '。' && u[|a|] == '，';
    } else {
      assert Concat([u]) == u;
    }
  }

  /** Step 3 keeps the length of the text, and reproduces it exactly when no sentence
      is split: a logged split always changes the text. */
  lemma {:induction false} ResplitFacts(ps: seq<string>, i: nat)
    requires i <= |ps|
    ensures |Concat(Resplit(ps, i))| == |Concat(ps[i..])|
    ensures SplitLog(ps, i) == [] <==> Concat(Resplit(ps, i)) == Concat(ps[i..])
    ensures forall c | c in SplitLog(ps, i) :: c == LongSentenceSplit
    decreases |ps| - i
  {
    if i < |ps| {
      var u := UnitAt(ps, i);
      ReshapeFacts(u);
      ConcatAppend(Reshape(u), Resplit(ps, i + 2));
      if i + 1 < |ps| {
        ResplitFacts(ps, i + 2);
        assert ps[i..] == [ps[i], ps[i + 1]] + ps[i + 2..];
        ConcatAppend([ps[i], ps[i + 1]], ps[i + 2..]);
        assert Concat([ps[i], ps[i + 1]]) == ps[i] + ps[i + 1] by {
          assert Concat([ps[i + 1]]) == ps[i + 1];
        }
        var head, rest := Concat(Reshape(u)), Concat(Resplit(ps, i + 2));
        var tail := Concat(ps[i + 2..]);
        assert Concat(ps[i..]) == u + tail;
        if SplitLog(ps, i) != [] {
          if Splits(u) {
            SameLengthPrefixes(head, u, rest, tail);
          } else {
            assert head == u by { assert Concat([u]) == u + Concat([]); }
            SameLengthPrefixes(u, u, rest, tail);
          }
        }
      } else {
        assert ps[i..] == [ps[i]];
        assert Concat([ps[i]]) == ps[i];
        assert Resplit(ps, i + 2) == [];
        assert SplitLog(ps, i + 2) == [];
        assert Concat(Reshape(u)) + Concat([]) == Concat(Reshape(u));
      }
    }
  }

  /** Two strings that start with prefixes of the same length differ when the prefixes
      differ or the rests differ. */
  lemma SameLengthPrefixes(x: string, y: string, s: string, t: string)
    requires |x| == |y| && (x != y || s != t)
    ensures x + s != y + t
  {
    assert (x + s)[..|x|] == x && (y + t)[..|y|] == y;
    assert (x + s)[|x|..] == s && (y + t)[|y|..] == t;
  }

  /** `_adjust_syntax(text)`: steps 1, 2 and 3 in order. */
  function SyntaxSpec(env: Env, o: Oracle, text: string): Rewrite {
    var a := FirstlySecondly(Rewrite(text, []));
    var b := NotOnlyAll(o, First(env.findAll(a.text), 2), a);
    var ps := SplitKeep(b.text, CLAUSE_MARKS);
    Rewrite(Concat(Resplit(ps, 0)), b.changes + SplitLog(ps, 0))
  }

  /** `_adjust_syntax` shortens the text by at most 4 characters (2 per simplified
      `不仅…而且…`) and never lengthens it; it logs at most one step-1 change, exactly
      `min(2, len(matches))` step-2 changes, and one entry per long sentence split. */
  lemma SyntaxFacts(env: Env, o: Oracle, text: string)
    ensures |text| - 4 <= |SyntaxSpec(env, o, text).text| <= |text|
    ensures var a := FirstlySecondly(Rewrite(text, []));
      var ms := First(env.findAll(a.text), 2);
      var b := NotOnlyAll(o, ms, a);
      var ps := SplitKeep(b.text, CLAUSE_MARKS);
      |a.changes| <= 1 && |b.changes| == |a.changes| + |ms|
      && SyntaxSpec(env, o, text).changes == b.changes + SplitLog(ps, 0)
      && (forall c | c in SplitLog(ps, 0) :: c == LongSentenceSplit)
      && (SplitLog(ps, 0) == [] <==> SyntaxSpec(env, o, text).text == b.text)
  {
    var a := FirstlySecondly(Rewrite(text, []));
    FirstlySecondlyFacts(Rewrite(text, []));
    var ms := First(env.findAll(a.text), 2);
    var b := NotOnlyAll(o, ms, a);
    NotOnlyAllFacts(o, ms, a);
    var ps := SplitKeep(b.text, CLAUSE_MARKS);
    ResplitFacts(ps, 0);
    ConcatSplitKeep(b.text, CLAUSE_MARKS);
    assert ps[0..] == ps;
  }

  /** Step 3 on one sentence, as the source writes it. */
  method ReshapeSentence(sentence: string) returns (pieces: seq<string>, split: bool)
    ensures pieces == Reshape(sentence)
    ensures split == Splits(sentence)
  {
    if |sentence| > 50 && '，' in sentence {
      var parts := SplitOn(sentence, {'，'});
      if |parts| >= 2 {
        var mid := |parts| / 2;
        var firstHalf := JoinWith(parts[..mid], '，') + "。";
        var secondHalf := JoinWith(parts[mid..], '，');
        return [firstHalf, secondHalf], true;
      }
    }
    return [sentence], false;
  }

  /** Step 3 as the source writes it: the sentences at even positions with their marks,
      each kept or split in two. */
  method SplitLongSentences(text: string) returns (out: string, log: seq<Change>)
    ensures out == Concat(Resplit(SplitKeep(text, CLAUSE_MARKS), 0))
    ensures log == SplitLog(SplitKeep(text, CLAUSE_MARKS), 0)
  {
    var sentences := SplitKeep(text, CLAUSE_MARKS);
    var newSentences;
    newSentences, log := ResplitSentences(sentences);
    out := Concat(newSentences);
  }

  /** One iteration of the loop of step 3 moves one sentence from the pending to the done part. */
  lemma SplitStep(ps: seq<string>, i: nat, done: seq<string>, log: seq<Change>, pieces: seq<string>, split: bool)
    requires i < |ps|
    requires pieces == Reshape(UnitAt(ps, i)) && split == Splits(UnitAt(ps, i))
    ensures (done + pieces) + Resplit(ps, i + 2) == done + Resplit(ps, i)
    ensures split ==> (log + [LongSentenceSplit]) + SplitLog(ps, i + 2) == log + SplitLog(ps, i)
    ensures !split ==> log + SplitLog(ps, i + 2) == log + SplitLog(ps, i)
  {
    ResplitUnfold(ps, i);
  }

  /** `Resplit` and `SplitLog` one position at a time. */
  lemma ResplitUnfold(ps: seq<string>, i: nat)
    requires i < |ps|
    ensures Resplit(ps, i) == Reshape(UnitAt(ps, i)) + Resplit(ps, i + 2)
    ensures SplitLog(ps, i) == (if Splits(UnitAt(ps, i)) then [LongSentenceSplit] else []) + SplitLog(ps, i + 2)
  {
  }

  /** The loop of step 3 over the pieces of the captured split. */
  method ResplitSentences(sentences: seq<string>) returns (newSentences: seq<string>, log: seq<Change>)
    ensures newSentences == Resplit(sentences, 0)
    ensures log == SplitLog(sentences, 0)
  {
    newSentences := [];
    log := [];
    var i := 0;
    ghost var allPieces := Resplit(sentences, 0);
    ghost var allLog := SplitLog(sentences, 0);
    while i < |sentences|
      invariant i <= |sentences| + 1
      invariant newSentences + Resplit(sentences, i) == allPieces
      invariant log + SplitLog(sentences, i) == allLog
      decreases |sentences| - i
    {
      var sentence := if i + 1 < |sentences| then sentences[i] + sentences[i + 1] else sentences[i];
      assert sentence == UnitAt(sentences, i);
      var pieces, split := ReshapeSentence(sentence);
      SplitStep(sentences, i, newSentences, log, pieces, split);
      newSentences := newSentences + pieces;
      if split {
        log := log + [LongSentenceSplit];
      }
      i := i + 2;
    }
    assert Resplit(sentences, i) == [] && SplitLog(sentences, i) == [];
  }

  /** `_adjust_syntax` as the source writes it. */
  method AdjustSyntax(env: Env, o: Oracle, text0: string) returns (text: string, changes: seq<Change>)
    ensures Rewrite(text, changes) == SyntaxSpec(env, o, text0)
  {
    text, changes := text0, [];
    if Contains(text, "首先") && Contains(text, "其次") {
      text := ReplaceFirst(text, "首先", "先说");
      text := ReplaceFirst(text, "其次", "再说");
      changes := changes + [FirstlySecondlyBroken];
    }
    assert Rewrite(text, changes) == FirstlySecondly(Rewrite(text0, []));
    var matches := env.findAll(text);
    if matches != [] {
      text, changes := SimplifyNotOnly(o, text, changes, First(matches, 2));
    }
    var log;
    text, log := SplitLongSentences(text);
    changes := changes + log;
  }

  /** The loop of step 2 over the selected matches. */
  method SimplifyNotOnly(o: Oracle, text0: string, changes0: seq<Change>, selected: seq<(string, string)>)
    returns (text: string, changes: seq<Change>)
    ensures Rewrite(text, changes) == NotOnlyAll(o, selected, Rewrite(text0, changes0))
  {
    text, changes := text0, changes0;
    for k := 0 to |selected|
      invariant Rewrite(text, changes) == NotOnlyAll(o, selected[..k], Rewrite(text0, changes0))
    {
      var m := selected[k];
      assert selected[..k + 1][..k] == selected[..k];
      var original := "不仅" + m.0 + "而且" + m.1;
      var simplified := Choice(Simplifications(m.0, m.1), Pick(o, k));
      text := ReplaceFirst(text, original, simplified);
      changes := changes + [NotOnlySimplified(original, simplified)];
    }
    assert selected[..|selected|] == selected;
  }

  // ---------------------------------------------------------------------------
  // _add_personal_expressions, _add_emotions and _add_colloquial_expressions

  /** The three stages that split the text into sentences, sample a few of them and
      attach a phrase to each sampled sentence that qualifies. */
  datatype Insertion = Personal | Emotion | Colloquial

  /** The first-person openers `_add_personal_expressions` chooses from. */
  const FIRST_PERSON_OPENERS: seq<string> := ["我觉得", "我认为", "个人觉得", "依我看"]

  /** The emotion words `_add_emotions` chooses from. */
  const EMOTION_OPENERS: seq<string> := ["真的", "确实", "挺"]

  /** `_add_personal_expressions` also ends sentences at line breaks. */
  const PERSONAL_MARKS: set<char> := {'。', '！', '？', '\n'}

  /** The marks the stage captures when it splits the text. */
  function Marks(s: Insertion): set<char> {
    if s == Personal then PERSONAL_MARKS else CLAUSE_MARKS
  }

  /** The phrases the stage chooses from; the colloquial markers are the first five of
      the lexicon's. */
  function Phrases(s: Insertion, lex: Lexicon): (r: seq<string>)
    ensures |r| > 0
  {
    match s
    case Personal => FIRST_PERSON_OPENERS
    case Emotion => EMOTION_OPENERS
    case Colloquial => First(lex.colloquial, 5)
  }

  /** How many sentences the stage samples: two, or `count` for the colloquial stage. */
  function SampleSize(s: Insertion, count: nat): nat {
    if s == Colloquial then count else 2
  }

  /** Whether the stage samples at all, given the non-blank sentences: the emotion
      stage needs more than two of them, the others one. */
  predicate Runs(s: Insertion, idxs: seq<nat>) {
    if s == Emotion then |idxs| > 2 else idxs != []
  }

  /** Whether the sentence at position `idx` of the split qualifies: longer than 10
      characters for a first-person opener; followed by `。` for an emotion word;
      longer than 5 characters and followed by `。` or `！` for a particle. */
  predicate Fits(s: Insertion, ps: seq<string>, idx: nat) {
    idx < |ps| &&
    match s
    case Personal => ps[idx] != "" && |ps[idx]| > 10
    case Emotion => idx + 1 < |ps| && ps[idx + 1] == "。"
    case Colloquial => ps[idx] != "" && |ps[idx]| > 5 && idx + 1 < |ps| && (ps[idx + 1] == "。" || ps[idx + 1] == "！")
  }

  /** The emotion stage goes on only when its k-th coin is below 0.5. */
  predicate Lucky(s: Insertion, o: Oracle, k: nat) {
    s != Emotion || Coin(o, k) < 0.5
  }

  /** Openers go before the sentence, particles after it. */
  function Attach(s: Insertion, w: string, sentence: string): (r: string)
    ensures |r| == |w| + |sentence|
  {
    if s == Colloquial then sentence + w else w + sentence
  }

  /** The log entry for attaching `w`. */
  function Logged(s: Insertion, w: string): (c: Change)
    ensures c.Growth() == |w|
  {
    match s
    case Personal => FirstPersonAdded(w)
    case Emotion => EmotionAdded(w)
    case Colloquial => ParticleAdded(w)
  }

  /** The sentences of the split being rewritten, with the changes so far. */
  datatype Draft = Draft(parts: seq<string>, changes: seq<Change>)

  /** One sampled position `idx`, the k-th. */
  function InsertStep(s: Insertion, lex: Lexicon, o: Oracle, d: Draft, idx: nat, k: nat): Draft {
    if Fits(s, d.parts, idx) && Lucky(s, o, k) then
      var w := Choice(Phrases(s, lex), Pick(o, k));
      Draft(d.parts[idx := Attach(s, w, d.parts[idx])], d.changes + [Logged(s, w)])
    else d
  }

  /** The loop over the sampled positions `sel`, from the split `ps`. */
  function InsertAll(s: Insertion, lex: Lexicon, o: Oracle, sel: seq<nat>, ps: seq<string>): Draft
    decreases |sel|
  {
    if sel == [] then Draft(ps, [])
    else
      var n := |sel| - 1;
      InsertStep(s, lex, o, InsertAll(s, lex, o, sel[..n], ps), sel[n], n)
  }

  /** `[i for i in range(start, len(ps), 2) if ps[i].strip()]`. */
  function BodyFrom(ps: seq<string>, start: nat): seq<nat>
    decreases |ps| - start
  {
    if start >= |ps| then []
    else (if IsBlank(ps[start]) then [] else [start]) + BodyFrom(ps, start + 2)
  }

  /** The comprehension lists only positions from `start` on, of the parity of
      `start`, whose sentence is not blank. */
  lemma {:induction false} BodyFromSound(ps: seq<string>, start: nat)
    ensures forall x | x in BodyFrom(ps, start) :: start <= x < |ps| && x % 2 == start % 2 && !IsBlank(ps[x])
    decreases |ps| - start
  {
    if start < |ps| {
      BodyFromSound(ps, start + 2);
    }
  }

  /** The comprehension lists its positions in increasing order. */
  lemma {:induction false} BodyFromSorted(ps: seq<string>, start: nat)
    ensures forall j, j' | 0 <= j < j' < |BodyFrom(ps, start)| :: BodyFrom(ps, start)[j] < BodyFrom(ps, start)[j']
    decreases |ps| - start
  {
    if start < |ps| {
      BodyFromSorted(ps, start + 2);
      BodyFromSound(ps, start + 2);
      var head: seq<nat> := if IsBlank(ps[start]) then [] else [start];
      var rest := BodyFrom(ps, start + 2);
      assert BodyFrom(ps, start) == head + rest;
      forall j, j' | 0 <= j < j' < |head + rest| ensures (head + rest)[j] < (head + rest)[j'] {
        if j < |head| {
          assert (head + rest)[j'] in rest;
        } else {
          assert (head + rest)[j] == rest[j - |head|] && (head + rest)[j'] == rest[j' - |head|];
        }
      }
    }
  }

  /** The comprehension lists every position from `start` on, of the parity of
      `start`, whose sentence is not blank. */
  lemma {:induction false} BodyFromComplete(ps: seq<string>, start: nat)
    ensures forall i: nat | start <= i < |ps| && i % 2 == start % 2 && !IsBlank(ps[i]) :: i in BodyFrom(ps, start)
    decreases |ps| - start
  {
    if start < |ps| {
      BodyFromComplete(ps, start + 2);
      var head: seq<nat> := if IsBlank(ps[start]) then [] else [start];
      var rest := BodyFrom(ps, start + 2);
      assert BodyFrom(ps, start) == head + rest;
      assert (start + 2) % 2 == start % 2;
      forall i: nat | start <= i < |ps| && i % 2 == start % 2 && !IsBlank(ps[i]) ensures i in head + rest {
        if i == start {
          assert i in head;
        } else {
          assert start + 2 <= i;
          assert i in rest;
        }
      }
    }
  }

  /** The positions of the non-blank sentences of a captured split, in increasing order. */
  function BodyIndices(ps: seq<string>): (r: seq<nat>)
    ensures Distinct(r)
    ensures forall j | j in r :: j < |ps| && j % 2 == 0 && !IsBlank(ps[j])
    ensures forall i: nat | i < |ps| && i % 2 == 0 && !IsBlank(ps[i]) :: i in r
  {
    BodyFromSound(ps, 0);
    BodyFromSorted(ps, 0);
    BodyFromComplete(ps, 0);
    BodyFrom(ps, 0)
  }

  /** One of the three stages on `text`; `count` is the colloquial stage's sample size. */
  function InsertSpec(s: Insertion, lex: Lexicon, o: Oracle, text: string, count: nat): Rewrite {
    var ps := SplitKeep(text, Marks(s));
    var idxs := BodyIndices(ps);
    if Runs(s, idxs) then
      var d := InsertAll(s, lex, o, Sample(idxs, SampleSize(s, count), o.keys), ps);
      Rewrite(Concat(d.parts), d.changes)
    else Rewrite(Concat(ps), [])
  }

  /** The entry records attaching one of the stage's phrases. */
  predicate LoggedBy(s: Insertion, lex: Lexicon, c: Change) {
    exists w | w in Phrases(s, lex) :: c == Logged(s, w)
  }

  /** At most one change per sampled position, the log accounts for the length, and
      every entry attaches one of the stage's phrases. */
  lemma {:induction false} InsertAllShape(s: Insertion, lex: Lexicon, o: Oracle, sel: seq<nat>, ps: seq<string>)
    ensures |InsertAll(s, lex, o, sel, ps).parts| == |ps|
    ensures |InsertAll(s, lex, o, sel, ps).changes| <= |sel|
    ensures |Concat(InsertAll(s, lex, o, sel, ps).parts)| == |Concat(ps)| + TotalGrowth(InsertAll(s, lex, o, sel, ps).changes)
    ensures forall c | c in InsertAll(s, lex, o, sel, ps).changes :: LoggedBy(s, lex, c)
    decreases |sel|
  {
    if sel != [] {
      var n := |sel| - 1;
      InsertAllShape(s, lex, o, sel[..n], ps);
      var d := InsertAll(s, lex, o, sel[..n], ps);
      var idx := sel[n];
      if Fits(s, d.parts, idx) && Lucky(s, o, n) {
        var w := Choice(Phrases(s, lex), Pick(o, n));
        ConcatUpdateLength(d.parts, idx, Attach(s, w, d.parts[idx]));
        assert LoggedBy(s, lex, Logged(s, w));
        var cs := d.changes + [Logged(s, w)];
        assert cs[..|cs| - 1] == d.changes;
      }
    }
  }

  /** `after` is `before` with one of the stage's phrases attached. */
  predicate Attached(s: Insertion, lex: Lexicon, before: string, after: string) {
    exists w | w in Phrases(s, lex) :: after == Attach(s, w, before)
  }

  /** Every sentence of `parts` that differs from the split `ps` sits at one of the
      positions `sel`, qualified in `ps`, and carries one of the stage's phrases. */
  predicate PlacedAt(s: Insertion, lex: Lexicon, ps: seq<string>, sel: seq<nat>, parts: seq<string>) {
    |parts| == |ps| &&
    forall j | 0 <= j < |ps| && parts[j] != ps[j] :: j in sel && Fits(s, ps, j) && Attached(s, lex, ps[j], parts[j])
  }

  /** Attaching a phrase at a fresh even position keeps the placement facts. */
  lemma PlacedAtStep(s: Insertion, lex: Lexicon, ps: seq<string>, prev: seq<nat>, parts: seq<string>, idx: nat, w: string)
    requires PlacedAt(s, lex, ps, prev, parts)
    requires idx !in prev && idx % 2 == 0 && forall j | j in prev :: j % 2 == 0
    requires Fits(s, parts, idx) && w in Phrases(s, lex)
    ensures PlacedAt(s, lex, ps, prev + [idx], parts[idx := Attach(s, w, parts[idx])])
  {
    var e := parts[idx := Attach(s, w, parts[idx])];
    assert parts[idx] == ps[idx];
    if idx + 1 < |ps| {
      assert idx + 1 !in prev;
      assert parts[idx + 1] == ps[idx + 1];
    }
    assert Fits(s, ps, idx);
    assert Attached(s, lex, ps[idx], e[idx]);
    forall j | 0 <= j < |ps| && e[j] != ps[j]
      ensures j in prev + [idx] && Fits(s, ps, j) && Attached(s, lex, ps[j], e[j])
    {
      if j != idx {
        assert e[j] == parts[j];
      }
    }
  }

  /** Over distinct even positions, a sentence changes only at a sampled position
      whose original qualifies, and then by attaching one of the stage's phrases; the
      marks at odd positions never change. */
  lemma {:induction false} InsertAllPlaces(s: Insertion, lex: Lexicon, o: Oracle, sel: seq<nat>, ps: seq<string>)
    requires Distinct(sel)
    requires forall j | j in sel :: j % 2 == 0
    ensures PlacedAt(s, lex, ps, sel, InsertAll(s, lex, o, sel, ps).parts)
    decreases |sel|
  {
    if sel != [] {
      var n := |sel| - 1;
      var prev := sel[..n];
      assert prev + [sel[n]] == sel;
      assert forall j | j in prev :: j in sel;
      InsertAllPlaces(s, lex, o, prev, ps);
      var d := InsertAll(s, lex, o, prev, ps);
      var idx := sel[n];
      assert idx !in prev;
      assert idx % 2 == 0 by { assert idx in sel; }
      if Fits(s, d.parts, idx) && Lucky(s, o, n) {
        var w := Choice(Phrases(s, lex), Pick(o, n));
        PlacedAtStep(s, lex, ps, prev, d.parts, idx, w);
      } else {
        assert forall j | j in prev :: j in sel;
      }
    }
  }

  /** When no sentence of the split qualifies, the loop changes nothing. */
  lemma {:induction false} InsertAllIdle(s: Insertion, lex: Lexicon, o: Oracle, sel: seq<nat>, ps: seq<string>)
    requires forall j: nat | j < |ps| :: !Fits(s, ps, j)
    ensures InsertAll(s, lex, o, sel, ps) == Draft(ps, [])
    decreases |sel|
  {
    if sel != [] {
      InsertAllIdle(s, lex, o, sel[..|sel| - 1], ps);
    }
  }

  /** A stage keeps the accounting, makes at most as many changes as it samples, logs
      only its own phrases, and leaves the text alone when no sentence qualifies or it
      does not run. */
  lemma InsertFacts(s: Insertion, lex: Lexicon, o: Oracle, text: string, count: nat)
    ensures Accounted(text, InsertSpec(s, lex, o, text, count))
    ensures |InsertSpec(s, lex, o, text, count).changes| <= SampleSize(s, count)
    ensures forall c | c in InsertSpec(s, lex, o, text, count).changes :: LoggedBy(s, lex, c)
    ensures var ps := SplitKeep(text, Marks(s));
      !Runs(s, BodyIndices(ps)) || (forall j: nat | j < |ps| :: !Fits(s, ps, j)) ==>
        InsertSpec(s, lex, o, text, count) == Rewrite(text, [])
  {
    var ps := SplitKeep(text, Marks(s));
    var idxs := BodyIndices(ps);
    ConcatSplitKeep(text, Marks(s));
    if Runs(s, idxs) {
      var sel := Sample(idxs, SampleSize(s, count), o.keys);
      InsertAllShape(s, lex, o, sel, ps);
      if forall j: nat | j < |ps| :: !Fits(s, ps, j) {
        InsertAllIdle(s, lex, o, sel, ps);
      }
    }
  }

  /** Only non-blank sentences that qualify change, each by attaching one of the
      stage's phrases; all marks stay in place. */
  lemma InsertPlaces(s: Insertion, lex: Lexicon, o: Oracle, text: string, count: nat)
    ensures var ps := SplitKeep(text, Marks(s));
      var idxs := BodyIndices(ps);
      Runs(s, idxs) ==>
        var d := InsertAll(s, lex, o, Sample(idxs, SampleSize(s, count), o.keys), ps);
        |d.parts| == |ps| && InsertSpec(s, lex, o, text, count).text == Concat(d.parts) &&
        forall j | 0 <= j < |ps| && d.parts[j] != ps[j] ::
          j % 2 == 0 && !IsBlank(ps[j]) && Fits(s, ps, j) &&
          Attached(s, lex, ps[j], d.parts[j])
  {
    var ps := SplitKeep(text, Marks(s));
    var idxs := BodyIndices(ps);
    if Runs(s, idxs) {
      var sel := Sample(idxs, SampleSize(s, count), o.keys);
      InsertAllPlaces(s, lex, o, sel, ps);
    }
  }

  /** The body of the three stages' loops, as the source writes each: attach a phrase
      to the sentence at `idx` when it qualifies. */
  method InsertAt(s: Insertion, lex: Lexicon, o: Oracle, sentences0: seq<string>, changes0: seq<Change>, idx: nat, k: nat)
    returns (sentences: seq<string>, changes: seq<Change>)
    requires idx < |sentences0|
    ensures Draft(sentences, changes) == InsertStep(s, lex, o, Draft(sentences0, changes0), idx, k)
  {
    sentences, changes := sentences0, changes0;
    match s
    case Personal =>
      var sentence := sentences[idx];
      if sentence != "" && |sentence| > 10 {
        var firstPerson := Choice(FIRST_PERSON_OPENERS, Pick(o, k));
        sentences := sentences[idx := firstPerson + sentence];
        changes := changes + [FirstPersonAdded(firstPerson)];
      }
    case Emotion =>
      if idx + 1 < |sentences| && sentences[idx + 1] == "。" {
        if Coin(o, k) < 0.5 {
          var emotionWord := Choice(EMOTION_OPENERS, Pick(o, k));
          sentences := sentences[idx := emotionWord + sentences[idx]];
          changes := changes + [EmotionAdded(emotionWord)];
        }
      }
    case Colloquial =>
      var sentence := sentences[idx];
      if sentence != "" && |sentence| > 5 {
        if idx + 1 < |sentences| && (sentences[idx + 1] == "。" || sentences[idx + 1] == "！") {
          var marker := Choice(First(lex.colloquial, 5), Pick(o, k));
          sentences := sentences[idx := sentence + marker];
          changes := changes + [ParticleAdded(marker)];
        }
      }
  }

  /** The loop of the three stages over the sampled positions `selected`. */
  method InsertLoop(s: Insertion, lex: Lexicon, o: Oracle, ps: seq<string>, selected: seq<nat>)
    returns (sentences: seq<string>, changes: seq<Change>)
    requires forall idx | idx in selected :: idx < |ps|
    ensures Draft(sentences, changes) == InsertAll(s, lex, o, selected, ps)
  {
    sentences, changes := ps, [];
    for k := 0 to |selected|
      invariant |sentences| == |ps|
      invariant Draft(sentences, changes) == InsertAll(s, lex, o, selected[..k], ps)
    {
      assert selected[..k + 1][..k] == selected[..k];
      assert selected[k] in selected;
      sentences, changes := InsertAt(s, lex, o, sentences, changes, selected[k], k);
    }
    assert selected[..|selected|] == selected;
  }

  /** `_add_personal_expressions` as the source writes it. */
  method AddPersonalExpressions(env: Env, o: Oracle, text: string) returns (result: string, changes: seq<Change>)
    ensures Rewrite(result, changes) == InsertSpec(Personal, env.lex, o, text, 2)
  {
    var sentences := SplitKeep(text, PERSONAL_MARKS);
    changes := [];
    var sentenceIndices := BodyIndices(sentences);
    if sentenceIndices != [] {
      var selected := Sample(sentenceIndices, 2, o.keys);
      sentences, changes := InsertLoop(Personal, env.lex, o, sentences, selected);
    }
    result := Concat(sentences);
  }

  /** `_add_emotions` as the source writes it. */
  method AddEmotions(env: Env, o: Oracle, text: string) returns (result: string, changes: seq<Change>)
    ensures Rewrite(result, changes) == InsertSpec(Emotion, env.lex, o, text, 2)
  {
    var sentences := SplitKeep(text, CLAUSE_MARKS);
    changes := [];
    var sentenceIndices := BodyIndices(sentences);
    if sentenceIndices != [] && |sentenceIndices| > 2 {
      var selected := Sample(sentenceIndices, 2, o.keys);
      sentences, changes := InsertLoop(Emotion, env.lex, o, sentences, selected);
    }
    result := Concat(sentences);
  }

  /** `_add_colloquial_expressions(text, count)` as the source writes it. */
  method AddColloquialExpressions(env: Env, o: Oracle, text: string, count: nat) returns (result: string, changes: seq<Change>)
    ensures Rewrite(result, changes) == InsertSpec(Colloquial, env.lex, o, text, count)
  {
    var sentences := SplitKeep(text, CLAUSE_MARKS);
    changes := [];
    var sentenceIndices := BodyIndices(sentences);
    if sentenceIndices != [] {
      var selected := Sample(sentenceIndices, count, o.keys);
      sentences, changes := InsertLoop(Colloquial, env.lex, o, sentences, selected);
    }
    result := Concat(sentences);
  }

  // ---------------------------------------------------------------------------
  // _medium_humanize and _heavy_humanize

  /** `_medium_humanize`: words at ratio 0.6, syntax, then two particles. */
  function MediumSpec(env: Env, d: Draws, text: string): Rewrite {
    var a := ReplaceWordsSpec(env, d.words, text, 0.6);
    var b := SyntaxSpec(env, d.syntax, a.text);
    var c := InsertSpec(Colloquial, env.lex, d.colloquial, b.text, 2);
    Rewrite(c.text, a.changes + b.changes + c.changes)
  }

  /** `_heavy_humanize`: words at ratio 0.9, syntax, first person, emotion,
      uncertainty, then five particles. */
  function HeavySpec(env: Env, d: Draws, text: string): Rewrite {
    var a := ReplaceWordsSpec(env, d.words, text, 0.9);
    var b := SyntaxSpec(env, d.syntax, a.text);
    var c := InsertSpec(Personal, env.lex, d.personal, b.text, 2);
    var e := InsertSpec(Emotion, env.lex, d.emotion, c.text, 2);
    var u := UncertaintySpec(env.lex, d.uncertainty, e.text);
    var f := InsertSpec(Colloquial, env.lex, d.colloquial, u.text, 5);
    Rewrite(f.text, a.changes + b.changes + c.changes + e.changes + u.changes + f.changes)
  }

  /** The medium tier only replaces words, adjusts syntax and adds particles: it never
      adds a first-person opener or an emotion word and never softens certainty. */
  predicate MediumKind(c: Change) {
    c.WordReplaced? || c.FirstlySecondlyBroken? || c.NotOnlySimplified? || c.LongSentenceSplit? || c.ParticleAdded?
  }

  /** The medium log is the word log, the syntax log and at most two particles; the
      syntax stage shortens the text by at most 4 and the particles add exactly their
      own length. */
  lemma MediumFacts(env: Env, d: Draws, text: string)
    ensures forall c | c in MediumSpec(env, d, text).changes :: MediumKind(c)
    ensures var a := ReplaceWordsSpec(env, d.words, text, 0.6);
      var b := SyntaxSpec(env, d.syntax, a.text);
      var c := InsertSpec(Colloquial, env.lex, d.colloquial, b.text, 2);
      MediumSpec(env, d, text).changes == a.changes + b.changes + c.changes
      && |a.changes| <= |env.segment(text)| && Accounted(text, a)
      && |a.text| - 4 <= |b.text| <= |a.text|
      && |c.changes| <= 2 && Accounted(b.text, c)
  {
    var a := ReplaceWordsSpec(env, d.words, text, 0.6);
    ReplaceAllFacts(env.lex, d.words, 0.6, env.segment(text), text);
    var b := SyntaxSpec(env, d.syntax, a.text);
    SyntaxFacts(env, d.syntax, a.text);
    FirstlySecondlyFacts(Rewrite(a.text, []));
    var c := InsertSpec(Colloquial, env.lex, d.colloquial, b.text, 2);
    InsertFacts(Colloquial, env.lex, d.colloquial, b.text, 2);
    forall x | x in b.changes ensures MediumKind(x) {
      SyntaxKinds(env, d.syntax, a.text);
    }
  }

  /** Every entry of the syntax log is one of its three kinds. */
  lemma SyntaxKinds(env: Env, o: Oracle, text: string)
    ensures forall c | c in SyntaxSpec(env, o, text).changes ::
      c.FirstlySecondlyBroken? || c.NotOnlySimplified? || c.LongSentenceSplit?
  {
    var a := FirstlySecondly(Rewrite(text, []));
    FirstlySecondlyFacts(Rewrite(text, []));
    var ms := First(env.findAll(a.text), 2);
    NotOnlyKinds(o, ms, a);
    SyntaxFacts(env, o, text);
  }

  /** Step 2 logs only simplifications. */
  lemma {:induction false} NotOnlyKinds(o: Oracle, ms: seq<(string, string)>, st: Rewrite)
    ensures forall c | c in NotOnlyAll(o, ms, st).changes :: c in st.changes || c.NotOnlySimplified?
    decreases |ms|
  {
    if ms != [] {
      NotOnlyKinds(o, ms[..|ms| - 1], st);
    }
  }

  /** The heavy log is the word log, the syntax log, at most two first-person openers,
      at most two emotion words, at most four softenings and at most five particles;
      every stage after syntax accounts for the length it adds. */
  lemma HeavyFacts(env: Env, d: Draws, text: string)
    ensures var a := ReplaceWordsSpec(env, d.words, text, 0.9);
      var b := SyntaxSpec(env, d.syntax, a.text);
      var c := InsertSpec(Personal, env.lex, d.personal, b.text, 2);
      var e := InsertSpec(Emotion, env.lex, d.emotion, c.text, 2);
      var u := UncertaintySpec(env.lex, d.uncertainty, e.text);
      var f := InsertSpec(Colloquial, env.lex, d.colloquial, u.text, 5);
      HeavySpec(env, d, text).changes == a.changes + b.changes + c.changes + e.changes + u.changes + f.changes
      && |a.changes| <= |env.segment(text)| && Accounted(text, a)
      && |a.text| - 4 <= |b.text| <= |a.text|
      && |c.changes| <= 2 && (forall x | x in c.changes :: x.FirstPersonAdded?)
      && |e.changes| <= 2 && (forall x | x in e.changes :: x.EmotionAdded?)
      && |u.changes| <= 4 && (forall x | x in u.changes :: x.CertaintySoftened?)
      && |f.changes| <= 5 && (forall x | x in f.changes :: x.ParticleAdded?)
      && Accounted(b.text, Rewrite(f.text, c.changes + e.changes + u.changes + f.changes))
  {
    var a := ReplaceWordsSpec(env, d.words, text, 0.9);
    ReplaceAllFacts(env.lex, d.words, 0.9, env.segment(text), text);
    var b := SyntaxSpec(env, d.syntax, a.text);
    SyntaxFacts(env, d.syntax, a.text);
    var c := InsertSpec(Personal, env.lex, d.personal, b.text, 2);
    InsertFacts(Personal, env.lex, d.personal, b.text, 2);
    var e := InsertSpec(Emotion, env.lex, d.emotion, c.text, 2);
    InsertFacts(Emotion, env.lex, d.emotion, c.text, 2);
    var u := UncertaintySpec(env.lex, d.uncertainty, e.text);
    UncertaintyFacts(env.lex, d.uncertainty, e.text);
    var f := InsertSpec(Colloquial, env.lex, d.colloquial, u.text, 5);
    InsertFacts(Colloquial, env.lex, d.colloquial, u.text, 5);
    AccountedThen(b.text, c, e);
    AccountedThen(b.text, Rewrite(e.text, c.changes + e.changes), u);
    AccountedThen(b.text, Rewrite(u.text, c.changes + e.changes + u.changes), f);
  }

  /** `_medium_humanize` as the source writes it. */
  method MediumHumanize(env: Env, d: Draws, text0: string) returns (text: string, changes: seq<Change>)
    ensures Rewrite(text, changes) == MediumSpec(env, d, text0)
  {
    changes := [];
    var wordChanges, syntaxChanges, colloquialChanges;
    text, wordChanges := ReplaceWords(env, d.words, text0, 0.6);
    changes := changes + wordChanges;
    assert changes == wordChanges;
    text, syntaxChanges := AdjustSyntax(env, d.syntax, text);
    changes := changes + syntaxChanges;
    text, colloquialChanges := AddColloquialExpressions(env, d.colloquial, text, 2);
    changes := changes + colloquialChanges;
  }

  /** `_heavy_humanize` as the source writes it. */
  method HeavyHumanize(env: Env, d: Draws, text0: string) returns (text: string, changes: seq<Change>)
    ensures Rewrite(text, changes) == HeavySpec(env, d, text0)
  {
    changes := [];
    var wordChanges, syntaxChanges, personalChanges, emotionChanges, uncertaintyChanges, colloquialChanges;
    text, wordChanges := ReplaceWords(env, d.words, text0, 0.9);
    changes := changes + wordChanges;
    assert changes == wordChanges;
    text, syntaxChanges := AdjustSyntax(env, d.syntax, text);
    changes := changes + syntaxChanges;
    text, personalChanges := AddPersonalExpressions(env, d.personal, text);
    changes := changes + personalChanges;
    text, emotionChanges := AddEmotions(env, d.emotion, text);
    changes := changes + emotionChanges;
    text, uncertaintyChanges := AddUncertainty(env.lex, d.uncertainty, text);
    changes := changes + uncertaintyChanges;
    text, colloquialChanges := AddColloquialExpressions(env, d.colloquial, text, 5);
    changes := changes + colloquialChanges;
  }

  // ---------------------------------------------------------------------------
  // humanize and batch_humanize

  /** The dictionary `humanize` returns. */
  datatype HumanizeResult = HumanizeResult(
    text: string, originalLength: nat, modifiedLength: nat,
    changes: seq<string>, changeCount: nat, intensity: string)

  /** The `ValueError` `humanize` raises for an unknown intensity. */
  datatype HumanizeError = InvalidIntensity(intensity: string)
  {
    function Message(): string {
      match this
      case InvalidIntensity(i) => "Invalid intensity: " + i + ". Must be 'light', 'medium', or 'heavy'"
    }
  }

  /** The messages of a log, in order. */
  function Messages(cs: seq<Change>): (r: seq<string>)
    ensures |r| == |cs|
    ensures forall i | 0 <= i < |cs| :: r[i] == cs[i].Message()
  {
    seq(|cs|, i requires 0 <= i < |cs| => cs[i].Message())
  }

  /** The three intensities `humanize` accepts. */
  predicate ValidIntensity(intensity: string) {
    intensity == "light" || intensity == "medium" || intensity == "heavy"
  }

  /** The tier the intensity selects. */
  function TierSpec(env: Env, d: Draws, text: string, intensity: string): Rewrite
    requires ValidIntensity(intensity)
  {
    if intensity == "light" then LightSpec(env.lex, d, text)
    else if intensity == "medium" then MediumSpec(env, d, text)
    else HeavySpec(env, d, text)
  }

  /** `humanize(text, intensity)`: a blank text comes back as it is with lengths 0,
      whatever the intensity; otherwise the tier runs, or an unknown intensity is an
      error. */
  function HumanizeSpec(env: Env, d: Draws, text: string, intensity: string): Result<HumanizeResult, HumanizeError> {
    if IsBlank(text) then Ok(HumanizeResult(text, 0, 0, [], 0, intensity))
    else if ValidIntensity(intensity) then
      var r := TierSpec(env, d, text, intensity);
      Ok(HumanizeResult(r.text, |text|, |r.text|, Messages(r.changes), |r.changes|, intensity))
    else Err(InvalidIntensity(intensity))
  }

  /** A blank text is returned unchanged with zero lengths and no changes, even for
      an unknown intensity. */
  lemma HumanizeBlank(env: Env, d: Draws, text: string, intensity: string)
    requires IsBlank(text)
    ensures HumanizeSpec(env, d, text, intensity).Ok?
    ensures var r := HumanizeSpec(env, d, text, intensity).value;
      r.text == text && r.originalLength == 0 && r.modifiedLength == 0
      && r.changes == [] && r.changeCount == 0 && r.intensity == intensity
  {
  }

  /** `humanize` fails exactly on a non-blank text with an unknown intensity, and then
      with that intensity's message. */
  lemma HumanizeErrors(env: Env, d: Draws, text: string, intensity: string)
    ensures HumanizeSpec(env, d, text, intensity).Err? <==> !IsBlank(text) && !ValidIntensity(intensity)
    ensures HumanizeSpec(env, d, text, intensity).Err? ==>
      HumanizeSpec(env, d, text, intensity).error.Message()
        == "Invalid intensity: " + intensity + ". Must be 'light', 'medium', or 'heavy'"
  {
  }

  /** On a non-blank text the result records the original and the new length, one
      message per change, the change count and the intensity; the light tier makes at
      most 30 changes and its log accounts for the new length. */
  lemma HumanizeBookkeeping(env: Env, d: Draws, text: string, intensity: string)
    requires !IsBlank(text) && ValidIntensity(intensity)
    ensures HumanizeSpec(env, d, text, intensity).Ok?
    ensures var r := HumanizeSpec(env, d, text, intensity).value;
      var t := TierSpec(env, d, text, intensity);
      r.text == t.text && r.originalLength == |text| && r.modifiedLength == |r.text|
      && r.changeCount == |r.changes| == |t.changes|
      && (forall i | 0 <= i < |t.changes| :: r.changes[i] == t.changes[i].Message())
      && r.intensity == intensity
      && (intensity == "light" ==> r.changeCount <= 30 && Accounted(text, t))
  {
    if intensity == "light" {
      LightFacts(env.lex, d, text);
    }
  }

  /** `humanize` as the source writes it. */
  method Humanize(env: Env, d: Draws, text: string, intensity: string) returns (r: Result<HumanizeResult, HumanizeError>)
    ensures r == HumanizeSpec(env, d, text, intensity)
  {
    if text == [] || |Strip(text)| == 0 {
      return Ok(HumanizeResult(text, 0, 0, [], 0, intensity));
    }
    var originalText := text;
    var changes: seq<Change> := [];
    var out, changeList;
    if intensity == "light" {
      out, changeList := LightHumanize(env.lex, d, text);
      changes := changes + changeList;
      assert Rewrite(out, changes) == TierSpec(env, d, text, intensity);
    } else if intensity == "medium" {
      out, changeList := MediumHumanize(env, d, text);
      changes := changes + changeList;
      assert Rewrite(out, changes) == TierSpec(env, d, text, intensity);
    } else if intensity == "heavy" {
      out, changeList := HeavyHumanize(env, d, text);
      changes := changes + changeList;
      assert Rewrite(out, changes) == TierSpec(env, d, text, intensity);
    } else {
      return Err(InvalidIntensity(intensity));
    }
    return Ok(HumanizeResult(out, |originalText|, |out|, Messages(changes), |changes|, intensity));
  }

  /** The draws of the i-th text of a batch; a batch supplied with fewer reads no draws. */
  function DrawsAt(ds: seq<Draws>, i: nat): Draws {
    if i < |ds| then ds[i]
    else
      var none := Oracle([], [], []);
      Draws(none, none, none, none, none, none, none, none)
  }

  /** `batch_humanize(texts, intensity)`: the texts in order; the first error aborts
      the batch. */
  function BatchSpec(env: Env, ds: seq<Draws>, texts: seq<string>, intensity: string): Result<seq<HumanizeResult>, HumanizeError>
    decreases |texts|
  {
    if texts == [] then Ok([])
    else
      var n := |texts| - 1;
      match BatchSpec(env, ds, texts[..n], intensity)
      case Err(e) => Err(e)
      case Ok(rs) =>
        match HumanizeSpec(env, DrawsAt(ds, n), texts[n], intensity)
        case Err(e) => Err(e)
        case Ok(r) => Ok(rs + [r])
  }

  /** A successful batch has one result per text, each the result of `humanize` on it. */
  lemma {:induction false} BatchResults(env: Env, ds: seq<Draws>, texts: seq<string>, intensity: string)
    ensures BatchSpec(env, ds, texts, intensity).Ok? ==>
      var rs := BatchSpec(env, ds, texts, intensity).value;
      |rs| == |texts| && forall i | 0 <= i < |texts| :: HumanizeSpec(env, DrawsAt(ds, i), texts[i], intensity) == Ok(rs[i])
    decreases |texts|
  {
    if texts != [] {
      var n := |texts| - 1;
      BatchResults(env, ds, texts[..n], intensity);
    }
  }

  /** A batch fails exactly when the intensity is unknown and some text is not blank. */
  lemma {:induction false} BatchErrors(env: Env, ds: seq<Draws>, texts: seq<string>, intensity: string)
    ensures BatchSpec(env, ds, texts, intensity).Err? <==>
      !ValidIntensity(intensity) && exists i | 0 <= i < |texts| :: !IsBlank(texts[i])
    ensures BatchSpec(env, ds, texts, intensity).Err? ==> BatchSpec(env, ds, texts, intensity).error == InvalidIntensity(intensity)
    decreases |texts|
  {
    if texts != [] {
      var n := |texts| - 1;
      BatchErrors(env, ds, texts[..n], intensity);
      HumanizeErrors(env, DrawsAt(ds, n), texts[n], intensity);
      if exists i | 0 <= i < n :: !IsBlank(texts[..n][i]) {
        var i :| 0 <= i < n && !IsBlank(texts[..n][i]);
        assert texts[i] == texts[..n][i];
      }
      if exists i | 0 <= i < |texts| :: !IsBlank(texts[i]) {
        var i :| 0 <= i < |texts| && !IsBlank(texts[i]);
        if i < n {
          assert texts[..n][i] == texts[i];
        }
      }
    }
  }

  /** `batch_humanize` as the source writes it. */
  method BatchHumanize(env: Env, ds: seq<Draws>, texts: seq<string>, intensity: string)
    returns (r: Result<seq<HumanizeResult>, HumanizeError>)
    ensures r == BatchSpec(env, ds, texts, intensity)
  {
    var results: seq<HumanizeResult> := [];
    for i := 0 to |texts|
      invariant BatchSpec(env, ds, texts[..i], intensity) == Ok(results)
    {
      assert texts[..i + 1][..i] == texts[..i];
      var result := Humanize(env, DrawsAt(ds, i), texts[i], intensity);
      if result.Err? {
        BatchAborts(env, ds, texts, intensity, i + 1);
        return Err(result.error);
      }
      results := results + [result.value];
    }
    assert texts[..|texts|] == texts;
    return Ok(results);
  }

  /** Once a prefix of the batch fails, the whole batch fails with the same error. */
  lemma {:induction false} BatchAborts(env: Env, ds: seq<Draws>, texts: seq<string>, intensity: string, k: nat)
    requires k <= |texts|
    requires BatchSpec(env, ds, texts[..k], intensity).Err?
    ensures BatchSpec(env, ds, texts, intensity) == BatchSpec(env, ds, texts[..k], intensity)
    decreases |texts| - k
  {
    if k < |texts| {
      var m := |texts| - 1;
      assert texts[..m][..k] == texts[..k];
      BatchAborts(env, ds, texts[..m], intensity, k);
    } else {
      assert texts[..k] == texts;
    }
  }
}
