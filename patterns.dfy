/** The pattern library of `ai_humanizer/rules/patterns.py`: six ordered lists of
    regular expressions, compiled once, and `check_pattern`, which reports for each
    pattern of the requested categories, in list order, whether it is found in a text.

    The regular-expression engine is foreign code. The model interprets exactly one
    fragment of it, the literal text an anchored pattern (`^` first, no `|`) demands
    at the start of the subject; every other question is put to an `Engine` oracle. */
module Patterns {
  import opened Strings

  /** `re.compile(p)`: a compiled pattern, whose `.pattern` is its source text. */
  datatype Regex = Regex(pattern: string)

  /** `re.search(pattern, text) is not None` for what the model does not interpret. */
  type Engine = (string, string) -> bool

  /** Fixed sentence templates ("不仅…而且…", "如果…就…", …). */
  const FIXED_SENTENCE_PATTERNS: seq<string> := [
    "不仅.{2,20}而且.{2,20}",
    "不但.{2,20}而且.{2,20}",
    "不只.{2,20}还.{2,20}",
    "一方面.{5,30}另一方面.{5,30}",
    "一方面.{5,30}另外.{5,30}",
    "既.{2,15}又.{2,15}",
    "既.{2,15}也.{2,15}",
    "只有.{3,20}才能.{3,20}",
    "只有.{3,20}才.{3,20}",
    "无论.{3,20}都.{3,20}",
    "不管.{3,20}都.{3,20}",
    "如果.{3,25}就.{3,25}",
    "假如.{3,25}就.{3,25}",
    "倘若.{3,25}就.{3,25}",
    "虽然.{3,25}但是.{3,25}",
    "虽然.{3,25}然而.{3,25}",
    "尽管.{3,25}但是.{3,25}",
    "因为.{3,25}所以.{3,25}",
    "由于.{3,25}因此.{3,25}",
    "通过.{3,20}实现.{3,20}",
    "通过.{3,20}达到.{3,20}",
    "借助.{3,20}实现.{3,20}",
    "随着.{3,20}的发展",
    "随着.{3,20}的变化",
    "随着.{3,20}的提高"
  ]

  /** Parallel constructions. */
  const PARALLEL_PATTERNS: seq<string> := [
    "(.{2,8})[，,](.{2,8})[，,](.{2,8})",
    "要.{2,15}[，,]要.{2,15}[，,]要.{2,15}",
    "能.{2,15}[，,]能.{2,15}[，,]能.{2,15}",
    "有.{2,15}[，,]有.{2,15}[，,]有.{2,15}",
    "不仅.{2,15}[，,]还.{2,15}[，,]更.{2,15}"
  ]

  /** Summary–detail framing. */
  const SUMMARY_DETAIL_PATTERNS: seq<string> := [
    "^.{10,30}[。：:]",
    "(总之|综上所述|总而言之|归根结底|综上|因此).{10,50}[。！]$",
    "(首先|其次|再次|然后|接着|最后).{5,}[。]"
  ]

  /** Enumerations ("第一…第二…", "首先…其次…最后…"). */
  const LIST_PATTERNS: seq<string> := [
    "第一.{5,30}第二.{5,30}",
    "第一.{5,30}第二.{5,30}第三.{5,30}",
    "[1１一].{5,30}[2２二].{5,30}",
    "[1１一].{5,30}[2２二].{5,30}[3３三].{5,30}",
    "首先.{5,30}其次.{5,30}",
    "首先.{5,30}其次.{5,30}最后.{5,30}"
  ]

  /** AI-style openings, all anchored at the start of the text. */
  const AI_OPENING_PATTERNS: seq<string> := [
    "^在当今社会",
    "^在现代社会",
    "^随着.{2,10}的发展",
    "^近年来",
    "^众所周知",
    "^毋庸置疑",
    "^显而易见"
  ]

  /** AI-style closings, all anchored at the end of the text. */
  const AI_CLOSING_PATTERNS: seq<string> := [
    "(总之|综上所述|总而言之).{10,}[。！]$",
    "具有重要意义[。！]$",
    "发挥重要作用[。！]$",
    "产生深远影响[。！]$"
  ]

  /** `[re.compile(p) for p in ps]`: one compiled pattern per source, in order. */
  function CompilePatterns(ps: seq<string>): (r: seq<Regex>)
    ensures |r| == |ps|
    ensures forall i | 0 <= i < |ps| :: r[i].pattern == ps[i]
  {
    if ps == [] then [] else [Regex(ps[0])] + CompilePatterns(ps[1..])
  }

  const COMPILED_FIXED_PATTERNS: seq<Regex> := CompilePatterns(FIXED_SENTENCE_PATTERNS)
  const COMPILED_PARALLEL_PATTERNS: seq<Regex> := CompilePatterns(PARALLEL_PATTERNS)
  const COMPILED_SUMMARY_PATTERNS: seq<Regex> := CompilePatterns(SUMMARY_DETAIL_PATTERNS)
  const COMPILED_LIST_PATTERNS: seq<Regex> := CompilePatterns(LIST_PATTERNS)
  const COMPILED_OPENING_PATTERNS: seq<Regex> := CompilePatterns(AI_OPENING_PATTERNS)
  const COMPILED_CLOSING_PATTERNS: seq<Regex> := CompilePatterns(AI_CLOSING_PATTERNS)

  /** The sizes of the six compiled lists. */
  lemma CompiledSizes()
    ensures |COMPILED_FIXED_PATTERNS| == 25
    ensures |COMPILED_PARALLEL_PATTERNS| == 5
    ensures |COMPILED_SUMMARY_PATTERNS| == 3
    ensures |COMPILED_LIST_PATTERNS| == 6
    ensures |COMPILED_OPENING_PATTERNS| == 7
    ensures |COMPILED_CLOSING_PATTERNS| == 4
  {
  }

  /** A metacharacter of Python's `re` syntax. */
  predicate IsMeta(c: char) {
    c in ".^$*+?{}[]\\|()"
  }

  /** The length of the run of ordinary characters at the front of `p`. */
  function LiteralRun(p: string): (n: nat)
    ensures n <= |p|
    ensures forall i | 0 <= i < n :: !IsMeta(p[i])
    ensures n < |p| ==> IsMeta(p[n])
  {
    if p == [] || IsMeta(p[0]) then 0 else 1 + LiteralRun(p[1..])
  }

  /** The pattern can only match at the start of the text: `^` first and no alternation. */
  predicate Anchored(p: string) {
    |p| > 0 && p[0] == '^' && '|' !in p
  }

  /** The literal an anchored pattern requires at the start of the text: the ordinary
      characters after `^`, less the last one when a quantifier applies to it. */
  function AnchoredPrefix(p: string): (w: string)
    requires Anchored(p)
    ensures |w| < |p| && w == p[1..1 + |w|]
    ensures forall i | 0 <= i < |w| :: !IsMeta(w[i])
  {
    var n := LiteralRun(p[1..]);
    if 1 + n < |p| && p[1 + n] in "*?{+" && n > 0 then p[1..n] else p[1..1 + n]
  }

  /** The pattern is its anchored prefix and nothing more. */
  predicate PureAnchoredLiteral(p: string) {
    Anchored(p) && |p| == 1 + |AnchoredPrefix(p)|
  }

  /** `rx.search(text) is not None`: an anchored pattern demands its literal prefix and,
      when it is more than that literal, also whatever the engine decides. */
  function Search(engine: Engine, rx: Regex, text: string): bool {
    if Anchored(rx.pattern) then
      StartsWith(text, AnchoredPrefix(rx.pattern))
      && (PureAnchoredLiteral(rx.pattern) || engine(rx.pattern, text))
    else engine(rx.pattern, text)
  }

  /** Positions, in increasing order, of the patterns of `rxs` found in `text`. */
  function Found(engine: Engine, rxs: seq<Regex>, text: string): seq<nat>
    decreases |rxs|
  {
    if rxs == [] then []
    else
      var n := |rxs| - 1;
      Found(engine, rxs[..n], text) + (if Search(engine, rxs[n], text) then [n] else [])
  }

  /** The entries one category's loop of `check_pattern` appends: `(cat, pattern)` for
      each pattern found, in list order. */
  function Hits(engine: Engine, rxs: seq<Regex>, cat: string, text: string): seq<(string, string)>
    decreases |rxs|
  {
    if rxs == [] then []
    else
      var n := |rxs| - 1;
      Hits(engine, rxs[..n], cat, text) + (if Search(engine, rxs[n], text) then [(cat, rxs[n].pattern)] else [])
  }

  /** Every position `Found` lists holds a pattern that is found, and the positions increase. */
  lemma {:induction false} FoundSound(engine: Engine, rxs: seq<Regex>, text: string)
    ensures forall k | 0 <= k < |Found(engine, rxs, text)| ::
      Found(engine, rxs, text)[k] < |rxs| && Search(engine, rxs[Found(engine, rxs, text)[k]], text)
    ensures forall k, k' | 0 <= k < k' < |Found(engine, rxs, text)| ::
      Found(engine, rxs, text)[k] < Found(engine, rxs, text)[k']
    decreases |rxs|
  {
    if rxs != [] {
      var n := |rxs| - 1;
      FoundSound(engine, rxs[..n], text);
      var front := Found(engine, rxs[..n], text);
      var f := Found(engine, rxs, text);
      assert f == front + (if Search(engine, rxs[n], text) then [n] else []);
      forall k | 0 <= k < |f| ensures f[k] < |rxs| && Search(engine, rxs[f[k]], text) {
        if k < |front| {
          assert f[k] == front[k] && rxs[..n][front[k]] == rxs[front[k]];
        }
      }
      forall k, k' | 0 <= k < k' < |f| ensures f[k] < f[k'] {
        if k' < |front| {
          assert f[k] == front[k] && f[k'] == front[k'];
        } else {
          assert f[k] == front[k] && front[k] < n && f[k'] == n;
        }
      }
    }
  }

  /** Every pattern that is found is listed by `Found`. */
  lemma {:induction false} FoundComplete(engine: Engine, rxs: seq<Regex>, text: string)
    ensures forall i | 0 <= i < |rxs| && Search(engine, rxs[i], text) :: i in Found(engine, rxs, text)
    decreases |rxs|
  {
    if rxs != [] {
      var n := |rxs| - 1;
      FoundComplete(engine, rxs[..n], text);
      var front := Found(engine, rxs[..n], text);
      var f := Found(engine, rxs, text);
      if Search(engine, rxs[n], text) {
        assert f == front + [n];
      } else {
        assert f == front;
      }
      forall i | 0 <= i < n && Search(engine, rxs[i], text) ensures i in f {
        assert rxs[..n][i] == rxs[i];
      }
    }
  }

  /** At most one position per pattern. */
  lemma {:induction false} FoundAtMost(engine: Engine, rxs: seq<Regex>, text: string)
    ensures |Found(engine, rxs, text)| <= |rxs|
    decreases |rxs|
  {
    if rxs != [] {
      FoundAtMost(engine, rxs[..|rxs| - 1], text);
    }
  }

  /** Each pattern contributes at most one entry, tagged with the category and carrying
      the pattern's source, and the entries follow the order of the list. */
  lemma {:induction false} HitsAtFound(engine: Engine, rxs: seq<Regex>, cat: string, text: string)
    ensures |Hits(engine, rxs, cat, text)| == |Found(engine, rxs, text)| <= |rxs|
    ensures forall k | 0 <= k < |Hits(engine, rxs, cat, text)| ::
      Found(engine, rxs, text)[k] < |rxs|
      && Hits(engine, rxs, cat, text)[k] == (cat, rxs[Found(engine, rxs, text)[k]].pattern)
    decreases |rxs|
  {
    FoundAtMost(engine, rxs, text);
    if rxs != [] {
      var n := |rxs| - 1;
      HitsAtFound(engine, rxs[..n], cat, text);
      var front := Found(engine, rxs[..n], text);
      var hfront := Hits(engine, rxs[..n], cat, text);
      var f := Found(engine, rxs, text);
      var h := Hits(engine, rxs, cat, text);
      if Search(engine, rxs[n], text) {
        assert f == front + [n];
        assert h == hfront + [(cat, rxs[n].pattern)];
        forall k | 0 <= k < |h| ensures f[k] < |rxs| && h[k] == (cat, rxs[f[k]].pattern) {
          if k < |hfront| {
            assert h[k] == hfront[k] && f[k] == front[k];
            assert rxs[..n][front[k]] == rxs[front[k]];
          }
        }
      } else {
        assert f == front && h == hfront;
        forall k | 0 <= k < |h| ensures f[k] < |rxs| && h[k] == (cat, rxs[f[k]].pattern) {
          assert rxs[..n][front[k]] == rxs[front[k]];
        }
      }
    }
  }

  /** One pattern list's hits: at most one per pattern, all tagged with the category. */
  lemma HitsTagged(engine: Engine, rxs: seq<Regex>, cat: string, text: string)
    ensures |Hits(engine, rxs, cat, text)| <= |rxs|
    ensures forall k | 0 <= k < |Hits(engine, rxs, cat, text)| :: Hits(engine, rxs, cat, text)[k].0 == cat
  {
    HitsAtFound(engine, rxs, cat, text);
  }

  /** A list with a pattern that is found has a hit. */
  lemma HitsNonEmpty(engine: Engine, rxs: seq<Regex>, cat: string, text: string, i: nat)
    requires i < |rxs| && Search(engine, rxs[i], text)
    ensures Hits(engine, rxs, cat, text) != []
  {
    FoundComplete(engine, rxs, text);
    HitsAtFound(engine, rxs, cat, text);
  }

  /** The compiled pattern library: one ordered list per category. */
  datatype Library = Library(
    fixed: seq<Regex>, parallel: seq<Regex>, summary: seq<Regex>,
    list: seq<Regex>, opening: seq<Regex>, closing: seq<Regex>)

  /** The library compiled when `patterns.py` is imported. */
  const LIBRARY: Library := Library(
    COMPILED_FIXED_PATTERNS, COMPILED_PARALLEL_PATTERNS, COMPILED_SUMMARY_PATTERNS,
    COMPILED_LIST_PATTERNS, COMPILED_OPENING_PATTERNS, COMPILED_CLOSING_PATTERNS)

  /** The library's lists have the sizes of the source lists. */
  lemma LibraryFieldSizes()
    ensures |LIBRARY.fixed| == 25 && |LIBRARY.parallel| == 5 && |LIBRARY.summary| == 3
    ensures |LIBRARY.list| == 6 && |LIBRARY.opening| == 7 && |LIBRARY.closing| == 4
  {
    CompiledSizes();
  }

  /** The six category names, in the order `check_pattern` tries them. */
  const CATEGORIES: seq<string> := ["fixed", "parallel", "summary", "list", "opening", "closing"]

  /** The compiled list behind a category name. */
  function CompiledFor(lib: Library, cat: string): seq<Regex>
    requires cat in CATEGORIES
  {
    if cat == "fixed" then lib.fixed
    else if cat == "parallel" then lib.parallel
    else if cat == "summary" then lib.summary
    else if cat == "list" then lib.list
    else if cat == "opening" then lib.opening
    else lib.closing
  }

  /** What the guarded loop of category `cat` contributes for `pattern_type`. */
  function Section(engine: Engine, lib: Library, text: string, patternType: string, cat: string): seq<(string, string)>
    requires cat in CATEGORIES
  {
    if patternType == "all" || patternType == cat then Hits(engine, CompiledFor(lib, cat), cat, text) else []
  }

  /** `check_pattern(text, pattern_type)` over the library `lib`: the six sections in
      the order of the source. */
  function CheckPatternSpec(engine: Engine, lib: Library, text: string, patternType: string): seq<(string, string)> {
    Section(engine, lib, text, patternType, "fixed")
    + Section(engine, lib, text, patternType, "parallel")
    + Section(engine, lib, text, patternType, "summary")
    + Section(engine, lib, text, patternType, "list")
    + Section(engine, lib, text, patternType, "opening")
    + Section(engine, lib, text, patternType, "closing")
  }

  /** One category's loop of `check_pattern`: for each pattern, in order, append
      `(cat, pattern)` to `matches` when it is found in `text`. */
  method ScanCategory(engine: Engine, rxs: seq<Regex>, cat: string, text: string, matches: seq<(string, string)>)
    returns (out: seq<(string, string)>)
    ensures out == matches + Hits(engine, rxs, cat, text)
  {
    out := matches;
    var i := 0;
    while i < |rxs|
      invariant i <= |rxs|
      invariant out == matches + Hits(engine, rxs[..i], cat, text)
    {
      var pattern := rxs[i];
      assert rxs[..i + 1][..i] == rxs[..i];
      if Search(engine, pattern, text) {
        out := out + [(cat, pattern.pattern)];
      }
      i := i + 1;
    }
    assert rxs[..i] == rxs;
  }

  /** One guarded block of `check_pattern`: when `pattern_type` is `'all'` or `cat`,
      scan the category's compiled list. */
  method ScanSection(engine: Engine, lib: Library, text: string, patternType: string, cat: string, matches: seq<(string, string)>)
    returns (out: seq<(string, string)>)
    requires cat in CATEGORIES
    ensures out == matches + Section(engine, lib, text, patternType, cat)
  {
    out := matches;
    if patternType == "all" || patternType == cat {
      out := ScanCategory(engine, CompiledFor(lib, cat), cat, text, out);
    }
  }

  /** `check_pattern`, as the source writes it: six guarded loops appending to `matches`. */
  method CheckPattern(engine: Engine, lib: Library, text: string, patternType: string) returns (matches: seq<(string, string)>)
    ensures matches == CheckPatternSpec(engine, lib, text, patternType)
  {
    matches := ScanSection(engine, lib, text, patternType, "fixed", []);
    assert matches == Section(engine, lib, text, patternType, "fixed");
    matches := ScanSection(engine, lib, text, patternType, "parallel", matches);
    matches := ScanSection(engine, lib, text, patternType, "summary", matches);
    matches := ScanSection(engine, lib, text, patternType, "list", matches);
    matches := ScanSection(engine, lib, text, patternType, "opening", matches);
    matches := ScanSection(engine, lib, text, patternType, "closing", matches);
  }

  /** The section of the category that is asked for is its hits. */
  lemma SectionSelected(engine: Engine, lib: Library, text: string, cat: string)
    requires cat in CATEGORIES
    ensures Section(engine, lib, text, cat, cat) == Hits(engine, CompiledFor(lib, cat), cat, text)
  {
  }

  /** A section of another category than the one asked for is empty. */
  lemma SectionSkipped(engine: Engine, lib: Library, text: string, patternType: string, cat: string)
    requires cat in CATEGORIES && patternType != "all" && patternType != cat
    ensures Section(engine, lib, text, patternType, cat) == []
  {
  }

  /** A single category returns exactly that category's hits. */
  lemma SingleCategory(engine: Engine, lib: Library, text: string, cat: string)
    requires cat in CATEGORIES
    ensures CheckPatternSpec(engine, lib, text, cat) == Hits(engine, CompiledFor(lib, cat), cat, text)
  {
    var h := Hits(engine, CompiledFor(lib, cat), cat, text);
    SectionSelected(engine, lib, text, cat);
    forall c | c in CATEGORIES && c != cat ensures Section(engine, lib, text, cat, c) == [] {
      SectionSkipped(engine, lib, text, cat, c);
    }
    if cat == "fixed" {
      assert CheckPatternSpec(engine, lib, text, cat) == h + [] + [] + [] + [] + [];
    } else if cat == "parallel" {
      assert CheckPatternSpec(engine, lib, text, cat) == [] + h + [] + [] + [] + [];
    } else if cat == "summary" {
      assert CheckPatternSpec(engine, lib, text, cat) == [] + [] + h + [] + [] + [];
    } else if cat == "list" {
      assert CheckPatternSpec(engine, lib, text, cat) == [] + [] + [] + h + [] + [];
    } else if cat == "opening" {
      assert CheckPatternSpec(engine, lib, text, cat) == [] + [] + [] + [] + h + [];
    } else {
      assert CheckPatternSpec(engine, lib, text, cat) == [] + [] + [] + [] + [] + h;
    }
  }

  /** Every entry of a single-category result is tagged with that category and carries
      the source of a pattern of that category that is found; there are at most as many
      entries as patterns. */
  lemma SingleCategoryTagged(engine: Engine, lib: Library, text: string, cat: string)
    requires cat in CATEGORIES
    ensures |CheckPatternSpec(engine, lib, text, cat)| <= |CompiledFor(lib, cat)|
    ensures forall k | 0 <= k < |CheckPatternSpec(engine, lib, text, cat)| ::
      CheckPatternSpec(engine, lib, text, cat)[k].0 == cat
      && exists i | 0 <= i < |CompiledFor(lib, cat)| ::
           Search(engine, CompiledFor(lib, cat)[i], text)
           && CheckPatternSpec(engine, lib, text, cat)[k].1 == CompiledFor(lib, cat)[i].pattern
  {
    var rxs := CompiledFor(lib, cat);
    SingleCategory(engine, lib, text, cat);
    HitsAtFound(engine, rxs, cat, text);
    FoundSound(engine, rxs, text);
    var r := CheckPatternSpec(engine, lib, text, cat);
    var f := Found(engine, rxs, text);
    forall k | 0 <= k < |r|
      ensures r[k].0 == cat
      ensures exists i | 0 <= i < |rxs| :: Search(engine, rxs[i], text) && r[k].1 == rxs[i].pattern
    {
      var i := f[k];
      assert 0 <= i < |rxs| && Search(engine, rxs[i], text) && r[k].1 == rxs[i].pattern;
    }
  }

  /** Every pattern of the category that is found appears in the single-category result. */
  lemma SingleCategoryComplete(engine: Engine, lib: Library, text: string, cat: string, i: nat)
    requires cat in CATEGORIES
    requires i < |CompiledFor(lib, cat)| && Search(engine, CompiledFor(lib, cat)[i], text)
    ensures (cat, CompiledFor(lib, cat)[i].pattern) in CheckPatternSpec(engine, lib, text, cat)
  {
    var rxs := CompiledFor(lib, cat);
    SingleCategory(engine, lib, text, cat);
    FoundComplete(engine, rxs, text);
    HitsAtFound(engine, rxs, cat, text);
    var f := Found(engine, rxs, text);
    var k :| 0 <= k < |f| && f[k] == i;
    assert Hits(engine, rxs, cat, text)[k] == (cat, rxs[i].pattern);
  }

  /** `'all'` returns the six single-category results one after another, in the order
      fixed, parallel, summary, list, opening, closing. */
  lemma AllIsConcatenation(engine: Engine, lib: Library, text: string)
    ensures CheckPatternSpec(engine, lib, text, "all")
      == CheckPatternSpec(engine, lib, text, "fixed")
       + CheckPatternSpec(engine, lib, text, "parallel")
       + CheckPatternSpec(engine, lib, text, "summary")
       + CheckPatternSpec(engine, lib, text, "list")
       + CheckPatternSpec(engine, lib, text, "opening")
       + CheckPatternSpec(engine, lib, text, "closing")
  {
    SingleCategory(engine, lib, text, "fixed");
    SingleCategory(engine, lib, text, "parallel");
    SingleCategory(engine, lib, text, "summary");
    SingleCategory(engine, lib, text, "list");
    SingleCategory(engine, lib, text, "opening");
    SingleCategory(engine, lib, text, "closing");
  }

  /** A `pattern_type` that is neither `'all'` nor a category name selects nothing. */
  lemma UnknownCategoryEmpty(engine: Engine, lib: Library, text: string, patternType: string)
    requires patternType != "all" && patternType !in CATEGORIES
    ensures CheckPatternSpec(engine, lib, text, patternType) == []
  {
  }

  /** The position of a category in the order `check_pattern` tries them. */
  function Rank(cat: string): (n: nat)
    requires cat in CATEGORIES
    ensures n < |CATEGORIES| && CATEGORIES[n] == cat
  {
    if cat == "fixed" then 0
    else if cat == "parallel" then 1
    else if cat == "summary" then 2
    else if cat == "list" then 3
    else if cat == "opening" then 4
    else 5
  }

  /** A block of entries all tagged `cat`. */
  predicate TaggedWith(s: seq<(string, string)>, cat: string) {
    forall k | 0 <= k < |s| :: s[k].0 == cat
  }

  /** Entries whose tags are categories, in non-decreasing category order. */
  predicate RankOrdered(s: seq<(string, string)>) {
    (forall k | 0 <= k < |s| :: s[k].0 in CATEGORIES)
    && forall k, k' | 0 <= k < k' < |s| && s[k].0 in CATEGORIES && s[k'].0 in CATEGORIES ::
         Rank(s[k].0) <= Rank(s[k'].0)
  }

  /** Appending a block tagged with a category no earlier than any before it keeps the order. */
  lemma RankOrderedAppend(s: seq<(string, string)>, b: seq<(string, string)>, cat: string)
    requires cat in CATEGORIES && RankOrdered(s) && TaggedWith(b, cat)
    requires forall k | 0 <= k < |s| :: Rank(s[k].0) <= Rank(cat)
    ensures RankOrdered(s + b)
    ensures forall k | 0 <= k < |s + b| :: Rank((s + b)[k].0) <= Rank(cat)
  {
    var t := s + b;
    forall k | 0 <= k < |t| ensures t[k].0 in CATEGORIES && Rank(t[k].0) <= Rank(cat) {
      if k >= |s| { assert t[k] == b[k - |s|]; }
    }
    forall k, k' | 0 <= k < k' < |t| ensures Rank(t[k].0) <= Rank(t[k'].0) {
      if k' < |s| {
        assert t[k] == s[k] && t[k'] == s[k'];
      } else if k < |s| {
        assert t[k'] == b[k' - |s|];
      } else {
        assert t[k] == b[k - |s|] && t[k'] == b[k' - |s|];
      }
    }
  }

  /** Every entry a section contributes is tagged with its category. */
  lemma SectionTagged(engine: Engine, lib: Library, text: string, patternType: string, cat: string)
    requires cat in CATEGORIES
    ensures TaggedWith(Section(engine, lib, text, patternType, cat), cat)
  {
    HitsAtFound(engine, CompiledFor(lib, cat), cat, text);
  }

  /** The result of `'all'` lists fixed entries first, then parallel, summary, list,
      opening and closing ones. */
  lemma AllRankOrdered(engine: Engine, lib: Library, text: string)
    ensures RankOrdered(CheckPatternSpec(engine, lib, text, "all"))
  {
    var s0: seq<(string, string)> := [];
    var s1 := Section(engine, lib, text, "all", "fixed");
    var s2 := Section(engine, lib, text, "all", "parallel");
    var s3 := Section(engine, lib, text, "all", "summary");
    var s4 := Section(engine, lib, text, "all", "list");
    var s5 := Section(engine, lib, text, "all", "opening");
    var s6 := Section(engine, lib, text, "all", "closing");
    SectionTagged(engine, lib, text, "all", "fixed");
    SectionTagged(engine, lib, text, "all", "parallel");
    SectionTagged(engine, lib, text, "all", "summary");
    SectionTagged(engine, lib, text, "all", "list");
    SectionTagged(engine, lib, text, "all", "opening");
    SectionTagged(engine, lib, text, "all", "closing");
    RankOrderedAppend(s0, s1, "fixed");
    assert s0 + s1 == s1;
    RankOrderedAppend(s1, s2, "parallel");
    RankOrderedAppend(s1 + s2, s3, "summary");
    RankOrderedAppend(s1 + s2 + s3, s4, "list");
    RankOrderedAppend(s1 + s2 + s3 + s4, s5, "opening");
    RankOrderedAppend(s1 + s2 + s3 + s4 + s5, s6, "closing");
  }

  /** The size of each category's list in `patterns.py`. */
  function ListSize(cat: string): nat
    requires cat in CATEGORIES
  {
    if cat == "fixed" then 25
    else if cat == "parallel" then 5
    else if cat == "summary" then 3
    else if cat == "list" then 6
    else if cat == "opening" then 7
    else 4
  }

  /** The library's lists have the sizes of the source lists. */
  lemma LibrarySizes(cat: string)
    requires cat in CATEGORIES
    ensures |CompiledFor(LIBRARY, cat)| == ListSize(cat)
  {
    CompiledSizes();
    if cat == "fixed" {
      assert CompiledFor(LIBRARY, cat) == COMPILED_FIXED_PATTERNS;
    } else if cat == "parallel" {
      assert CompiledFor(LIBRARY, cat) == COMPILED_PARALLEL_PATTERNS;
    } else if cat == "summary" {
      assert CompiledFor(LIBRARY, cat) == COMPILED_SUMMARY_PATTERNS;
    } else if cat == "list" {
      assert CompiledFor(LIBRARY, cat) == COMPILED_LIST_PATTERNS;
    } else if cat == "opening" {
      assert CompiledFor(LIBRARY, cat) == COMPILED_OPENING_PATTERNS;
    } else {
      assert CompiledFor(LIBRARY, cat) == COMPILED_CLOSING_PATTERNS;
    }
  }

  /** With the library of `patterns.py`, a single-category result is at most as long as
      its list: fixed 25, parallel 5, summary 3, list 6, opening 7, closing 4. */
  lemma LibraryBound(engine: Engine, text: string, cat: string)
    requires cat in CATEGORIES
    ensures |CheckPatternSpec(engine, LIBRARY, text, cat)| <= ListSize(cat)
  {
    LibrarySizes(cat);
    SingleCategoryTagged(engine, LIBRARY, text, cat);
  }

  /** With the library of `patterns.py`, `'all'` returns at most 50 entries. */
  lemma LibraryBoundAll(engine: Engine, text: string)
    ensures |CheckPatternSpec(engine, LIBRARY, text, "all")| <= 50
  {
    AllBound(engine, LIBRARY, text);
    LibraryFieldSizes();
  }

  /** The compiled list behind each category name is the library's field of that name. */
  lemma CompiledForFields(lib: Library)
    ensures CompiledFor(lib, "fixed") == lib.fixed
    ensures CompiledFor(lib, "parallel") == lib.parallel
    ensures CompiledFor(lib, "summary") == lib.summary
    ensures CompiledFor(lib, "list") == lib.list
    ensures CompiledFor(lib, "opening") == lib.opening
    ensures CompiledFor(lib, "closing") == lib.closing
  {
  }

  /** `'all'` returns at most one entry per pattern of the library. */
  lemma AllBound(engine: Engine, lib: Library, text: string)
    ensures |CheckPatternSpec(engine, lib, text, "all")|
      <= |lib.fixed| + |lib.parallel| + |lib.summary| + |lib.list| + |lib.opening| + |lib.closing|
  {
    CompiledForFields(lib);
    HitsTagged(engine, lib.fixed, "fixed", text);
    HitsTagged(engine, lib.parallel, "parallel", text);
    HitsTagged(engine, lib.summary, "summary", text);
    HitsTagged(engine, lib.list, "list", text);
    HitsTagged(engine, lib.opening, "opening", text);
    HitsTagged(engine, lib.closing, "closing", text);
  }

  /** No character of `w` is a metacharacter. */
  predicate Plain(w: string) {
    forall i | 0 <= i < |w| :: !IsMeta(w[i])
  }

  /** Ordinary characters in front of a pattern add to its literal run one for one. */
  lemma {:induction false} LiteralRunAppend(w: string, rest: string)
    requires Plain(w)
    ensures LiteralRun(w + rest) == |w| + LiteralRun(rest)
    decreases |w|
  {
    if w == [] {
      assert w + rest == rest;
    } else {
      assert (w + rest)[0] == w[0];
      assert (w + rest)[1..] == w[1..] + rest;
      LiteralRunAppend(w[1..], rest);
    }
  }

  /** `^w` with `w` plain is found exactly in the texts that start with `w`. */
  lemma PlainAnchoredSearch(engine: Engine, w: string, text: string)
    requires Plain(w)
    ensures Search(engine, Regex("^" + w), text) <==> StartsWith(text, w)
  {
    var p := "^" + w;
    assert p[1..] == w;
    assert w + [] == w;
    LiteralRunAppend(w, []);
    forall i | 0 <= i < |p| ensures p[i] != '|' {
      if i > 0 { assert p[i] == w[i - 1]; }
    }
  }

  /** `^w` followed by a metacharacter that is not a quantifier, with no alternation
      anywhere, is found only in texts that start with `w`. */
  lemma AnchoredSearchPrefix(engine: Engine, w: string, rest: string, text: string)
    requires Plain(w) && |w| > 0
    requires |rest| > 0 && IsMeta(rest[0]) && rest[0] !in "*?{+" && '|' !in rest
    ensures Search(engine, Regex("^" + w + rest), text) ==> StartsWith(text, w)
  {
    var p := "^" + w + rest;
    assert p[1..] == w + rest;
    LiteralRunAppend(w, rest);
    assert p[1 + |w|] == rest[0];
    assert p[1..1 + |w|] == w;
    forall i | 0 <= i < |p| ensures p[i] != '|' {
      if 0 < i <= |w| { assert p[i] == w[i - 1]; }
      else if i > |w| { assert p[i] == rest[i - 1 - |w|]; }
    }
  }

  /** The literal each opening pattern demands at the start of the text. */
  const OPENING_LITERALS: seq<string> := ["在当今社会", "在现代社会", "随着", "近年来", "众所周知", "毋庸置疑", "显而易见"]

  /** What follows the literal in `^随着.{2,10}的发展`. */
  const DEVELOPMENT_TAIL: string := ".{2,10}的发展"

  /** The library's opening list is the compiled `AI_OPENING_PATTERNS`. */
  lemma OpeningCompiled(i: nat)
    requires i < 7
    ensures LIBRARY.opening[i] == Regex(AI_OPENING_PATTERNS[i])
  {
  }

  /** Each opening pattern is `^` and its literal, with `.{2,10}的发展` after the third. */
  lemma OpeningShapes()
    ensures forall i | 0 <= i < 7 && i != 2 ::
      AI_OPENING_PATTERNS[i] == "^" + OPENING_LITERALS[i] && Plain(OPENING_LITERALS[i])
    ensures AI_OPENING_PATTERNS[2] == "^" + OPENING_LITERALS[2] + DEVELOPMENT_TAIL
    ensures Plain(OPENING_LITERALS[2]) && |OPENING_LITERALS[2]| > 0
    ensures |DEVELOPMENT_TAIL| > 0 && IsMeta(DEVELOPMENT_TAIL[0])
    ensures DEVELOPMENT_TAIL[0] !in "*?{+" && '|' !in DEVELOPMENT_TAIL
  {
  }

  /** An opening pattern other than the third (`^在当今社会`, `^近年来`, …) is found
      exactly when the text starts with its literal. */
  lemma OpeningLiteralSearch(engine: Engine, text: string, i: nat)
    requires i < 7 && i != 2
    ensures Search(engine, LIBRARY.opening[i], text) <==> StartsWith(text, OPENING_LITERALS[i])
  {
    OpeningCompiled(i);
    OpeningShapes();
    PlainAnchoredSearch(engine, OPENING_LITERALS[i], text);
  }

  /** `^随着.{2,10}的发展` is found only in texts that start with 随着. */
  lemma DevelopmentOpeningPrefix(engine: Engine, text: string)
    ensures Search(engine, LIBRARY.opening[2], text) ==> StartsWith(text, OPENING_LITERALS[2])
  {
    OpeningCompiled(2);
    OpeningShapes();
    AnchoredSearchPrefix(engine, OPENING_LITERALS[2], DEVELOPMENT_TAIL, text);
  }
}
