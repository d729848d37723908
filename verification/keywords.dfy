/** The orchestrator's four keyword patterns, `\b(w1|w2|...)\b` applied to
    the query. JavaScript's `\b` is ASCII-only: it is a change between a
    word character [A-Za-z0-9_] and anything else, so a Cyrillic keyword
    standing between spaces has no boundary on either side. `SourceMatchers` is the patterns as written;
    `IntendedMatchers` counts Cyrillic letters as word characters. */
module Keywords {
  import opened Orchestrate

  const CodingWords: seq<string> := ["code", "код", "function", "debug", "грешка"]
  const MathWords: seq<string> := ["math", "математика", "solve", "реши", "calculate"]
  const AnalysisWords: seq<string> := ["why", "защо", "explain", "обясни", "analyze"]
  const CreationWords: seq<string> := ["write", "напиши", "create", "създай"]

  /** JavaScript's `\w`. */
  predicate IsAsciiWord(c: char) {
    'a' <= c <= 'z' || 'A' <= c <= 'Z' || '0' <= c <= '9' || c == '_'
  }

  /** A word character once the Cyrillic block U+0400-U+04FF counts too. */
  predicate IsLetter(c: char) {
    IsAsciiWord(c) || 'Ѐ' <= c <= 'ӿ'
  }

  /** `\b` at position p of q, for the given notion of word character;
      positions outside q count as non-word. */
  predicate AsciiBoundary(q: string, p: int) {
    (0 <= p - 1 < |q| && IsAsciiWord(q[p - 1])) != (0 <= p < |q| && IsAsciiWord(q[p]))
  }

  predicate LetterBoundary(q: string, p: int) {
    (0 <= p - 1 < |q| && IsLetter(q[p - 1])) != (0 <= p < |q| && IsLetter(q[p]))
  }

  /** `\bkw\b` matches q at position i. */
  predicate AsciiWordAt(q: string, kw: string, i: int) {
    0 <= i <= |q| - |kw| && q[i..i + |kw|] == kw && AsciiBoundary(q, i) && AsciiBoundary(q, i + |kw|)
  }

  predicate LetterWordAt(q: string, kw: string, i: int) {
    0 <= i <= |q| - |kw| && q[i..i + |kw|] == kw && LetterBoundary(q, i) && LetterBoundary(q, i + |kw|)
  }

  /** `/\b(kws[0]|kws[1]|...)\b/.test(q)`, as written and as intended. */
  predicate AsciiPattern(q: string, kws: seq<string>) {
    exists j, i :: 0 <= j < |kws| && 0 <= i <= |q| && AsciiWordAt(q, kws[j], i)
  }

  predicate LetterPattern(q: string, kws: seq<string>) {
    exists j, i :: 0 <= j < |kws| && 0 <= i <= |q| && LetterWordAt(q, kws[j], i)
  }

  /** Each rule's test is its own keyword list between ASCII-only word
      boundaries. */
  ghost predicate AsciiTests(m: Matchers) {
    forall q ::
      && m.coding(q) == AsciiPattern(q, CodingWords)
      && m.math(q) == AsciiPattern(q, MathWords)
      && m.analysis(q) == AsciiPattern(q, AnalysisWords)
      && m.creation(q) == AsciiPattern(q, CreationWords)
  }

  /** Each rule's test is its own keyword list between word boundaries
      that count Cyrillic letters as word characters. */
  ghost predicate LetterTests(m: Matchers) {
    forall q ::
      && m.coding(q) == LetterPattern(q, CodingWords)
      && m.math(q) == LetterPattern(q, MathWords)
      && m.analysis(q) == LetterPattern(q, AnalysisWords)
      && m.creation(q) == LetterPattern(q, CreationWords)
  }

  /** The patterns as written. */
  function SourceMatchers(): (m: Matchers)
    ensures AsciiTests(m)
  {
    Matchers(
      q => AsciiPattern(q, CodingWords),
      q => AsciiPattern(q, MathWords),
      q => AsciiPattern(q, AnalysisWords),
      q => AsciiPattern(q, CreationWords))
  }

  /** The patterns as intended. */
  function IntendedMatchers(): (m: Matchers)
    ensures LetterTests(m)
  {
    Matchers(
      q => LetterPattern(q, CodingWords),
      q => LetterPattern(q, MathWords),
      q => LetterPattern(q, AnalysisWords),
      q => LetterPattern(q, CreationWords))
  }

  /** q holds no ASCII letter, digit or underscore. */
  predicate AsciiFree(q: string) {
    forall k :: 0 <= k < |q| ==> !IsAsciiWord(q[k])
  }

  /** As written: a query without ASCII letters, digits or underscores has
      no `\b` anywhere, so no keyword pattern can match it. */
  lemma NoAsciiNoMatch(q: string, kws: seq<string>)
    requires AsciiFree(q)
    ensures !AsciiPattern(q, kws)
  {
    forall j, i | 0 <= j < |kws| && 0 <= i <= |q| - |kws[j]|
      ensures !AsciiWordAt(q, kws[j], i)
    {
      assert !AsciiBoundary(q, i);
    }
  }

  lemma NoKeywordWithoutAscii(q: string)
    requires AsciiFree(q)
    ensures !AnyKeyword(q, SourceMatchers())
  {
    NoAsciiNoMatch(q, CodingWords);
    NoAsciiNoMatch(q, MathWords);
    NoAsciiNoMatch(q, AnalysisWords);
    NoAsciiNoMatch(q, CreationWords);
  }

  /** As written: an all-Cyrillic query is classified by its length alone,
      whatever keywords it contains. */
  lemma CyrillicQueryUnclassified(q: string)
    requires AsciiFree(q)
    ensures DetectType(q, SourceMatchers()) == if JsLength(q) < 50 then [Quick] else [General]
  {
    var kw := SourceMatchers();
    NoKeywordWithoutAscii(q);
    if JsLength(q) < 50 {
      ShortUnmatchedIsQuick(q, kw);
    } else {
      LongUnmatchedIsGeneral(q, kw);
    }
  }

  /** As written: "напиши код" ("write code") is tagged neither coding nor
      creative. */
  lemma CodeRequestMissed()
    ensures DetectType("напиши код", SourceMatchers()) == [Quick]
  {
    var q := "напиши код";
    assert AsciiFree(q);
    CyrillicQueryUnclassified(q);
  }

  /** Every keyword begins and ends with a letter. */
  lemma KeywordsAreWords(kws: seq<string>, j: int)
    requires kws in [CodingWords, MathWords, AnalysisWords, CreationWords]
    requires 0 <= j < |kws|
    ensures kws[j] != [] && IsLetter(kws[j][0]) && IsLetter(kws[j][|kws[j]| - 1])
  {
  }

  /** As intended: a keyword that stands as a word of its own (nothing or a
      non-letter on each side) is found. */
  lemma {:induction false} StandaloneKeywordFound(pre: string, kws: seq<string>, j: int, post: string)
    requires kws in [CodingWords, MathWords, AnalysisWords, CreationWords]
    requires 0 <= j < |kws|
    requires pre == [] || !IsLetter(pre[|pre| - 1])
    requires post == [] || !IsLetter(post[0])
    ensures LetterPattern(pre + kws[j] + post, kws)
  {
    KeywordsAreWords(kws, j);
    var kw, q := kws[j], pre + kws[j] + post;
    assert q[|pre|..|pre| + |kw|] == kw;
    assert q[|pre|] == kw[0];
    assert q[|pre| + |kw| - 1] == kw[|kw| - 1];
    assert |pre| > 0 ==> q[|pre| - 1] == pre[|pre| - 1];
    assert |post| > 0 ==> q[|pre| + |kw|] == post[0];
    assert LetterWordAt(q, kw, |pre|);
  }

  /** As intended: "напиши код" is a coding request and a creative one. */
  lemma CodeRequestRecognised()
    ensures Coding in DetectType("напиши код", IntendedMatchers())
    ensures Creative in DetectType("напиши код", IntendedMatchers())
  {
    StandaloneKeywordFound("напиши ", CodingWords, 1, "");
    assert "напиши " + CodingWords[1] + "" == "напиши код";
    StandaloneKeywordFound("", CreationWords, 1, " код");
    assert "" + CreationWords[1] + " код" == "напиши код";
  }
}
