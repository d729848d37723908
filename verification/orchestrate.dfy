/** The orchestrating chat route: classify the last message into query
    tags, score every model the runtime reports against a static profile
    table, pick the two best, then answer with one call or, in ensemble
    mode, with one call per selected model and a synthesis call. */
module Orchestrate {
  import opened Common

  // ---------------------------------------------------------------------
  // Model profiles
  // ---------------------------------------------------------------------

  datatype Speed = Fast | Medium

  datatype Profile = Profile(name: string, strengths: seq<string>, speed: Speed, quality: nat, bestFor: seq<string>)

  const ProfiledIds: set<string> :=
    {"deepseek-r1:14b", "qwen3:14b-q4_K_M", "qwen2.5-coder:7b",
     "deepseek-coder:6.7b-instruct-q4_0", "qwen:latest", "phi3:mini"}

  /** The `MODEL_PROFILES` table, looked up by runtime model id. */
  function ProfileOf(id: string): (p: Option<Profile>)
    ensures p.Some? <==> id in ProfiledIds
    ensures p.Some? ==> p.value.quality >= 5
  {
    if id == "deepseek-r1:14b" then
      Some(Profile("DeepSeek R1 14B", ["reasoning", "math", "logic"], Medium, 9, ["разсъждения", "математика"]))
    else if id == "qwen3:14b-q4_K_M" then
      Some(Profile("Qwen 3 14B", ["general", "coding", "creative"], Medium, 9, ["общи задачи", "код"]))
    else if id == "qwen2.5-coder:7b" then
      Some(Profile("Qwen 2.5 Coder", ["coding", "debugging"], Fast, 8, ["програмиране"]))
    else if id == "deepseek-coder:6.7b-instruct-q4_0" then
      Some(Profile("DeepSeek Coder", ["coding", "architecture"], Fast, 8, ["архитектура"]))
    else if id == "qwen:latest" then
      Some(Profile("Qwen 4B", ["general", "chat"], Fast, 6, ["бързи отговори"]))
    else if id == "phi3:mini" then
      Some(Profile("Phi-3 Mini", ["speed", "simple"], Fast, 5, ["прости задачи"]))
    else
      None
  }

  // ---------------------------------------------------------------------
  // Query classification (detectType)
  // ---------------------------------------------------------------------

  datatype Tag = Coding | Math | Reasoning | Creative | Quick | General

  function TagName(t: Tag): string {
    match t
    case Coding => "coding"
    case Math => "math"
    case Reasoning => "reasoning"
    case Creative => "creative"
    case Quick => "quick"
    case General => "general"
  }

  /** The four keyword regular expressions of the classifier, each taken as
      an opaque test on the query text: code words, maths words, "why /
      explain" words and "write / create" words. */
  datatype Matchers = Matchers(
    coding: string -> bool,
    math: string -> bool,
    analysis: string -> bool,
    creation: string -> bool)

  /** s has no character outside the Basic Multilingual Plane. */
  predicate InBmp(s: string) {
    forall i :: 0 <= i < |s| ==> s[i] as int <= 0xFFFF
  }

  /** `q.length`: JavaScript counts UTF-16 code units, so a character
      outside the Basic Multilingual Plane counts twice. */
  function JsLength(s: string): (n: nat)
    ensures |s| <= n <= 2 * |s|
    ensures n == |s| <==> InBmp(s)
  {
    if s == [] then 0
    else JsLength(s[..|s| - 1]) + (if s[|s| - 1] as int > 0xFFFF then 2 else 1)
  }

  /** `if (hit) types.push(...tags)`. */
  function PushIf(hit: bool, tags: seq<Tag>): (r: seq<Tag>)
    ensures forall t :: t in r <==> hit && t in tags
  {
    if hit then tags else []
  }

  /** The tags pushed by the keyword rules and the length rule, in rule order. */
  function RuleTags(q: string, kw: Matchers): seq<Tag> {
    PushIf(kw.coding(q), [Coding])
    + PushIf(kw.math(q), [Math, Reasoning])
    + PushIf(kw.analysis(q), [Reasoning])
    + PushIf(kw.creation(q), [Creative])
    + PushIf(JsLength(q) < 50, [Quick])
  }

  predicate AnyKeyword(q: string, kw: Matchers) {
    kw.coding(q) || kw.math(q) || kw.analysis(q) || kw.creation(q)
  }

  /** Which tags the rules push, tag by tag. */
  lemma RuleTagsMembers(q: string, kw: Matchers)
    ensures var raw := RuleTags(q, kw);
      && (Coding in raw <==> kw.coding(q))
      && (Math in raw <==> kw.math(q))
      && (Reasoning in raw <==> kw.math(q) || kw.analysis(q))
      && (Creative in raw <==> kw.creation(q))
      && (Quick in raw <==> JsLength(q) < 50)
      && General !in raw
      && (raw == [] <==> !AnyKeyword(q, kw) && JsLength(q) >= 50)
  {
    var a := PushIf(kw.coding(q), [Coding]);
    var b := PushIf(kw.math(q), [Math, Reasoning]);
    var c := PushIf(kw.analysis(q), [Reasoning]);
    var d := PushIf(kw.creation(q), [Creative]);
    var e := PushIf(JsLength(q) < 50, [Quick]);
    var raw := RuleTags(q, kw);
    assert raw == a + b + c + d + e;
    assert forall t :: t in raw <==> t in a || t in b || t in c || t in d || t in e;
    assert raw == [] <==> a == [] && b == [] && c == [] && d == [] && e == [];
  }

  /** `detectType`: the rule tags, `general` when no rule pushed anything
      (the length rule included), then duplicates removed keeping the
      first occurrence. */
  function DetectType(q: string, kw: Matchers): (r: seq<Tag>)
    ensures r != []
    ensures NoDup(r)
    ensures Coding in r <==> kw.coding(q)
    ensures Math in r <==> kw.math(q)
    ensures Reasoning in r <==> kw.math(q) || kw.analysis(q)
    ensures Creative in r <==> kw.creation(q)
    ensures Quick in r <==> JsLength(q) < 50
    ensures General in r <==> !AnyKeyword(q, kw) && JsLength(q) >= 50
  {
    var raw := RuleTags(q, kw);
    RuleTagsMembers(q, kw);
    var tags := if raw == [] then [General] else raw;
    assert tags[0] in tags;
    Dedup(tags)
  }

  lemma NoDupAppend<T>(x: seq<T>, y: seq<T>)
    requires NoDup(x) && NoDup(y)
    requires forall t :: t in x ==> t !in y
    ensures NoDup(x + y)
  {
    forall i, j | 0 <= i < j < |x + y|
      ensures (x + y)[i] != (x + y)[j]
    {
      if i < |x| && j >= |x| {
        assert (x + y)[i] in x && (x + y)[j] in y;
      }
    }
  }

  /** Dropping a repeated occurrence before deduplicating changes nothing. */
  lemma {:induction false} DedupDropRepeat<T(!new)>(p: seq<T>, x: T, t: seq<T>)
    requires x in p
    ensures Dedup(p + [x] + t) == Dedup(p + t)
  {
    if t == [] {
      assert p + [x] + t == p + [x];
      assert p + t == p;
      DedupSnoc(p, x);
    } else {
      var t', y := t[..|t| - 1], t[|t| - 1];
      assert t == t' + [y];
      DedupDropRepeat(p, x, t');
      assert p + [x] + t == (p + [x] + t') + [y];
      assert p + t == (p + t') + [y];
      DedupSnoc(p + [x] + t', y);
      DedupSnoc(p + t', y);
      assert y in p + [x] + t' <==> y in p + t';
    }
  }

  /** The classifier's output written out directly: the keyword tags in
      rule order with `reasoning` once, then `quick`; `general` alone when
      none of these applies. */
  function ExpectedTags(q: string, kw: Matchers): seq<Tag> {
    var body :=
      PushIf(kw.coding(q), [Coding])
      + PushIf(kw.math(q), [Math, Reasoning])
      + PushIf(kw.analysis(q) && !kw.math(q), [Reasoning])
      + PushIf(kw.creation(q), [Creative])
      + PushIf(JsLength(q) < 50, [Quick]);
    if body == [] then [General] else body
  }

  lemma ExpectedTagsNoDup(q: string, kw: Matchers)
    ensures NoDup(ExpectedTags(q, kw))
  {
    var a := PushIf(kw.coding(q), [Coding]);
    var b := PushIf(kw.math(q), [Math, Reasoning]);
    var c := PushIf(kw.analysis(q) && !kw.math(q), [Reasoning]);
    var d := PushIf(kw.creation(q), [Creative]);
    var e := PushIf(JsLength(q) < 50, [Quick]);
    NoDupAppend(a, b);
    NoDupAppend(a + b, c);
    NoDupAppend(a + b + c, d);
    NoDupAppend(a + b + c + d, e);
  }

  /** When both the maths rule and the "why / explain" rule fire, the second
      `reasoning` is the only repetition, and deduplication drops it. */
  lemma DetectTypeRepeatedReasoning(q: string, kw: Matchers)
    requires kw.math(q) && kw.analysis(q)
    ensures DetectType(q, kw) == ExpectedTags(q, kw)
  {
    var p := PushIf(kw.coding(q), [Coding]) + [Math, Reasoning];
    var t := PushIf(kw.creation(q), [Creative]) + PushIf(JsLength(q) < 50, [Quick]);
    assert RuleTags(q, kw) == p + [Reasoning] + t;
    assert ExpectedTags(q, kw) == p + t;
    DedupDropRepeat(p, Reasoning, t);
    ExpectedTagsNoDup(q, kw);
    DedupNoDup(p + t);
  }

  /** The exact classifier output, for every query. */
  lemma DetectTypeExact(q: string, kw: Matchers)
    ensures DetectType(q, kw) == ExpectedTags(q, kw)
  {
    if kw.math(q) && kw.analysis(q) {
      DetectTypeRepeatedReasoning(q, kw);
    } else {
      var raw := RuleTags(q, kw);
      assert (if raw == [] then [General] else raw) == ExpectedTags(q, kw);
      ExpectedTagsNoDup(q, kw);
      DedupNoDup(ExpectedTags(q, kw));
    }
  }

  /** A short query that hits no keyword is classified exactly `[quick]`. */
  lemma ShortUnmatchedIsQuick(q: string, kw: Matchers)
    requires !AnyKeyword(q, kw) && JsLength(q) < 50
    ensures DetectType(q, kw) == [Quick]
  {
    DetectTypeExact(q, kw);
  }

  /** A query of 50 or more units that hits no keyword is classified
      exactly `[general]`. */
  lemma LongUnmatchedIsGeneral(q: string, kw: Matchers)
    requires !AnyKeyword(q, kw) && JsLength(q) >= 50
    ensures DetectType(q, kw) == [General]
  {
    DetectTypeExact(q, kw);
  }

  // ---------------------------------------------------------------------
  // Scoring (selectModels, first half)
  // ---------------------------------------------------------------------

  /** `types.reduce((s, t) => s + (p.strengths.includes(t) ? 3 : 0), 0)`,
      doubled. */
  function MatchPoints(types: seq<Tag>, strengths: seq<string>): (n: int)
    ensures 0 <= n <= 6 * |types|
  {
    if types == [] then 0
    else
      MatchPoints(types[..|types| - 1], strengths)
      + (if TagName(types[|types| - 1]) in strengths then 6 else 0)
  }

  /** The query tags that are among a model's strengths. */
  function MatchedTags(types: seq<Tag>, strengths: seq<string>): set<Tag> {
    set t | t in types && TagName(t) in strengths
  }

  /** Twice the source's score, so that `quality / 2` stays integral: a
      profiled model gets 6 per matched tag plus its quality plus 4 when
      the query is quick and the model fast; an unknown id gets 0. */
  function Score(id: string, types: seq<Tag>): (s: int)
    ensures ProfileOf(id).None? ==> s == 0
    ensures ProfileOf(id).Some? ==> s >= 5
  {
    match ProfileOf(id)
    case None => 0
    case Some(p) =>
      MatchPoints(types, p.strengths) + p.quality
      + (if Quick in types && p.speed == Fast then 4 else 0)
  }

  /** On a duplicate-free tag list the reduce counts each matched tag once:
      6 points (3 before doubling) per query tag in the model's strengths. */
  lemma {:induction false} MatchPointsCount(types: seq<Tag>, strengths: seq<string>)
    requires NoDup(types)
    ensures MatchPoints(types, strengths) == 6 * |MatchedTags(types, strengths)|
  {
    if types == [] {
      assert MatchedTags(types, strengths) == {};
    } else {
      var p, t := types[..|types| - 1], types[|types| - 1];
      assert NoDup(p);
      MatchPointsCount(p, strengths);
      assert t !in p;
      assert types == p + [t];
      if TagName(t) in strengths {
        assert MatchedTags(types, strengths) == MatchedTags(p, strengths) + {t};
      } else {
        assert MatchedTags(types, strengths) == MatchedTags(p, strengths);
      }
    }
  }

  /** The score of a profiled model for a classifier output, stated with
      the number of matched tags. */
  lemma ScoreOfProfiled(id: string, q: string, kw: Matchers)
    requires ProfileOf(id).Some?
    ensures
      var p := ProfileOf(id).value;
      var types := DetectType(q, kw);
      Score(id, types) == 6 * |MatchedTags(types, p.strengths)| + p.quality
        + (if JsLength(q) < 50 && p.speed == Fast then 4 else 0)
  {
    MatchPointsCount(DetectType(q, kw), ProfileOf(id).value.strengths);
  }

  // ---------------------------------------------------------------------
  // Ranking: the stable descending sort by score
  // ---------------------------------------------------------------------

  /** One `{ m, score }` record, with its position in the `available` list. */
  datatype Scored = Scored(idx: nat, id: string, score: int)

  /** `models.map(m => ({ m, score }))`. */
  function ScoreAll(types: seq<Tag>, models: seq<string>): (r: seq<Scored>)
    ensures |r| == |models|
    ensures forall i :: 0 <= i < |r| ==> r[i] == Scored(i, models[i], Score(models[i], types))
  {
    seq(|models|, i requires 0 <= i < |models| => Scored(i, models[i], Score(models[i], types)))
  }

  /** The order a stable descending sort produces: higher score first, and
      on equal scores the earlier input position first. */
  predicate Before(a: Scored, b: Scored) {
    a.score > b.score || (a.score == b.score && a.idx < b.idx)
  }

  predicate Ranked(s: seq<Scored>) {
    forall i, j :: 0 <= i < j < |s| ==> Before(s[i], s[j])
  }

  predicate IdxAscending(s: seq<Scored>) {
    forall i, j :: 0 <= i < j < |s| ==> s[i].idx < s[j].idx
  }

  /** Insert x into a list sorted by descending score, in front of the first
      element whose score is not greater (comparator `b.score - a.score`). */
  function InsertByScore(x: Scored, t: seq<Scored>): (r: seq<Scored>)
    ensures multiset(r) == multiset(t) + multiset{x}
    ensures |r| == |t| + 1
  {
    if t == [] || t[0].score <= x.score then [x] + t
    else
      assert t == [t[0]] + t[1..];
      [t[0]] + InsertByScore(x, t[1..])
  }

  /** Insertion sort by descending score, inserting from the back so that
      each inserted element precedes every equal-scored later one. */
  function SortByScore(s: seq<Scored>): (r: seq<Scored>)
    ensures multiset(r) == multiset(s)
    ensures |r| == |s|
  {
    if s == [] then []
    else
      assert s == [s[0]] + s[1..];
      InsertByScore(s[0], SortByScore(s[1..]))
  }

  lemma {:induction false} InsertRanked(x: Scored, t: seq<Scored>)
    requires Ranked(t)
    requires forall e :: e in t ==> x.idx < e.idx
    ensures Ranked(InsertByScore(x, t))
  {
    if t == [] || t[0].score <= x.score {
    } else {
      var tl := t[1..];
      assert Ranked(tl);
      assert forall e :: e in tl ==> e in t;
      InsertRanked(x, tl);
      var u := InsertByScore(x, tl);
      assert InsertByScore(x, t) == [t[0]] + u;
      forall k | 0 <= k < |u|
        ensures Before(t[0], u[k])
      {
        assert u[k] in multiset(u);
        if u[k] != x {
          assert u[k] in multiset(tl);
          var j :| 0 <= j < |tl| && tl[j] == u[k];
          assert t[j + 1] == u[k];
        }
      }
    }
  }

  lemma {:induction false} SortRanked(s: seq<Scored>)
    requires IdxAscending(s)
    ensures Ranked(SortByScore(s))
  {
    if s != [] {
      var tl := s[1..];
      assert IdxAscending(tl);
      SortRanked(tl);
      var t := SortByScore(tl);
      forall e | e in t
        ensures s[0].idx < e.idx
      {
        assert e in multiset(tl);
        var j :| 0 <= j < |tl| && tl[j] == e;
        assert s[j + 1] == e;
      }
      InsertRanked(s[0], t);
    }
  }

  /** The ranking the source computes: every available id with its score,
      stably sorted by descending score. */
  function Rank(types: seq<Tag>, models: seq<string>): (r: seq<Scored>)
    ensures |r| == |models|
    ensures multiset(r) == multiset(ScoreAll(types, models))
    ensures Ranked(r)
  {
    var s := ScoreAll(types, models);
    SortRanked(s);
    SortByScore(s)
  }

  /** The head of a ranked list comes before each of its other elements. */
  lemma RankedHeadFirst(s: seq<Scored>, x: Scored)
    requires Ranked(s) && x in s
    ensures x == s[0] || Before(s[0], x)
  {
    var k :| 0 <= k < |s| && s[k] == x;
    if k > 0 { assert Before(s[0], s[k]); }
  }

  lemma MultisetTails<T>(s: seq<T>, t: seq<T>)
    requires s != [] && t != [] && s[0] == t[0]
    requires multiset(s) == multiset(t)
    ensures multiset(s[1..]) == multiset(t[1..])
  {
    assert s == [s[0]] + s[1..] && t == [t[0]] + t[1..];
    assert multiset(s[1..]) == multiset(s) - multiset{s[0]};
    assert multiset(t[1..]) == multiset(t) - multiset{t[0]};
  }

  /** Two lists ordered by `Before` with the same elements are equal: the
      ranking is the one and only stable descending order of the scores. */
  lemma {:induction false} RankedUnique(s: seq<Scored>, t: seq<Scored>)
    requires Ranked(s) && Ranked(t)
    requires multiset(s) == multiset(t)
    ensures s == t
  {
    if s == [] {
      assert |t| == |multiset(t)| == 0;
    } else {
      assert s[0] in multiset(t);
      assert t != [];
      assert t[0] in multiset(s);
      RankedHeadFirst(t, s[0]);
      RankedHeadFirst(s, t[0]);
      MultisetTails(s, t);
      RankedUnique(s[1..], t[1..]);
      assert s == [s[0]] + s[1..] && t == [t[0]] + t[1..];
    }
  }

  /** Position i of the input occurs somewhere in the ranking. */
  predicate Occurs(r: seq<Scored>, i: nat) {
    exists k :: 0 <= k < |r| && r[k].idx == i
  }

  /** Each ranked entry is the scored record of the available id at its
      position, and every position appears. */
  lemma RankEntries(types: seq<Tag>, models: seq<string>)
    ensures var r := Rank(types, models);
      forall k :: 0 <= k < |r| ==>
        r[k].idx < |models| && r[k] == Scored(r[k].idx, models[r[k].idx], Score(models[r[k].idx], types))
    ensures var r := Rank(types, models);
      forall i :: 0 <= i < |models| ==> Occurs(r, i)
  {
    var r, s := Rank(types, models), ScoreAll(types, models);
    forall k | 0 <= k < |r|
      ensures r[k].idx < |models| && r[k] == s[r[k].idx]
    {
      assert r[k] in multiset(s);
      var j :| 0 <= j < |s| && s[j] == r[k];
    }
    forall i | 0 <= i < |models|
      ensures Occurs(r, i)
    {
      assert s[i] in multiset(r);
      var k :| 0 <= k < |r| && r[k] == s[i];
      assert r[k].idx == i;
    }
  }

  /** Every model with a profile is ranked above every model without one:
      qualities are at least 5, so profiled scores are positive. */
  lemma ProfiledRankedFirst(types: seq<Tag>, models: seq<string>, i: nat, j: nat)
    requires i < |models| && j < |models|
    requires ProfileOf(models[i]).Some? && ProfileOf(models[j]).None?
    ensures var r := Rank(types, models);
      forall a, b :: 0 <= a < |r| && 0 <= b < |r| && r[a].idx == i && r[b].idx == j ==> a < b
  {
    RankEntries(types, models);
    var r := Rank(types, models);
    forall a, b | 0 <= a < |r| && 0 <= b < |r| && r[a].idx == i && r[b].idx == j
      ensures a < b
    {
      assert r[a].score >= 5 && r[b].score == 0;
    }
  }

  // ---------------------------------------------------------------------
  // Selection (selectModels, second half)
  // ---------------------------------------------------------------------

  /** `{ primary, secondary }`; None stands for `undefined`. */
  datatype Selection = Selection(primary: Option<string>, secondary: Option<string>)

  /** `selectModels`: the first ranked id (falling back to `models[0]` when
      it is falsy) and the second ranked id, if any. */
  function SelectModels(types: seq<Tag>, models: seq<string>): (sel: Selection)
    ensures sel.primary.None? <==> models == []
    ensures sel.secondary.Some? <==> |models| >= 2
    ensures sel.primary.Some? ==> sel.primary.value in models
    ensures sel.secondary.Some? ==> sel.secondary.value in models
  {
    var r := Rank(types, models);
    RankEntries(types, models);
    Selection(
      if |r| > 0 && r[0].id != "" then Some(r[0].id)
      else if |models| > 0 then Some(models[0])
      else None,
      if |r| > 1 then Some(r[1].id) else None)
  }

  /** An empty id never heads a non-empty ranking unless it is also the
      first available id, so the `|| models[0]` fallback picks the head. */
  lemma EmptyHeadIsFirst(types: seq<Tag>, models: seq<string>)
    requires |models| >= 1
    ensures var r := Rank(types, models); r[0].id == "" ==> r[0].idx == 0
  {
    RankEntries(types, models);
    var r := Rank(types, models);
    if r[0].id == "" {
      assert ProfileOf("").None?;
      assert Occurs(r, 0);
      var k :| 0 <= k < |r| && r[k].idx == 0;
      assert r[k].score >= 0;
      assert k == 0;
    }
  }

  /** The primary is always the top-ranked id (the `|| models[0]` fallback
      never changes it: an empty id scores 0, so all scores are 0 and the
      stable order keeps `models[0]` first), it has the highest score, and
      every model before it in `available` scores strictly less. */
  lemma SelectPrimary(types: seq<Tag>, models: seq<string>)
    requires |models| >= 1
    ensures var sel, r := SelectModels(types, models), Rank(types, models);
      && sel.primary == Some(r[0].id)
      && (forall i :: 0 <= i < |models| ==> Score(models[i], types) <= Score(r[0].id, types))
      && (forall i :: 0 <= i < |models| && i < r[0].idx ==> Score(models[i], types) < Score(r[0].id, types))
  {
    RankEntries(types, models);
    EmptyHeadIsFirst(types, models);
    var r := Rank(types, models);
    forall i | 0 <= i < |models|
      ensures Score(models[i], types) <= r[0].score
      ensures i < r[0].idx ==> Score(models[i], types) < r[0].score
    {
      assert Occurs(r, i);
      var k :| 0 <= k < |r| && r[k].idx == i;
      if k != 0 { assert Before(r[0], r[k]); }
    }
  }

  /** The secondary is the second-ranked id and scores at least as much as
      every model other than the primary. */
  lemma SelectSecondary(types: seq<Tag>, models: seq<string>)
    requires |models| >= 2
    ensures var sel, r := SelectModels(types, models), Rank(types, models);
      && sel.secondary == Some(r[1].id)
      && (forall i :: 0 <= i < |models| && i != r[0].idx ==> Score(models[i], types) <= Score(r[1].id, types))
  {
    RankEntries(types, models);
    var r := Rank(types, models);
    forall i | 0 <= i < |models| && i != r[0].idx
      ensures Score(models[i], types) <= r[1].score
    {
      assert Occurs(r, i);
      var k :| 0 <= k < |r| && r[k].idx == i;
      if k > 1 { assert Before(r[1], r[k]); }
    }
  }

  // ---------------------------------------------------------------------
  // The POST handler
  // ---------------------------------------------------------------------

  /** One call to the runtime: the model field (None: left out of the
      JSON because it is `undefined`) and the messages. */
  datatype Call = Call(model: Option<string>, messages: seq<Message>)

  datatype ModelResponse = ModelResponse(model: Option<string>, content: string)

  /** The JSON object the route answers with. */
  datatype Outcome = Outcome(queryTypes: seq<Tag>, selection: Selection, responses: seq<ModelResponse>, content: string)

  /** The request rejects: a runtime call could not connect or its body was
      not JSON, and the rejection escapes the handler. */
  datatype Failure = BackendRejected

  /** `callModel`: the reply's `message.content`, or "" when it is missing
      or empty; the HTTP status is never looked at. None: the call throws. */
  function CallModel(reply: Reply): (r: Option<string>)
    ensures r.None? <==> reply.Unreachable? || reply.json.None?
    ensures r.Some? ==> r.value == reply.json.value.content.GetOr("")
  {
    match reply
    case Unreachable => None
    case Answered(_, json) =>
      if json.None? then None else Some(OrElse(json.value.content, ""))
  }

  /** `messages[messages.length - 1]?.content || ''`. */
  function Query(messages: seq<Message>): (q: string)
    ensures messages == [] ==> q == ""
    ensures messages != [] ==> q == messages[|messages| - 1].content
  {
    if messages == [] then "" else OrElse(Some(messages[|messages| - 1].content), "")
  }

  /** `[sel.primary, sel.secondary].filter(Boolean)`. */
  function Targets(sel: Selection): (ts: seq<string>)
    ensures |ts| <= 2
    ensures forall i :: 0 <= i < |ts| ==> ts[i] != ""
    ensures Truthy(sel.primary) ==> ts != [] && ts[0] == sel.primary.value
    ensures Truthy(sel.secondary) ==> ts != [] && ts[|ts| - 1] == sel.secondary.value
    ensures |ts| == (if Truthy(sel.primary) then 1 else 0) + (if Truthy(sel.secondary) then 1 else 0)
  {
    (if Truthy(sel.primary) then [sel.primary.value] else [])
    + (if Truthy(sel.secondary) then [sel.secondary.value] else [])
  }

  /** `${r.model}`: a missing model prints as "undefined". */
  function Label(r: ModelResponse): string {
    "---" + r.model.GetOr("undefined") + "---\n" + r.content
  }

  function JoinLabels(rs: seq<ModelResponse>): string {
    if rs == [] then ""
    else if |rs| == 1 then Label(rs[0])
    else JoinLabels(rs[..|rs| - 1]) + "\n\n" + Label(rs[|rs| - 1])
  }

  const SynthesisHeader: string := "Обедини отговорите в един:\n\n"

  /** The synthesis request: the original messages and one assistant
      message holding every response under its model label. */
  function SynthesisMessages(messages: seq<Message>, rs: seq<ModelResponse>): (ms: seq<Message>)
    requires |rs| == 2
    ensures |ms| == |messages| + 1
    ensures ms[..|messages|] == messages
    ensures ms[|messages|] == Message("assistant",
      SynthesisHeader + Label(rs[0]) + "\n\n" + Label(rs[1]))
  {
    assert rs[..1] == [rs[0]];
    assert JoinLabels(rs) == Label(rs[0]) + "\n\n" + Label(rs[1]);
    messages + [Message("assistant", SynthesisHeader + JoinLabels(rs))]
  }

  /** The ensemble requests issued together by `Promise.all`, one per target. */
  function FanOut(targets: seq<string>, messages: seq<Message>): (cs: seq<Call>)
    ensures |cs| == |targets|
    ensures forall i :: 0 <= i < |cs| ==> cs[i] == Call(Some(targets[i]), messages)
  {
    seq(|targets|, i requires 0 <= i < |targets| => Call(Some(targets[i]), messages))
  }

  /** What `Promise.all` settles to: every response in target order, or a
      rejection (None) as soon as one call throws. */
  function Collect(targets: seq<string>, messages: seq<Message>, chat: (Option<string>, seq<Message>) -> Reply): (rs: Option<seq<ModelResponse>>)
    ensures rs.None? <==> exists i :: 0 <= i < |targets| && CallModel(chat(Some(targets[i]), messages)).None?
    ensures rs.Some? ==> |rs.value| == |targets|
    ensures rs.Some? ==> forall i :: 0 <= i < |targets| ==>
      rs.value[i] == ModelResponse(Some(targets[i]), CallModel(chat(Some(targets[i]), messages)).value)
  {
    if targets == [] then Some([])
    else
      var n := |targets| - 1;
      var prefix := Collect(targets[..n], messages, chat);
      var last := CallModel(chat(Some(targets[n]), messages));
      if prefix.None? || last.None? then
        assert prefix.None? ==> exists i :: 0 <= i < n && CallModel(chat(Some(targets[..n][i]), messages)).None?;
        None
      else Some(prefix.value + [ModelResponse(Some(targets[n]), last.value)])
  }

  /** `Promise.all(models.map(m => callModel(m, messages)))`: every request
      is issued, in target order, and the batch rejects when any one of
      them throws. */
  method CallAll(targets: seq<string>, messages: seq<Message>, chat: (Option<string>, seq<Message>) -> Reply)
    returns (rs: Option<seq<ModelResponse>>, calls: seq<Call>)
    ensures calls == FanOut(targets, messages)
    ensures rs == Collect(targets, messages, chat)
  {
    var responses: seq<ModelResponse> := [];
    var rejected := false;
    calls := [];
    for i := 0 to |targets|
      invariant calls == FanOut(targets[..i], messages)
      invariant rejected <==> Collect(targets[..i], messages, chat).None?
      invariant !rejected ==> responses == Collect(targets[..i], messages, chat).value
    {
      calls := calls + [Call(Some(targets[i]), messages)];
      var content := CallModel(chat(Some(targets[i]), messages));
      assert targets[..i + 1][..i] == targets[..i];
      if content.None? {
        rejected := true;
      } else if !rejected {
        responses := responses + [ModelResponse(Some(targets[i]), content.value)];
      }
    }
    assert targets[..|targets|] == targets;
    rs := if rejected then None else Some(responses);
  }

  /** The POST handler on the request's `messages` and `mode`, the list of
      model ids the runtime reported, the classifier's keyword tests and the
      runtime. It returns the answer (or the rejection) and every runtime
      call it issued, in order. */
  method Orchestrate(messages: seq<Message>, mode: string, available: seq<string>,
                     kw: Matchers, chat: (Option<string>, seq<Message>) -> Reply)
    returns (r: Result<Outcome, Failure>, calls: seq<Call>)
    ensures var types := DetectType(Query(messages), kw);
      r.Ok? ==> r.value.queryTypes == types && r.value.selection == SelectModels(types, available)
    // single mode: exactly one call, to the primary, echoed as the one response
    ensures var sel := SelectModels(DetectType(Query(messages), kw), available);
      var answer := CallModel(chat(sel.primary, messages));
      mode != "ensemble" ==>
        && calls == [Call(sel.primary, messages)]
        && (r.Ok? <==> answer.Some?)
        && (r.Ok? ==> r.value.content == answer.value
                      && r.value.responses == [ModelResponse(sel.primary, answer.value)])
    // ensemble mode: one call per truthy selected id, then synthesis iff both answered
    ensures var sel := SelectModels(DetectType(Query(messages), kw), available);
      var ts := Targets(sel);
      var rs := Collect(ts, messages, chat);
      mode == "ensemble" ==>
        && (rs.None? ==> r.Err? && calls == FanOut(ts, messages))
        && (rs.Some? && |rs.value| < 2 ==>
              && calls == FanOut(ts, messages)
              && r.Ok? && r.value.responses == rs.value
              && r.value.content == (if rs.value == [] then "" else rs.value[0].content))
        && (rs.Some? && |rs.value| == 2 ==>
              var synth := SynthesisMessages(messages, rs.value);
              var merged := CallModel(chat(sel.primary, synth));
              && calls == FanOut(ts, messages) + [Call(sel.primary, synth)]
              && (r.Ok? <==> merged.Some?)
              && (r.Ok? ==> r.value.responses == rs.value && r.value.content == merged.value))
  {
    var query := Query(messages);
    var types := DetectType(query, kw);
    var sel := SelectModels(types, available);
    if mode == "ensemble" {
      var targets := Targets(sel);
      var collected;
      collected, calls := CallAll(targets, messages, chat);
      if collected.None? {
        r := Err(BackendRejected);
        return;
      }
      var responses := collected.value;
      if |responses| > 1 {
        var synth := SynthesisMessages(messages, responses);
        calls := calls + [Call(sel.primary, synth)];
        var merged := CallModel(chat(sel.primary, synth));
        if merged.None? {
          r := Err(BackendRejected);
        } else {
          r := Ok(Outcome(types, sel, responses, merged.value));
        }
      } else {
        var content := if responses == [] then "" else OrElse(Some(responses[0].content), "");
        r := Ok(Outcome(types, sel, responses, content));
      }
    } else {
      calls := [Call(sel.primary, messages)];
      var answer := CallModel(chat(sel.primary, messages));
      if answer.None? {
        r := Err(BackendRejected);
      } else {
        r := Ok(Outcome(types, sel, [ModelResponse(sel.primary, answer.value)], answer.value));
      }
    }
  }
}
