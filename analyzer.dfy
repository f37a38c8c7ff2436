/**
 * The trend stage (`TrendAnalyzer`): the hot/week/month rankings and the keyword, author,
 * subreddit, engagement and time-distribution aggregates over the cleaned, not deduplicated, corpus.
 */
module Analyzer {

  import opened Wrappers
  import opened Text
  import opened Posts
  import opened OrderedMaps
  import opened Sorting

  // ---------------------------------------------------------------- rankings

  datatype Bucket = HotBucket | WeekBucket | MonthBucket

  /** Which ranking a timeframe feeds: `hot` and `day` feed `hot`; anything unknown feeds none. */
  function Route(tf: string): (b: Option<Bucket>)
    ensures b == Some(HotBucket) <==> tf == "hot" || tf == "day"
    ensures b == Some(WeekBucket) <==> tf == "week"
    ensures b == Some(MonthBucket) <==> tf == "month"
  {
    if tf == "hot" || tf == "day" then Some(HotBucket)
    else if tf == "week" then Some(WeekBucket)
    else if tf == "month" then Some(MonthBucket)
    else None
  }

  /** The copies `create_hot_ranking` makes of one group's posts, each carrying its group key. */
  function Keyed(g: Group<Post>): seq<Post>
  {
    seq(|g.posts|, j requires 0 <= j < |g.posts| => g.posts[j].(sourceKey := Some(g.key)))
  }

  /** The keyed copies of every post whose group key routes to `b`, in input order. */
  function Routed(groups: seq<Group<Post>>, b: Bucket): seq<Post>
  {
    if groups == [] then []
    else
      var g := groups[|groups| - 1];
      Routed(groups[..|groups| - 1], b) + (if Route(Timeframe(g.key)) == Some(b) then Keyed(g) else [])
  }

  datatype Rankings = Rankings(hot: seq<Post>, week: seq<Post>, month: seq<Post>)

  /**
   * The three rankings: the first `topK` hot/day posts in input order, and the week and month
   * posts stably sorted by descending score, then cut to `topK`.
   */
  function RankingsOf(groups: seq<Group<Post>>, topK: int): Rankings
  {
    Rankings(
      Prefix(Routed(groups, HotBucket), topK),
      Prefix(SortDesc(Routed(groups, WeekBucket), ScoreOf), topK),
      Prefix(SortDesc(Routed(groups, MonthBucket), ScoreOf), topK))
  }

  /** Every routed post is an input post with `source_key` set to a group key that routes to `b`. */
  lemma {:induction false} RoutedKeys(groups: seq<Group<Post>>, b: Bucket)
    ensures forall p :: p in Routed(groups, b) ==> p.sourceKey.Some? && Route(Timeframe(p.sourceKey.value)) == Some(b)
    ensures forall p :: p in Routed(groups, b) ==> exists q :: q in Flatten(groups) && p == q.(sourceKey := p.sourceKey)
    decreases |groups|
  {
    if groups != [] {
      var init := groups[..|groups| - 1];
      var g := groups[|groups| - 1];
      RoutedKeys(init, b);
      forall p | p in Routed(groups, b)
        ensures exists q :: q in Flatten(groups) && p == q.(sourceKey := p.sourceKey)
      {
        if p in Routed(init, b) {
          var q: Post :| q in Flatten(init) && p == q.(sourceKey := p.sourceKey);
          assert q in Flatten(groups);
        } else {
          var j :| 0 <= j < |g.posts| && p == Keyed(g)[j];
          assert g.posts[j] in Flatten(groups);
        }
      }
    }
  }

  /**
   * With a non-negative `topK`, each ranking has `min(n, topK)` entries, where `n` counts the posts
   * routed to it. Hot is the first of the hot/day posts in input order. Week and month hold the
   * highest-scored of their posts in descending score order: no post left out scores above one
   * kept, and the posts kept with any one score are the first ones of the input with that score.
   */
  lemma RankingsProps(groups: seq<Group<Post>>, topK: int, v: real)
    ensures var r := RankingsOf(groups, topK);
      var hot := Routed(groups, HotBucket);
      var week := Routed(groups, WeekBucket);
      var month := Routed(groups, MonthBucket);
      && (topK >= 0 ==> |r.hot| == (if topK <= |hot| then topK else |hot|))
      && (topK >= 0 ==> |r.week| == (if topK <= |week| then topK else |week|))
      && (topK >= 0 ==> |r.month| == (if topK <= |month| then topK else |month|))
      && r.hot == hot[..|r.hot|]
      && IsTopOf(r.week, week, ScoreOf) && IsTopOf(r.month, month, ScoreOf)
      && |WithKey(r.week, ScoreOf, v)| <= |WithKey(week, ScoreOf, v)|
      && WithKey(r.week, ScoreOf, v) == WithKey(week, ScoreOf, v)[..|WithKey(r.week, ScoreOf, v)|]
      && |WithKey(r.month, ScoreOf, v)| <= |WithKey(month, ScoreOf, v)|
      && WithKey(r.month, ScoreOf, v) == WithKey(month, ScoreOf, v)[..|WithKey(r.month, ScoreOf, v)|]
  {
    TopCut(Routed(groups, WeekBucket), ScoreOf, topK);
    TopCut(Routed(groups, MonthBucket), ScoreOf, topK);
    TopCutStable(Routed(groups, WeekBucket), ScoreOf, topK, v);
    TopCutStable(Routed(groups, MonthBucket), ScoreOf, topK, v);
  }

  lemma RoutedStep(groups: seq<Group<Post>>, i: nat, b: Bucket)
    requires i < |groups|
    ensures Routed(groups[..i + 1], b) == Routed(groups[..i], b) + (if Route(Timeframe(groups[i].key)) == Some(b) then Keyed(groups[i]) else [])
  {
    assert groups[..i + 1][..i] == groups[..i];
  }

  /** The inner loop of `create_hot_ranking`: the keyed copies of one group's posts, appended to its bucket. */
  method RouteGroup(g: Group<Post>, hot0: seq<Post>, week0: seq<Post>, month0: seq<Post>)
    returns (hot: seq<Post>, week: seq<Post>, month: seq<Post>)
    ensures var b := Route(Timeframe(g.key));
      && hot == hot0 + (if b == Some(HotBucket) then Keyed(g) else [])
      && week == week0 + (if b == Some(WeekBucket) then Keyed(g) else [])
      && month == month0 + (if b == Some(MonthBucket) then Keyed(g) else [])
  {
    hot, week, month := hot0, week0, month0;
    var tf := Timeframe(g.key);
    var j := 0;
    while j < |g.posts|
      invariant 0 <= j <= |g.posts|
      invariant hot == hot0 + (if Route(tf) == Some(HotBucket) then Keyed(Group(g.key, g.posts[..j])) else [])
      invariant week == week0 + (if Route(tf) == Some(WeekBucket) then Keyed(Group(g.key, g.posts[..j])) else [])
      invariant month == month0 + (if Route(tf) == Some(MonthBucket) then Keyed(Group(g.key, g.posts[..j])) else [])
    {
      var copy := g.posts[j].(sourceKey := Some(g.key));
      ghost var pre := Keyed(Group(g.key, g.posts[..j]));
      assert Keyed(Group(g.key, g.posts[..j + 1])) == pre + [copy];
      if tf == "hot" {
        hot := hot + [copy];
      } else if tf == "day" {
        hot := hot + [copy];
      } else if tf == "week" {
        week := week + [copy];
      } else if tf == "month" {
        month := month + [copy];
      }
      j := j + 1;
    }
    assert g.posts[..j] == g.posts;
    assert Group(g.key, g.posts) == g;
  }

  /**
   * `create_hot_ranking`: routes a keyed copy of every post by its key's timeframe (the input is
   * left unchanged), then cuts the hot list and sorts and cuts the week and month lists.
   */
  method CreateHotRanking(groups: seq<Group<Post>>, topK: int) returns (r: Rankings)
    ensures r == RankingsOf(groups, topK)
  {
    var hot: seq<Post> := [];
    var week: seq<Post> := [];
    var month: seq<Post> := [];
    var i := 0;
    while i < |groups|
      invariant 0 <= i <= |groups|
      invariant hot == Routed(groups[..i], HotBucket)
      invariant week == Routed(groups[..i], WeekBucket)
      invariant month == Routed(groups[..i], MonthBucket)
    {
      hot, week, month := RouteGroup(groups[i], hot, week, month);
      RoutedStep(groups, i, HotBucket);
      RoutedStep(groups, i, WeekBucket);
      RoutedStep(groups, i, MonthBucket);
      i := i + 1;
    }
    assert groups[..i] == groups;
    r := Rankings(Prefix(hot, topK), Prefix(SortDesc(week, ScoreOf), topK), Prefix(SortDesc(month, ScoreOf), topK));
  }

  // ---------------------------------------------------------------- keywords

  /** The fixed AI vocabulary `_analyze_keywords` looks for, in its order. */
  const AiKeywords: seq<string> := [
    "llm", "gpt", "ai", "machine learning", "deep learning",
    "transformer", "model", "training", "fine-tune", "finetune",
    "langchain", "openai", "anthropic", "claude", "chatgpt",
    "rag", "vector", "embedding", "prompt", "agent", "ollama",
    "local", "inference", "quantization", "lora", "rlhf"]

  /** The lower-cased `title + ' ' + selftext_preview` a post is searched in. */
  function PostText(p: Post): string
  {
    Lower(p.title + " " + p.preview)
  }

  /** The words of `vocab` that occur in `text`, in vocabulary order. */
  function MatchesIn(text: string, vocab: seq<string>): (r: seq<string>)
    ensures forall k :: k in r <==> k in vocab && Contains(text, k)
  {
    if vocab == [] then []
    else
      var k := vocab[|vocab| - 1];
      MatchesIn(text, vocab[..|vocab| - 1]) + (if Contains(text, k) then [k] else [])
  }

  /** Every (post, keyword) hit, in the order the nested loop meets them. */
  function Matches(posts: seq<Post>, vocab: seq<string>): seq<string>
  {
    if posts == [] then []
    else Matches(posts[..|posts| - 1], vocab) + MatchesIn(PostText(posts[|posts| - 1]), vocab)
  }

  /** The posts whose text contains `k`. */
  function Mentioning(posts: seq<Post>, k: string): seq<Post>
  {
    if posts == [] then []
    else
      var p := posts[|posts| - 1];
      Mentioning(posts[..|posts| - 1], k) + (if Contains(PostText(p), k) then [p] else [])
  }

  function Self(k: string): string
  {
    k
  }

  /** The `keyword_counts` dictionary: one tally per keyword hit. */
  function KeywordCounts(posts: seq<Post>, vocab: seq<string>): seq<(string, int)>
  {
    CountBy(Matches(posts, vocab), Self)
  }

  lemma {:induction false} MatchesInHits(text: string, vocab: seq<string>, k: string)
    requires Distinct(vocab)
    ensures |KeyFilter(MatchesIn(text, vocab), Self, k)| == if k in vocab && Contains(text, k) then 1 else 0
    decreases |vocab|
  {
    if vocab != [] {
      var init := vocab[..|vocab| - 1];
      var last := vocab[|vocab| - 1];
      MatchesInHits(text, init, k);
      var tail := if Contains(text, last) then [last] else [];
      KeyFilterAppend(MatchesIn(text, init), tail, Self, k);
      assert KeyFilter(tail, Self, k) == if Contains(text, last) && last == k then [last] else [] by {
        if Contains(text, last) {
          assert tail[..0] == [];
        }
      }
      assert k in vocab <==> k in init || k == last;
      if k == last {
        assert k !in init;
      }
    }
  }

  /** Each keyword is counted once per post that mentions it. */
  lemma {:induction false} MatchesHits(posts: seq<Post>, vocab: seq<string>, k: string)
    requires Distinct(vocab)
    ensures |KeyFilter(Matches(posts, vocab), Self, k)| == if k in vocab then |Mentioning(posts, k)| else 0
    decreases |posts|
  {
    if posts != [] {
      var init := posts[..|posts| - 1];
      var p := posts[|posts| - 1];
      MatchesHits(init, vocab, k);
      KeyFilterAppend(Matches(init, vocab), MatchesIn(PostText(p), vocab), Self, k);
      MatchesInHits(PostText(p), vocab, k);
    }
  }

  lemma {:induction false} MatchesVocab(posts: seq<Post>, vocab: seq<string>)
    ensures forall k :: k in Matches(posts, vocab) ==> k in vocab
    decreases |posts|
  {
    if posts != [] {
      MatchesVocab(posts[..|posts| - 1], vocab);
    }
  }

  /**
   * `keyword_counts` holds exactly the vocabulary words some post mentions, in order of first hit,
   * each with the number of posts that mention it; so `total_keywords_found` counts the keywords
   * found at least once.
   */
  lemma KeywordCountsProps(posts: seq<Post>, vocab: seq<string>)
    requires Distinct(vocab)
    ensures var m := KeywordCounts(posts, vocab);
      && UniqueKeys(m)
      && (forall k :: Get(m, k, 0) == if k in vocab then |Mentioning(posts, k)| else 0)
      && (forall i :: 0 <= i < |m| ==> m[i].0 in vocab && m[i].1 >= 1)
  {
    var s := Matches(posts, vocab);
    var m := KeywordCounts(posts, vocab);
    CountByProps(s, Self);
    MatchesVocab(posts, vocab);
    forall k ensures Get(m, k, 0) == if k in vocab then |Mentioning(posts, k)| else 0 {
      MatchesHits(posts, vocab, k);
    }
    forall i | 0 <= i < |m| ensures m[i].0 in vocab && m[i].1 >= 1 {
      var k := m[i].0;
      assert k in Keys(m);
      FirstOccurrencesHas(KeysOf(s, Self), k);
      var j :| 0 <= j < |s| && KeysOf(s, Self)[j] == k;
      assert s[j] == k;
      KeyFilterNonEmpty(s, Self, k);
      DistinctIndex(m, k, i);
    }
  }

  /** `AiKeywords` in four runs, so that each is told apart from the others in a small proof. */
  const AiRun1: seq<string> := ["llm", "gpt", "ai", "machine learning", "deep learning", "transformer", "model"]
  const AiRun2: seq<string> := ["training", "fine-tune", "finetune", "langchain", "openai", "anthropic"]
  const AiRun3: seq<string> := ["claude", "chatgpt", "rag", "vector", "embedding", "prompt", "agent"]
  const AiRun4: seq<string> := ["ollama", "local", "inference", "quantization", "lora", "rlhf"]

  lemma AiRunsDistinct()
    ensures Distinct(AiRun1) && Distinct(AiRun2) && Distinct(AiRun3) && Distinct(AiRun4)
  {}

  lemma AiRuns12Apart() ensures Apart(AiRun1, AiRun2) {}
  lemma AiRuns13Apart() ensures Apart(AiRun1, AiRun3) {}
  lemma AiRuns14Apart() ensures Apart(AiRun1, AiRun4) {}
  lemma AiRuns23Apart() ensures Apart(AiRun2, AiRun3) {}
  lemma AiRuns24Apart() ensures Apart(AiRun2, AiRun4) {}
  lemma AiRuns34Apart() ensures Apart(AiRun3, AiRun4) {}

  lemma AiKeywordsDistinct()
    ensures Distinct(AiKeywords)
  {
    AiRunsDistinct();
    AiRuns12Apart(); AiRuns13Apart(); AiRuns14Apart();
    AiRuns23Apart(); AiRuns24Apart(); AiRuns34Apart();
    DistinctConcat(AiRun1, AiRun2);
    DistinctConcat(AiRun3, AiRun4);
    ApartConcatRight(AiRun1, AiRun3, AiRun4);
    ApartConcatRight(AiRun2, AiRun3, AiRun4);
    ApartConcatLeft(AiRun1, AiRun2, AiRun3 + AiRun4);
    DistinctConcat(AiRun1 + AiRun2, AiRun3 + AiRun4);
    assert AiKeywords == (AiRun1 + AiRun2) + (AiRun3 + AiRun4);
  }

  function CountOf(e: (string, int)): real
  {
    e.1 as real
  }

  /** `[kw for kw, count in entries if count > 1]` */
  function TrendingOf(entries: seq<(string, int)>): (r: seq<string>)
    ensures |r| <= |entries|
    ensures forall k :: k in r <==> exists i :: 0 <= i < |entries| && entries[i] == (k, entries[i].1) && entries[i].1 > 1
  {
    if entries == [] then []
    else
      var e := entries[|entries| - 1];
      var init := entries[..|entries| - 1];
      var r0 := TrendingOf(init);
      assert forall i :: 0 <= i < |init| ==> init[i] == entries[i];
      r0 + (if e.1 > 1 then [e.0] else [])
  }

  /** Each element of `t` names an entry of `entries`, and the order of `t` is the order of those entries. */
  ghost predicate FollowsOrder(t: seq<string>, entries: seq<(string, int)>)
  {
    forall a, b :: 0 <= a < b < |t| ==> Precedes(entries, t[a], t[b])
  }

  /** Some entry keyed `x` comes before some entry keyed `y`. */
  ghost predicate Precedes(entries: seq<(string, int)>, x: string, y: string)
  {
    exists i, j :: 0 <= i < j < |entries| && entries[i].0 == x && entries[j].0 == y
  }

  /** The trending keywords keep the order of the entries they come from. */
  lemma {:induction false} TrendingOrder(entries: seq<(string, int)>)
    ensures FollowsOrder(TrendingOf(entries), entries)
    decreases |entries|
  {
    if entries != [] {
      var init := entries[..|entries| - 1];
      var e := entries[|entries| - 1];
      assert entries == init + [e];
      TrendingOrder(init);
      var r0 := TrendingOf(init);
      PrecedesExtend(init, e);
      if e.1 > 1 {
        forall a | 0 <= a < |r0| ensures Precedes(entries, r0[a], e.0) {
          assert r0[a] in r0;
          var i :| 0 <= i < |init| && init[i] == (r0[a], init[i].1) && init[i].1 > 1;
          assert entries[i] == init[i] && entries[|init|] == e;
        }
        assert TrendingOf(entries) == r0 + [e.0];
      } else {
        assert TrendingOf(entries) == r0;
      }
    }
  }

  /** Order in a list is kept when an entry is appended. */
  lemma PrecedesExtend(init: seq<(string, int)>, e: (string, int))
    ensures forall x, y :: Precedes(init, x, y) ==> Precedes(init + [e], x, y)
  {
    forall x, y | Precedes(init, x, y) ensures Precedes(init + [e], x, y) {
      var i, j :| 0 <= i < j < |init| && init[i].0 == x && init[j].0 == y;
      assert (init + [e])[i] == init[i] && (init + [e])[j] == init[j];
    }
  }

  datatype KeywordTrends = KeywordTrends(totalFound: nat, frequency: seq<(string, int)>, trending: seq<string>)

  /** The keyword report drawn from the tallies: how many keywords were found, the top 20, and the top 10 seen more than once. */
  function KeywordReport(m: seq<(string, int)>): KeywordTrends
  {
    var sorted := SortDesc(m, CountOf);
    KeywordTrends(|m|, Prefix(sorted, 20), TrendingOf(Prefix(sorted, 10)))
  }

  function KeywordTrendsOf(posts: seq<Post>): KeywordTrends
  {
    KeywordReport(KeywordCounts(posts, AiKeywords))
  }

  /**
   * What a report says about tallies `m`: `total_keywords_found` is the number of tallies;
   * `keyword_frequency` is the top `min(|m|, 20)` of them by count; `trending_keywords` are exactly
   * the keywords among the first 10 of those counted more than once, in the same order. Tallies
   * with equal counts keep their order in `m`: those reported are the first ones with that count.
   */
  ghost predicate ReportsTop(r: KeywordTrends, m: seq<(string, int)>)
  {
    && r.totalFound == |m|
    && |r.frequency| == (if |m| <= 20 then |m| else 20)
    && IsTopOf(r.frequency, m, CountOf)
    && (forall v :: var w := WithKey(r.frequency, CountOf, v);
          |w| <= |WithKey(m, CountOf, v)| && w == WithKey(m, CountOf, v)[..|w|])
    && var top := Prefix(r.frequency, 10);
      && (forall k :: k in r.trending <==> exists i :: 0 <= i < |top| && top[i] == (k, top[i].1) && top[i].1 > 1)
      && FollowsOrder(r.trending, top)
  }

  /** The report of any tallies is their top 20, with the trending ones drawn from the top 10 in order. */
  lemma KeywordReportShape(m: seq<(string, int)>)
    ensures ReportsTop(KeywordReport(m), m)
  {
    var sorted := SortDesc(m, CountOf);
    var top := Prefix(sorted, 20);
    assert KeywordReport(m) == KeywordTrends(|m|, top, TrendingOf(Prefix(sorted, 10)));
    TopCut(m, CountOf, 20);
    TopCutStableAll(m, CountOf, 20);
    assert Prefix(sorted, 10) == Prefix(top, 10);
    TrendingOfTop(top);
  }

  /** The trending keywords of a frequency list's first 10 entries: which they are, and their order. */
  lemma TrendingOfTop(f: seq<(string, int)>)
    ensures var top := Prefix(f, 10); var t := TrendingOf(top);
      && (forall k :: k in t <==> exists i :: 0 <= i < |top| && top[i] == (k, top[i].1) && top[i].1 > 1)
      && FollowsOrder(t, top)
  {
    TrendingOrder(Prefix(f, 10));
  }

  /**
   * Every reported frequency is the number of posts mentioning that keyword, and a mentioned
   * vocabulary word left out of the report is mentioned no more often than any reported one.
   */
  lemma KeywordReportProps(posts: seq<Post>, vocab: seq<string>)
    requires Distinct(vocab)
    ensures var m := KeywordCounts(posts, vocab); var r := KeywordReport(m);
      && ReportsTop(r, m)
      && (forall i :: 0 <= i < |r.frequency| ==> r.frequency[i].0 in vocab && r.frequency[i].1 == |Mentioning(posts, r.frequency[i].0)|)
      && (forall k, i :: k in vocab && |Mentioning(posts, k)| > 0 && k !in Keys(r.frequency) && 0 <= i < |r.frequency| ==>
            |Mentioning(posts, k)| <= r.frequency[i].1)
  {
    KeywordCountsProps(posts, vocab);
    KeywordReportShape(KeywordCounts(posts, vocab));
    CountsReport(KeywordCounts(posts, vocab), posts, vocab);
    CountsLeftOut(KeywordCounts(posts, vocab), posts, vocab);
  }

  /** Every reported entry of tallies that count the posts mentioning each vocabulary word is such a count. */
  lemma CountsReport(m: seq<(string, int)>, posts: seq<Post>, vocab: seq<string>)
    requires UniqueKeys(m)
    requires forall k :: Get(m, k, 0) == if k in vocab then |Mentioning(posts, k)| else 0
    requires forall i :: 0 <= i < |m| ==> m[i].0 in vocab
    ensures var f := KeywordReport(m).frequency;
      forall i :: 0 <= i < |f| ==> f[i].0 in vocab && f[i].1 == |Mentioning(posts, f[i].0)|
  {
    var f := KeywordReport(m).frequency;
    TopCut(m, CountOf, 20);
    forall i | 0 <= i < |f| ensures f[i].0 in vocab && f[i].1 == |Mentioning(posts, f[i].0)| {
      assert f[i] in multiset(f);
      var j :| 0 <= j < |m| && m[j] == f[i];
      DistinctIndex(m, f[i].0, j);
    }
  }

  /** With such tallies, a mentioned vocabulary word missing from the report is mentioned no more often than any reported one. */
  lemma CountsLeftOut(m: seq<(string, int)>, posts: seq<Post>, vocab: seq<string>)
    requires forall k :: Get(m, k, 0) == if k in vocab then |Mentioning(posts, k)| else 0
    ensures var f := KeywordReport(m).frequency;
      forall k, i :: k in vocab && |Mentioning(posts, k)| > 0 && k !in Keys(f) && 0 <= i < |f| ==>
        |Mentioning(posts, k)| <= f[i].1
  {
    var f := KeywordReport(m).frequency;
    forall k | k in vocab && |Mentioning(posts, k)| > 0 && k !in Keys(f)
      ensures forall i :: 0 <= i < |f| ==> |Mentioning(posts, k)| <= f[i].1
    {
      TallyLeftOut(m, k);
    }
  }

  /** A tally missing from the report counts no more than any reported one. */
  lemma TallyLeftOut(m: seq<(string, int)>, k: string)
    requires Get(m, k, 0) > 0 && k !in Keys(KeywordReport(m).frequency)
    ensures var f := KeywordReport(m).frequency;
      forall i :: 0 <= i < |f| ==> Get(m, k, 0) <= f[i].1
  {
    TopCut(m, CountOf, 20);
    EntryLeftOut(m, Prefix(SortDesc(m, CountOf), 20), m[IndexOf(m, k).value]);
  }

  /** An entry whose key is missing from a top cut ranks no higher than anything kept. */
  lemma EntryLeftOut(m: seq<(string, int)>, f: seq<(string, int)>, e: (string, int))
    requires IsTopOf(f, m, CountOf) && e in m && e.0 !in Keys(f)
    ensures forall i :: 0 <= i < |f| ==> e.1 <= f[i].1
  {
    assert e in multiset(m) - multiset(f);
    forall i | 0 <= i < |f| ensures e.1 <= f[i].1 {
      assert CountOf(e) <= CountOf(f[i]);
    }
  }

  /** The same for the fixed vocabulary. */
  lemma KeywordTrendsProps(posts: seq<Post>)
    ensures var r := KeywordTrendsOf(posts);
      && ReportsTop(r, KeywordCounts(posts, AiKeywords))
      && (forall i :: 0 <= i < |r.frequency| ==> r.frequency[i].0 in AiKeywords && r.frequency[i].1 == |Mentioning(posts, r.frequency[i].0)|)
      && (forall k, i :: k in AiKeywords && |Mentioning(posts, k)| > 0 && k !in Keys(r.frequency) && 0 <= i < |r.frequency| ==>
            |Mentioning(posts, k)| <= r.frequency[i].1)
  {
    AiKeywordsDistinct();
    KeywordReportProps(posts, AiKeywords);
  }

  lemma ExampleSorted(a: string, b: string, c: string)
    ensures SortDesc([(a, 5), (b, 3), (c, 1)], CountOf) == [(a, 5), (b, 3), (c, 1)]
  {
    var m: seq<(string, int)> := [(a, 5), (b, 3), (c, 1)];
    assert SortedDesc(m, CountOf);
    SortDescOfSorted(m, CountOf);
  }

  lemma ExampleTrending(a: string, b: string, c: string)
    ensures TrendingOf(Prefix([(a, 5), (b, 3), (c, 1)], 10)) == [a, b]
  {
    var m: seq<(string, int)> := [(a, 5), (b, 3), (c, 1)];
    assert Prefix(m, 10) == m;
    assert m[..2][..1] == [(a, 5)] && m[..1][..0] == [];
    assert TrendingOf(m[..1]) == [a];
    assert TrendingOf(m[..2]) == [a, b];
  }

  /** With counts 5, 3 and 1 for three keywords, only the first two trend, in that order. */
  lemma TrendingExample(a: string, b: string, c: string)
    ensures TrendingOf(Prefix(SortDesc([(a, 5), (b, 3), (c, 1)], CountOf), 10)) == [a, b]
  {
    ExampleSorted(a, b, c);
    ExampleTrending(a, b, c);
  }

  lemma MatchesInStep(text: string, vocab: seq<string>, j: nat)
    requires j < |vocab|
    ensures MatchesIn(text, vocab[..j + 1]) == MatchesIn(text, vocab[..j]) + (if Contains(text, vocab[j]) then [vocab[j]] else [])
  {
    assert vocab[..j + 1][..j] == vocab[..j];
  }

  /** The inner loop of `_analyze_keywords` for one post's text: `keyword_counts[k] += 1` for each word it contains. */
  method TallyText(counts0: seq<(string, int)>, text: string, vocab: seq<string>, ghost done: seq<string>)
    returns (counts: seq<(string, int)>)
    requires counts0 == CountBy(done, Self)
    ensures counts == CountBy(done + MatchesIn(text, vocab), Self)
  {
    counts := counts0;
    ghost var hits := done;
    var j := 0;
    assert vocab[..0] == [];
    while j < |vocab|
      invariant 0 <= j <= |vocab|
      invariant hits == done + MatchesIn(text, vocab[..j])
      invariant counts == CountBy(hits, Self)
    {
      var keyword := vocab[j];
      MatchesInStep(text, vocab, j);
      if Contains(text, keyword) {
        CountByStep(hits, keyword, Self);
        counts := Upsert(counts, keyword, 0, StepWith(Succ, keyword));
        hits := hits + [keyword];
      }
      j := j + 1;
    }
    assert vocab[..j] == vocab;
  }

  /** The tallying loops of `_analyze_keywords`, for any vocabulary: `keyword_counts[k] += 1` for each hit. */
  method TallyKeywords(posts: seq<Post>, vocab: seq<string>) returns (counts: seq<(string, int)>)
    ensures counts == KeywordCounts(posts, vocab)
  {
    counts := [];
    var i := 0;
    while i < |posts|
      invariant 0 <= i <= |posts|
      invariant counts == CountBy(Matches(posts[..i], vocab), Self)
    {
      counts := TallyText(counts, PostText(posts[i]), vocab, Matches(posts[..i], vocab));
      assert posts[..i + 1][..i] == posts[..i];
      i := i + 1;
    }
    assert posts[..i] == posts;
  }

  /** `_analyze_keywords`: tallies every keyword hit post by post, then sorts the tallies and cuts them. */
  method AnalyzeKeywords(posts: seq<Post>) returns (r: KeywordTrends)
    ensures r == KeywordTrendsOf(posts)
  {
    var counts := TallyKeywords(posts, AiKeywords);
    var sorted := SortDesc(counts, CountOf);
    r := KeywordTrends(|counts|, Prefix(sorted, 20), TrendingOf(Prefix(sorted, 10)));
  }

  // ---------------------------------------------------------------- authors

  /** `sum(p['score'] for p in s)` */
  function SumScore(s: seq<Post>): int
  {
    if s == [] then 0 else SumScore(s[..|s| - 1]) + s[|s| - 1].score
  }

  /** `sum(p['num_comments'] for p in s)` */
  function SumComments(s: seq<Post>): int
  {
    if s == [] then 0 else SumComments(s[..|s| - 1]) + s[|s| - 1].numComments
  }

  /** One `author_stats` entry: posts, total score and total comments. */
  datatype Tally = Tally(posts: int, totalScore: int, totalComments: int)

  function AddPost(t: Tally, p: Post): Tally
  {
    Tally(t.posts + 1, t.totalScore + p.score, t.totalComments + p.numComments)
  }

  function AuthorOf(p: Post): string
  {
    p.author
  }

  /** The authors `_analyze_authors` skips: a falsy one and Reddit's deleted marker. */
  const SkippedAuthors: set<string> := {"", Deleted}

  /** The `author_stats` dictionary. */
  function AuthorTallies(posts: seq<Post>): seq<(string, Tally)>
  {
    Accumulate(Without(posts, AuthorOf, SkippedAuthors), AuthorOf, Tally(0, 0, 0), AddPost)
  }

  lemma {:induction false} FoldAddPost(s: seq<Post>)
    ensures Fold(s, Tally(0, 0, 0), AddPost) == Tally(|s|, SumScore(s), SumComments(s))
    decreases |s|
  {
    if s != [] {
      FoldAddPost(s[..|s| - 1]);
    }
  }

  /**
   * `author_stats` holds one entry per distinct author other than the skipped ones, in order of
   * first post, with that author's post count, total score and total comments.
   */
  lemma AuthorTalliesProps(posts: seq<Post>)
    ensures var m := AuthorTallies(posts);
      && UniqueKeys(m)
      && (forall i :: 0 <= i < |m| ==> m[i].0 !in SkippedAuthors)
      && (forall i :: 0 <= i < |m| ==> var own := KeyFilter(posts, AuthorOf, m[i].0);
            own != [] && m[i].1 == Tally(|own|, SumScore(own), SumComments(own)))
      && (forall a :: a !in SkippedAuthors && a in KeysOf(posts, AuthorOf) ==> a in Keys(m))
  {
    var kept := Without(posts, AuthorOf, SkippedAuthors);
    var m := AuthorTallies(posts);
    AccumulateEntries(kept, AuthorOf, Tally(0, 0, 0), AddPost);
    forall i | 0 <= i < |m| ensures m[i].0 !in SkippedAuthors && var own := KeyFilter(posts, AuthorOf, m[i].0);
            own != [] && m[i].1 == Tally(|own|, SumScore(own), SumComments(own)) {
      WithoutKeyFilter(posts, AuthorOf, SkippedAuthors, m[i].0);
      FoldAddPost(KeyFilter(posts, AuthorOf, m[i].0));
    }
    forall a | a !in SkippedAuthors && a in KeysOf(posts, AuthorOf) ensures a in Keys(m) {
      KeyFilterNonEmpty(posts, AuthorOf, a);
      WithoutKeyFilter(posts, AuthorOf, SkippedAuthors, a);
      var x := KeyFilter(kept, AuthorOf, a)[0];
      assert x in KeyFilter(kept, AuthorOf, a);
      KeyFilterKeys(kept, AuthorOf, a);
      var j :| 0 <= j < |kept| && kept[j] == x;
      assert KeysOf(kept, AuthorOf)[j] == a;
      FirstOccurrencesHas(KeysOf(kept, AuthorOf), a);
    }
  }

  /** One `top_authors` entry. */
  datatype AuthorSummary = AuthorSummary(author: string, postsCount: int, avgScore: real, totalEngagement: int)

  function EngagementOf(a: AuthorSummary): real
  {
    a.totalEngagement as real
  }

  /** The summaries of the authors with more than one post, in dictionary order. */
  function Candidates(m: seq<(string, Tally)>): (r: seq<AuthorSummary>)
    ensures |r| <= |m|
    ensures forall c :: c in r <==> exists i :: 0 <= i < |m| && m[i].1.posts > 1 && c == Summarise(m[i].0, m[i].1)
  {
    if m == [] then []
    else
      var init := m[..|m| - 1];
      var e := m[|m| - 1];
      assert forall i :: 0 <= i < |init| ==> init[i] == m[i];
      Candidates(init) + (if e.1.posts > 1 then [Summarise(e.0, e.1)] else [])
  }

  function Summarise(author: string, t: Tally): AuthorSummary
    requires t.posts > 1
  {
    AuthorSummary(author, t.posts, t.totalScore as real / t.posts as real, t.totalScore + t.totalComments)
  }

  /** `len([a for a in author_stats.values() if a['posts'] > 1])` */
  function ActiveCount(m: seq<(string, Tally)>): nat
  {
    if m == [] then 0 else ActiveCount(m[..|m| - 1]) + (if m[|m| - 1].1.posts > 1 then 1 else 0)
  }

  lemma {:induction false} ActiveCountIsCandidates(m: seq<(string, Tally)>)
    ensures ActiveCount(m) == |Candidates(m)|
    decreases |m|
  {
    if m != [] {
      ActiveCountIsCandidates(m[..|m| - 1]);
    }
  }

  datatype AuthorTrends = AuthorTrends(totalUnique: nat, active: nat, top: seq<AuthorSummary>)

  function AuthorTrendsOf(posts: seq<Post>): AuthorTrends
  {
    var m := AuthorTallies(posts);
    AuthorTrends(|m|, ActiveCount(m), Prefix(SortDesc(Candidates(m), EngagementOf), 10))
  }

  function SummaryAuthor(c: AuthorSummary): string
  {
    c.author
  }

  /**
   * `top_authors` holds `min(active, 10)` authors, each with at least two posts, with their true
   * post count, average score and engagement (total score plus comments); the active count is the
   * number of such authors. The list is the top of the candidates by engagement: an author with
   * at least two posts who is left out has no more engagement than any author kept, and authors
   * kept with equal engagement are the first ones in order of first post.
   */
  lemma AuthorTrendsProps(posts: seq<Post>, v: real)
    ensures var r := AuthorTrendsOf(posts); var cands := Candidates(AuthorTallies(posts));
      && |r.top| == (if r.active <= 10 then r.active else 10)
      && r.active <= r.totalUnique
      && IsTopOf(r.top, cands, EngagementOf)
      && |WithKey(r.top, EngagementOf, v)| <= |WithKey(cands, EngagementOf, v)|
      && WithKey(r.top, EngagementOf, v) == WithKey(cands, EngagementOf, v)[..|WithKey(r.top, EngagementOf, v)|]
      && (forall c :: c in r.top ==> var own := KeyFilter(posts, AuthorOf, c.author);
           && c.author !in SkippedAuthors
           && c.postsCount == |own| >= 2
           && c.avgScore == SumScore(own) as real / |own| as real
           && c.totalEngagement == SumScore(own) + SumComments(own))
      && (forall a, i :: a !in SkippedAuthors && |KeyFilter(posts, AuthorOf, a)| >= 2 && a !in KeysOf(r.top, SummaryAuthor) && 0 <= i < |r.top| ==>
           SumScore(KeyFilter(posts, AuthorOf, a)) + SumComments(KeyFilter(posts, AuthorOf, a)) <= r.top[i].totalEngagement)
  {
    var m := AuthorTallies(posts);
    var cands := Candidates(m);
    var top := Prefix(SortDesc(cands, EngagementOf), 10);
    assert AuthorTrendsOf(posts) == AuthorTrends(|m|, ActiveCount(m), top);
    ActiveCountIsCandidates(m);
    CandidatesFaithful(posts);
    AuthorCut(cands, v);
    AuthorsLeftOut(posts, top);
  }

  /** Each candidate is an author other than the skipped ones with at least two posts, with that author's true figures. */
  lemma CandidatesFaithful(posts: seq<Post>)
    ensures forall c :: c in Candidates(AuthorTallies(posts)) ==> var own := KeyFilter(posts, AuthorOf, c.author);
      && c.author !in SkippedAuthors
      && c.postsCount == |own| >= 2
      && c.avgScore == SumScore(own) as real / |own| as real
      && c.totalEngagement == SumScore(own) + SumComments(own)
  {
    AuthorTalliesProps(posts);
  }

  /** The cut of any candidate list: its length, the top by engagement, stable, drawn from the list. */
  lemma AuthorCut(cands: seq<AuthorSummary>, v: real)
    ensures var top := Prefix(SortDesc(cands, EngagementOf), 10);
      && |top| == (if |cands| <= 10 then |cands| else 10)
      && IsTopOf(top, cands, EngagementOf)
      && |WithKey(top, EngagementOf, v)| <= |WithKey(cands, EngagementOf, v)|
      && WithKey(top, EngagementOf, v) == WithKey(cands, EngagementOf, v)[..|WithKey(top, EngagementOf, v)|]
      && forall c :: c in top ==> c in cands
  {
    TopCut(cands, EngagementOf, 10);
    TopCutStable(cands, EngagementOf, 10, v);
    var top := Prefix(SortDesc(cands, EngagementOf), 10);
    forall c | c in top ensures c in cands {
      assert c in multiset(top);
    }
  }

  /** Every author with at least two posts who is missing from a top cut of the candidates has no more engagement than any kept. */
  lemma AuthorsLeftOut(posts: seq<Post>, top: seq<AuthorSummary>)
    requires IsTopOf(top, Candidates(AuthorTallies(posts)), EngagementOf)
    ensures forall a, i :: a !in SkippedAuthors && |KeyFilter(posts, AuthorOf, a)| >= 2 && a !in KeysOf(top, SummaryAuthor) && 0 <= i < |top| ==>
      SumScore(KeyFilter(posts, AuthorOf, a)) + SumComments(KeyFilter(posts, AuthorOf, a)) <= top[i].totalEngagement
  {
    var m := AuthorTallies(posts);
    AuthorTalliesProps(posts);
    forall a | a !in SkippedAuthors && |KeyFilter(posts, AuthorOf, a)| >= 2 && a !in KeysOf(top, SummaryAuthor)
      ensures forall i :: 0 <= i < |top| ==> SumScore(KeyFilter(posts, AuthorOf, a)) + SumComments(KeyFilter(posts, AuthorOf, a)) <= top[i].totalEngagement
    {
      var own := KeyFilter(posts, AuthorOf, a);
      KeyFilterKeys(posts, AuthorOf, a);
      assert own[0] in own;
      var x :| 0 <= x < |posts| && posts[x] == own[0];
      assert KeysOf(posts, AuthorOf)[x] == a;
      assert a in Keys(m);
      var j :| 0 <= j < |m| && Keys(m)[j] == a;
      CandidateLeftOut(m, top, j);
    }
  }

  /** An author with more than one post whose summary is left out of a top cut has no more engagement than any kept. */
  lemma CandidateLeftOut(m: seq<(string, Tally)>, top: seq<AuthorSummary>, j: nat)
    requires IsTopOf(top, Candidates(m), EngagementOf)
    requires j < |m| && m[j].1.posts > 1 && m[j].0 !in KeysOf(top, SummaryAuthor)
    ensures forall i :: 0 <= i < |top| ==> m[j].1.totalScore + m[j].1.totalComments <= top[i].totalEngagement
  {
    var c := Summarise(m[j].0, m[j].1);
    assert c.author == m[j].0 && c.totalEngagement == m[j].1.totalScore + m[j].1.totalComments;
    SummaryIsCandidate(m, j);
    SummaryLeftOut(Candidates(m), top, c);
  }

  /** Every author tallied with more than one post is a candidate. */
  lemma SummaryIsCandidate(m: seq<(string, Tally)>, j: nat)
    requires j < |m| && m[j].1.posts > 1
    ensures Summarise(m[j].0, m[j].1) in Candidates(m)
  {
  }

  /** A summary whose author is missing from a top cut by engagement has no more engagement than any kept. */
  lemma SummaryLeftOut(cands: seq<AuthorSummary>, top: seq<AuthorSummary>, c: AuthorSummary)
    requires IsTopOf(top, cands, EngagementOf) && c in cands && c.author !in KeysOf(top, SummaryAuthor)
    ensures forall i :: 0 <= i < |top| ==> c.totalEngagement <= top[i].totalEngagement
  {
    assert c in multiset(cands) && c !in multiset(top);
    assert c in multiset(cands) - multiset(top);
    forall i | 0 <= i < |top| ensures c.totalEngagement <= top[i].totalEngagement {
      assert EngagementOf(c) <= EngagementOf(top[i]);
    }
  }

  /** The first loop of `_analyze_authors`: one tally per author, skipping empty and deleted ones. */
  method TallyAuthors(posts: seq<Post>) returns (stats: seq<(string, Tally)>)
    ensures stats == AuthorTallies(posts)
  {
    stats := [];
    var i := 0;
    while i < |posts|
      invariant 0 <= i <= |posts|
      invariant stats == AuthorTallies(posts[..i])
    {
      var post := posts[i];
      assert posts[..i + 1][..i] == posts[..i];
      ghost var kept := Without(posts[..i], AuthorOf, SkippedAuthors);
      if post.author != "" && post.author != Deleted {
        stats := Upsert(stats, post.author, Tally(0, 0, 0), StepWith(AddPost, post));
        assert Without(posts[..i + 1], AuthorOf, SkippedAuthors) == kept + [post];
        assert (kept + [post])[..|kept|] == kept;
      } else {
        assert Without(posts[..i + 1], AuthorOf, SkippedAuthors) == kept + [] == kept;
      }
      i := i + 1;
    }
    assert posts[..i] == posts;
  }

  /** The second loop of `_analyze_authors`: a summary for every author with more than one post. */
  method AuthorCandidates(stats: seq<(string, Tally)>) returns (top: seq<AuthorSummary>)
    ensures top == Candidates(stats)
  {
    top := [];
    var j := 0;
    while j < |stats|
      invariant 0 <= j <= |stats|
      invariant top == Candidates(stats[..j])
    {
      var (author, t) := stats[j];
      assert stats[..j + 1][..j] == stats[..j];
      if t.posts > 1 {
        top := top + [AuthorSummary(author, t.posts, t.totalScore as real / t.posts as real, t.totalScore + t.totalComments)];
      }
      j := j + 1;
    }
    assert stats[..j] == stats;
  }

  /**
   * `_analyze_authors`: tallies the posts of every author that is not skipped, collects the ones
   * with more than one post, and sorts them by engagement.
   */
  method AnalyzeAuthors(posts: seq<Post>) returns (r: AuthorTrends)
    ensures r == AuthorTrendsOf(posts)
  {
    var stats := TallyAuthors(posts);
    var top := AuthorCandidates(stats);
    top := SortDesc(top, EngagementOf);
    r := AuthorTrends(|stats|, ActiveCount(stats), Prefix(top, 10));
  }

  // ---------------------------------------------------------------- subreddits

  /** One `subreddit_stats` entry. */
  datatype SubStats = SubStats(posts: int, totalScore: int, avgScore: real)

  function AddSubPost(t: SubStats, p: Post): SubStats
  {
    SubStats(t.posts + 1, t.totalScore + p.score, t.avgScore)
  }

  function SubredditOf(p: Post): string
  {
    p.subreddit
  }

  /** The `subreddit_stats` dictionary after the counting loop, every average still 0. */
  function SubredditTallies(posts: seq<Post>): seq<(string, SubStats)>
  {
    Accumulate(Without(posts, SubredditOf, {""}), SubredditOf, SubStats(0, 0, 0.0), AddSubPost)
  }

  /** The averaging loop: `avg_score = total_score / posts` wherever `posts > 0`. */
  function WithAverage(e: (string, SubStats)): (string, SubStats)
  {
    if e.1.posts > 0 then (e.0, e.1.(avgScore := e.1.totalScore as real / e.1.posts as real)) else e
  }

  function WithAverages(m: seq<(string, SubStats)>): seq<(string, SubStats)>
  {
    seq(|m|, i requires 0 <= i < |m| => WithAverage(m[i]))
  }

  function SubTotalOf(e: (string, SubStats)): real
  {
    e.1.totalScore as real
  }

  lemma {:induction false} FoldAddSubPost(s: seq<Post>)
    ensures Fold(s, SubStats(0, 0, 0.0), AddSubPost) == SubStats(|s|, SumScore(s), 0.0)
    decreases |s|
  {
    if s != [] {
      FoldAddSubPost(s[..|s| - 1]);
    }
  }

  datatype SubredditTrends = SubredditTrends(total: nat, performance: seq<(string, SubStats)>)

  function SubredditTrendsOf(posts: seq<Post>): SubredditTrends
  {
    var m := WithAverages(SubredditTallies(posts));
    SubredditTrends(|m|, Prefix(SortDesc(m, SubTotalOf), 10))
  }

  /** Predicate form of one performance entry's meaning. */
  predicate SubEntryFaithful(posts: seq<Post>, e: (string, SubStats))
  {
    var own := KeyFilter(posts, SubredditOf, e.0);
    && e.0 != ""
    && e.1.posts == |own| > 0
    && e.1.totalScore == SumScore(own)
    && e.1.avgScore == SumScore(own) as real / |own| as real
  }

  /**
   * After the averaging loop, `subreddit_stats` holds one entry per distinct non-empty subreddit,
   * with its post count, total score and average score.
   */
  lemma SubredditStatsProps(posts: seq<Post>)
    ensures var m := WithAverages(SubredditTallies(posts));
      && UniqueKeys(m)
      && Keys(m) == FirstOccurrences(KeysOf(Without(posts, SubredditOf, {""}), SubredditOf))
      && forall e :: e in m ==> SubEntryFaithful(posts, e)
  {
    var kept := Without(posts, SubredditOf, {""});
    var t := SubredditTallies(posts);
    var m := WithAverages(t);
    AccumulateEntries(kept, SubredditOf, SubStats(0, 0, 0.0), AddSubPost);
    assert Keys(m) == Keys(t);
    forall e | e in m ensures SubEntryFaithful(posts, e) {
      var i :| 0 <= i < |m| && m[i] == e;
      WithoutKeyFilter(posts, SubredditOf, {""}, e.0);
      FoldAddSubPost(KeyFilter(kept, SubredditOf, e.0));
    }
  }

  /**
   * `total_subreddits` counts the distinct non-empty subreddits; `subreddit_performance` holds
   * `min(total, 10)` of them, distinct, each with its post count, total score and average score.
   * It is the top of the communities by total score: a community left out has no higher total than
   * any kept, and communities kept with equal totals are the first ones in order of first post.
   */
  lemma SubredditTrendsProps(posts: seq<Post>, v: real)
    ensures var r := SubredditTrendsOf(posts); var m := WithAverages(SubredditTallies(posts));
      && r.total == |FirstOccurrences(KeysOf(Without(posts, SubredditOf, {""}), SubredditOf))|
      && |r.performance| == (if r.total <= 10 then r.total else 10)
      && IsTopOf(r.performance, m, SubTotalOf)
      && |WithKey(r.performance, SubTotalOf, v)| <= |WithKey(m, SubTotalOf, v)|
      && WithKey(r.performance, SubTotalOf, v) == WithKey(m, SubTotalOf, v)[..|WithKey(r.performance, SubTotalOf, v)|]
      && UniqueKeys(r.performance)
      && (forall e :: e in r.performance ==> SubEntryFaithful(posts, e))
      && (forall c, i :: c != "" && KeyFilter(posts, SubredditOf, c) != [] && c !in Keys(r.performance) && 0 <= i < |r.performance| ==>
            SumScore(KeyFilter(posts, SubredditOf, c)) <= r.performance[i].1.totalScore)
  {
    var m := WithAverages(SubredditTallies(posts));
    var r := SubredditTrendsOf(posts);
    assert r == SubredditTrends(|m|, Prefix(SortDesc(m, SubTotalOf), 10));
    SubredditStatsProps(posts);
    SubredditTop(posts, m, v);
    SubredditsLeftOut(posts, r.performance);
  }

  /** The cut of faithful stats with one entry per community: all the facts but dominance over communities. */
  lemma SubredditTop(posts: seq<Post>, m: seq<(string, SubStats)>, v: real)
    requires UniqueKeys(m)
    requires Keys(m) == FirstOccurrences(KeysOf(Without(posts, SubredditOf, {""}), SubredditOf))
    requires forall e :: e in m ==> SubEntryFaithful(posts, e)
    ensures var p := Prefix(SortDesc(m, SubTotalOf), 10);
      && |m| == |FirstOccurrences(KeysOf(Without(posts, SubredditOf, {""}), SubredditOf))|
      && |p| == (if |m| <= 10 then |m| else 10)
      && IsTopOf(p, m, SubTotalOf)
      && |WithKey(p, SubTotalOf, v)| <= |WithKey(m, SubTotalOf, v)|
      && WithKey(p, SubTotalOf, v) == WithKey(m, SubTotalOf, v)[..|WithKey(p, SubTotalOf, v)|]
      && UniqueKeys(p)
      && (forall e :: e in p ==> SubEntryFaithful(posts, e))
  {
    SubredditCut(m, v);
    assert |Keys(m)| == |m|;
    CutFaithful(posts, m, Prefix(SortDesc(m, SubTotalOf), 10));
  }

  /** Every entry of a top cut of faithful stats is faithful. */
  lemma CutFaithful(posts: seq<Post>, m: seq<(string, SubStats)>, top: seq<(string, SubStats)>)
    requires forall e :: e in m ==> SubEntryFaithful(posts, e)
    requires IsTopOf(top, m, SubTotalOf)
    ensures forall e :: e in top ==> SubEntryFaithful(posts, e)
  {
    forall e | e in top ensures e in m {
      assert e in multiset(top);
    }
  }

  /** The cut of any stats with distinct keys: its length, the top by total score, stable, with distinct keys. */
  lemma SubredditCut(m: seq<(string, SubStats)>, v: real)
    requires UniqueKeys(m)
    ensures var p := Prefix(SortDesc(m, SubTotalOf), 10);
      && |p| == (if |m| <= 10 then |m| else 10)
      && IsTopOf(p, m, SubTotalOf)
      && |WithKey(p, SubTotalOf, v)| <= |WithKey(m, SubTotalOf, v)|
      && WithKey(p, SubTotalOf, v) == WithKey(m, SubTotalOf, v)[..|WithKey(p, SubTotalOf, v)|]
      && UniqueKeys(p)
  {
    var sorted := SortDesc(m, SubTotalOf);
    TopCut(m, SubTotalOf, 10);
    TopCutStable(m, SubTotalOf, 10, v);
    PermutationUniqueKeys(m, sorted);
    PrefixUniqueKeys(sorted, 10);
  }

  /** A non-empty community missing from a top cut of the stats has no higher total score than any kept. */
  lemma SubredditsLeftOut(posts: seq<Post>, top: seq<(string, SubStats)>)
    requires IsTopOf(top, WithAverages(SubredditTallies(posts)), SubTotalOf)
    ensures forall c, i :: c != "" && KeyFilter(posts, SubredditOf, c) != [] && c !in Keys(top) && 0 <= i < |top| ==>
      SumScore(KeyFilter(posts, SubredditOf, c)) <= top[i].1.totalScore
  {
    var m := WithAverages(SubredditTallies(posts));
    var kept := Without(posts, SubredditOf, {""});
    SubredditStatsProps(posts);
    forall c | c != "" && KeyFilter(posts, SubredditOf, c) != [] && c !in Keys(top)
      ensures forall i :: 0 <= i < |top| ==> SumScore(KeyFilter(posts, SubredditOf, c)) <= top[i].1.totalScore
    {
      WithoutKeyFilter(posts, SubredditOf, {""}, c);
      var own := KeyFilter(kept, SubredditOf, c);
      KeyFilterKeys(kept, SubredditOf, c);
      assert own[0] in own;
      var x :| 0 <= x < |kept| && kept[x] == own[0];
      assert KeysOf(kept, SubredditOf)[x] == c;
      FirstOccurrencesHas(KeysOf(kept, SubredditOf), c);
      var j :| 0 <= j < |m| && Keys(m)[j] == c;
      StatsLeftOut(m, top, m[j]);
      assert SubEntryFaithful(posts, m[j]);
    }
  }

  /** An entry whose key is missing from a top cut by total score has no higher total than any kept. */
  lemma StatsLeftOut(m: seq<(string, SubStats)>, top: seq<(string, SubStats)>, e: (string, SubStats))
    requires IsTopOf(top, m, SubTotalOf) && e in m && e.0 !in Keys(top)
    ensures forall i :: 0 <= i < |top| ==> e.1.totalScore <= top[i].1.totalScore
  {
    assert e in multiset(m) && e !in multiset(top);
    assert e in multiset(m) - multiset(top);
    forall i | 0 <= i < |top| ensures e.1.totalScore <= top[i].1.totalScore {
      assert SubTotalOf(e) <= SubTotalOf(top[i]);
    }
  }

  /** The first loop of `_analyze_subreddits`: one tally per named subreddit. */
  method TallySubreddits(posts: seq<Post>) returns (stats: seq<(string, SubStats)>)
    ensures stats == SubredditTallies(posts)
  {
    stats := [];
    var i := 0;
    while i < |posts|
      invariant 0 <= i <= |posts|
      invariant stats == SubredditTallies(posts[..i])
    {
      var post := posts[i];
      assert posts[..i + 1][..i] == posts[..i];
      ghost var kept := Without(posts[..i], SubredditOf, {""});
      if post.subreddit != "" {
        stats := Upsert(stats, post.subreddit, SubStats(0, 0, 0.0), StepWith(AddSubPost, post));
        assert Without(posts[..i + 1], SubredditOf, {""}) == kept + [post];
        assert (kept + [post])[..|kept|] == kept;
      } else {
        assert Without(posts[..i + 1], SubredditOf, {""}) == kept + [] == kept;
      }
      i := i + 1;
    }
    assert posts[..i] == posts;
  }

  /** The second loop of `_analyze_subreddits`: each tally's average score filled in, in place. */
  method FillAverages(tallies: seq<(string, SubStats)>) returns (stats: seq<(string, SubStats)>)
    ensures stats == WithAverages(tallies)
  {
    stats := tallies;
    var j := 0;
    while j < |stats|
      invariant 0 <= j <= |stats| == |tallies|
      invariant forall k :: 0 <= k < j ==> stats[k] == WithAverage(tallies[k])
      invariant forall k :: j <= k < |stats| ==> stats[k] == tallies[k]
    {
      var (name, t) := stats[j];
      if t.posts > 0 {
        stats := stats[j := (name, t.(avgScore := t.totalScore as real / t.posts as real))];
      }
      j := j + 1;
    }
  }

  /**
   * `_analyze_subreddits`: tallies the posts of every non-empty subreddit, fills in each average,
   * then sorts the entries by total score.
   */
  method AnalyzeSubreddits(posts: seq<Post>) returns (r: SubredditTrends)
    ensures r == SubredditTrendsOf(posts)
  {
    var stats := TallySubreddits(posts);
    stats := FillAverages(stats);
    var sorted := SortDesc(stats, SubTotalOf);
    r := SubredditTrends(|stats|, Prefix(sorted, 10));
  }

  // ---------------------------------------------------------------- engagement

  /** Comments per point of score. */
  function Ratio(p: Post): real
    requires p.score > 0
  {
    p.numComments as real / p.score as real
  }

  /** A post with positive score whose comment ratio exceeds 10%. */
  predicate HighEngagement(p: Post)
  {
    p.score > 0 && Ratio(p) > 0.1
  }

  /** The ratio test is the cross-multiplied comparison `10 * comments > score`. */
  lemma HighEngagementIff(p: Post)
    ensures HighEngagement(p) <==> p.score > 0 && 10 * p.numComments > p.score
  {
    if p.score > 0 {
      var c := p.numComments as real;
      var s := p.score as real;
      var d := Ratio(p) - 0.1;
      assert Ratio(p) * s == c;
      assert d * s == c - 0.1 * s;
      if d > 0.0 {
        assert d * s > 0.0;
      } else {
        assert d * s <= 0.0;
      }
    }
  }

  /** A post with score 100 is flagged with 15 comments and not with 5. */
  lemma HighEngagementExamples(p: Post)
    requires p.score == 100
    ensures HighEngagement(p.(numComments := 15))
    ensures !HighEngagement(p.(numComments := 5))
  {
    HighEngagementIff(p.(numComments := 15));
    HighEngagementIff(p.(numComments := 5));
  }

  /** The posts with positive score, in input order. */
  function PositiveScore(posts: seq<Post>): seq<Post>
  {
    if posts == [] then []
    else
      var p := posts[|posts| - 1];
      PositiveScore(posts[..|posts| - 1]) + (if p.score > 0 then [p] else [])
  }

  /** The filter keeps exactly the posts with positive score. */
  lemma {:induction false} PositiveScoreMembers(posts: seq<Post>)
    ensures var r := PositiveScore(posts);
      && |r| <= |posts|
      && (forall p :: p in r <==> p in posts && p.score > 0)
      && forall i :: 0 <= i < |r| ==> r[i].score > 0
    decreases |posts|
  {
    if posts != [] {
      var init := posts[..|posts| - 1];
      PositiveScoreMembers(init);
      assert posts == init + [posts[|posts| - 1]];
    }
  }

  /** The filter goes post by post: on a concatenation it keeps each part's posts, in order. */
  lemma {:induction false} PositiveScoreAppend(a: seq<Post>, b: seq<Post>)
    ensures PositiveScore(a + b) == PositiveScore(a) + PositiveScore(b)
    decreases |b|
  {
    if b != [] {
      var init := b[..|b| - 1];
      PositiveScoreAppend(a, init);
      assert (a + b)[..|a + b| - 1] == a + init && (a + b)[|a + b| - 1] == b[|b| - 1];
    } else {
      assert a + b == a;
    }
  }

  /** `engagement_ratios`: one ratio per post with positive score, in input order. */
  function Ratios(posts: seq<Post>): (r: seq<real>)
    ensures var s := PositiveScore(posts); |r| == |s| && forall i :: 0 <= i < |s| ==> s[i].score > 0 && r[i] == Ratio(s[i])
  {
    if posts == [] then []
    else
      var p := posts[|posts| - 1];
      Ratios(posts[..|posts| - 1]) + (if p.score > 0 then [Ratio(p)] else [])
  }

  /** `high_engagement_posts` before sorting. */
  function HighPosts(posts: seq<Post>): (r: seq<Post>)
    ensures |r| <= |posts|
    ensures forall p :: p in r <==> p in posts && HighEngagement(p)
  {
    if posts == [] then []
    else
      var p := posts[|posts| - 1];
      var init := posts[..|posts| - 1];
      assert posts == init + [p];
      HighPosts(init) + (if HighEngagement(p) then [p] else [])
  }

  function Sum(xs: seq<real>): real
  {
    if xs == [] then 0.0 else Sum(xs[..|xs| - 1]) + xs[|xs| - 1]
  }

  /** `statistics.mean(xs) if xs else 0` */
  function Mean(xs: seq<real>): real
  {
    if xs == [] then 0.0 else Sum(xs) / |xs| as real
  }

  function RealKey(x: real): real
  {
    x
  }

  /** The middle value of a non-empty list, or the mean of the two middle values. */
  function Middle(d: seq<real>): real
    requires d != []
  {
    var n := |d|;
    if n % 2 == 1 then d[n / 2] else (d[n / 2 - 1] + d[n / 2]) / 2.0
  }

  /**
   * `statistics.median(xs) if xs else 0`. The middle of the ascending order is the middle of the
   * descending one, so the descending sort serves.
   */
  function Median(xs: seq<real>): real
  {
    if xs == [] then 0.0 else Middle(SortDesc(xs, RealKey))
  }

  lemma {:induction false} SumBounds(xs: seq<real>, lo: real, hi: real)
    requires forall i :: 0 <= i < |xs| ==> lo <= xs[i] <= hi
    ensures lo * |xs| as real <= Sum(xs) <= hi * |xs| as real
    decreases |xs|
  {
    if xs != [] {
      SumBounds(xs[..|xs| - 1], lo, hi);
    }
  }

  /** The mean lies within any bounds on the values. */
  lemma MeanBounds(xs: seq<real>, lo: real, hi: real)
    requires xs != []
    requires forall i :: 0 <= i < |xs| ==> lo <= xs[i] <= hi
    ensures lo <= Mean(xs) <= hi
  {
    SumBounds(xs, lo, hi);
    var n := |xs| as real;
    var mu := Mean(xs);
    assert mu * n == Sum(xs);
    assert (mu - lo) * n == Sum(xs) - lo * n >= 0.0;
    assert (hi - mu) * n == hi * n - Sum(xs) >= 0.0;
  }

  lemma MiddleSplits(d: seq<real>)
    requires d != [] && SortedDesc(d, RealKey)
    ensures var n := |d|;
      && (forall i :: 0 <= i < n / 2 ==> d[i] >= Middle(d))
      && (forall i :: n - n / 2 <= i < n ==> d[i] <= Middle(d))
  {
    var n := |d|;
    var h := n / 2;
    assert n == 2 * h || n == 2 * h + 1;
    if n % 2 == 1 {
      assert n == 2 * h + 1;
      forall i | 0 <= i < h ensures d[i] >= Middle(d) {
        assert RealKey(d[i]) >= RealKey(d[h]);
      }
      forall i | n - h <= i < n ensures d[i] <= Middle(d) {
        assert RealKey(d[h]) >= RealKey(d[i]);
      }
    } else {
      assert n == 2 * h && h >= 1;
      assert RealKey(d[h - 1]) >= RealKey(d[h]);
      forall i | 0 <= i < h ensures d[i] >= Middle(d) {
        assert RealKey(d[i]) >= RealKey(d[h - 1]) || i == h - 1;
      }
      forall i | n - h <= i < n ensures d[i] <= Middle(d) {
        assert RealKey(d[h]) >= RealKey(d[i]) || i == h;
      }
    }
  }

  /**
   * The median splits the sorted values in half: the first half of them are at least the median,
   * the last half at most.
   */
  lemma MedianSplits(xs: seq<real>)
    requires xs != []
    ensures var d := SortDesc(xs, RealKey); var n := |xs|;
      && multiset(d) == multiset(xs)
      && (forall i :: 0 <= i < n / 2 ==> d[i] >= Median(xs))
      && (forall i :: n - n / 2 <= i < n ==> d[i] <= Median(xs))
  {
    SortDescSorted(xs, RealKey);
    MiddleSplits(SortDesc(xs, RealKey));
  }

  datatype EngagementTrends = EngagementTrends(avgRatio: real, medianRatio: real, highCount: nat, top: seq<Post>)

  function EngagementTrendsOf(posts: seq<Post>): EngagementTrends
  {
    var ratios := Ratios(posts);
    var high := HighPosts(posts);
    EngagementTrends(Mean(ratios), Median(ratios), |high|, Prefix(SortDesc(high, CommentsOf), 5))
  }

  /**
   * `top_engagement_posts` holds `min(high_engagement_count, 5)` high-engagement input posts: the
   * top of them by comments. A high-engagement post left out has no more comments than any kept,
   * and the posts kept with equal comment counts are the first ones in input order.
   */
  lemma EngagementTrendsProps(posts: seq<Post>, v: real)
    ensures var r := EngagementTrendsOf(posts); var high := HighPosts(posts);
      && r.highCount == |high|
      && |r.top| == (if r.highCount <= 5 then r.highCount else 5)
      && IsTopOf(r.top, high, CommentsOf)
      && |WithKey(r.top, CommentsOf, v)| <= |WithKey(high, CommentsOf, v)|
      && WithKey(r.top, CommentsOf, v) == WithKey(high, CommentsOf, v)[..|WithKey(r.top, CommentsOf, v)|]
      && (forall p :: p in r.top ==> p in posts && HighEngagement(p))
      && (forall p, i :: p in posts && HighEngagement(p) && p !in r.top && 0 <= i < |r.top| ==> p.numComments <= r.top[i].numComments)
  {
    var high := HighPosts(posts);
    var top := Prefix(SortDesc(high, CommentsOf), 5);
    assert EngagementTrendsOf(posts).top == top && EngagementTrendsOf(posts).highCount == |high|;
    EngagementCut(high, v);
  }

  /** The cut of any list of posts by comments: its length, the top, stable, and dominance over every post left out. */
  lemma EngagementCut(high: seq<Post>, v: real)
    ensures var top := Prefix(SortDesc(high, CommentsOf), 5);
      && |top| == (if |high| <= 5 then |high| else 5)
      && IsTopOf(top, high, CommentsOf)
      && |WithKey(top, CommentsOf, v)| <= |WithKey(high, CommentsOf, v)|
      && WithKey(top, CommentsOf, v) == WithKey(high, CommentsOf, v)[..|WithKey(top, CommentsOf, v)|]
      && (forall p :: p in top ==> p in high)
      && (forall p, i :: p in high && p !in top && 0 <= i < |top| ==> p.numComments <= top[i].numComments)
  {
    var top := Prefix(SortDesc(high, CommentsOf), 5);
    TopCut(high, CommentsOf, 5);
    TopCutStable(high, CommentsOf, 5, v);
    TopByComments(high, top);
  }

  /** The top of a list by comments is drawn from it, and no post it leaves out has more comments than one it keeps. */
  lemma TopByComments(high: seq<Post>, top: seq<Post>)
    requires IsTopOf(top, high, CommentsOf)
    ensures forall p :: p in top ==> p in high
    ensures forall p, i :: p in high && p !in top && 0 <= i < |top| ==> p.numComments <= top[i].numComments
  {
    forall p | p in top ensures p in high {
      assert p in multiset(top);
    }
    forall p, i | p in high && p !in top && 0 <= i < |top| ensures p.numComments <= top[i].numComments {
      assert p in multiset(high) && p !in multiset(top);
      assert p in multiset(high) - multiset(top);
      assert CommentsOf(p) <= CommentsOf(top[i]);
    }
  }

  lemma EngagementStep(posts: seq<Post>, i: nat)
    requires i < |posts|
    ensures Ratios(posts[..i + 1]) == Ratios(posts[..i]) + (if posts[i].score > 0 then [Ratio(posts[i])] else [])
    ensures HighPosts(posts[..i + 1]) == HighPosts(posts[..i]) + (if HighEngagement(posts[i]) then [posts[i]] else [])
  {
    assert posts[..i + 1][..i] == posts[..i];
  }

  /** `_analyze_engagement`: collects the ratios and the high-engagement posts, then sorts the latter by comments. */
  method AnalyzeEngagement(posts: seq<Post>) returns (r: EngagementTrends)
    ensures r == EngagementTrendsOf(posts)
  {
    var ratios: seq<real> := [];
    var high: seq<Post> := [];
    var i := 0;
    while i < |posts|
      invariant 0 <= i <= |posts|
      invariant ratios == Ratios(posts[..i])
      invariant high == HighPosts(posts[..i])
    {
      var post := posts[i];
      EngagementStep(posts, i);
      if post.score > 0 {
        var ratio := post.numComments as real / post.score as real;
        ratios := ratios + [ratio];
        if ratio > 0.1 {
          high := high + [post];
        }
      }
      i := i + 1;
    }
    assert posts[..i] == posts;
    high := SortDesc(high, CommentsOf);
    r := EngagementTrends(Mean(ratios), Median(ratios), |high|, Prefix(high, 5));
  }

  // ---------------------------------------------------------------- time distribution

  /** One `timeframe_stats` entry. */
  datatype TimeframeStats = TimeframeStats(totalPosts: int, avgScore: real, avgComments: real)

  function GroupTimeframe(g: Group<Post>): string
  {
    Timeframe(g.key)
  }

  /**
   * What one key's list adds to its timeframe's entry: its length, and, when it is not empty, its
   * mean score and mean comment count.
   */
  function AddGroup(t: TimeframeStats, g: Group<Post>): TimeframeStats
  {
    var n := |g.posts|;
    if n == 0 then t
    else TimeframeStats(t.totalPosts + n,
      t.avgScore + SumScore(g.posts) as real / n as real,
      t.avgComments + SumComments(g.posts) as real / n as real)
  }

  /** The `timeframe_stats` dictionary. */
  function TimeDistributionOf(groups: seq<Group<Post>>): seq<(string, TimeframeStats)>
  {
    Accumulate(groups, GroupTimeframe, TimeframeStats(0, 0.0, 0.0), AddGroup)
  }

  /** The mean of `f` over each key that has posts, in key order. */
  function KeyMeans(gs: seq<Group<Post>>, f: Post -> real): seq<real>
  {
    if gs == [] then []
    else
      var g := gs[|gs| - 1];
      KeyMeans(gs[..|gs| - 1], f) + (if g.posts == [] then [] else [Mean(KeysOf(g.posts, f))])
  }

  lemma {:induction false} SumValues(s: seq<Post>)
    ensures Sum(KeysOf(s, ScoreOf)) == SumScore(s) as real
    ensures Sum(KeysOf(s, CommentsOf)) == SumComments(s) as real
    decreases |s|
  {
    if s != [] {
      var init := s[..|s| - 1];
      SumValues(init);
      assert KeysOf(s, ScoreOf)[..|s| - 1] == KeysOf(init, ScoreOf);
      assert KeysOf(s, CommentsOf)[..|s| - 1] == KeysOf(init, CommentsOf);
    }
  }

  lemma SumAppend(xs: seq<real>, ys: seq<real>)
    requires |ys| <= 1
    ensures Sum(xs + ys) == Sum(xs) + Sum(ys)
  {
    if ys != [] {
      assert (xs + ys)[..|xs|] == xs;
      assert ys[..0] == [];
    } else {
      assert xs + ys == xs;
    }
  }

  /** Adding up the groups gives their post count and the sums of their per-key mean score and comments. */
  lemma {:induction false} FoldAddGroup(gs: seq<Group<Post>>)
    ensures Fold(gs, TimeframeStats(0, 0.0, 0.0), AddGroup)
      == TimeframeStats(TotalLen(gs), Sum(KeyMeans(gs, ScoreOf)), Sum(KeyMeans(gs, CommentsOf)))
    decreases |gs|
  {
    if gs != [] {
      var init := gs[..|gs| - 1];
      var g := gs[|gs| - 1];
      FoldAddGroup(init);
      if g.posts != [] {
        SumValues(g.posts);
      }
      SumAppend(KeyMeans(init, ScoreOf), if g.posts == [] then [] else [Mean(KeysOf(g.posts, ScoreOf))]);
      SumAppend(KeyMeans(init, CommentsOf), if g.posts == [] then [] else [Mean(KeysOf(g.posts, CommentsOf))]);
    }
  }

  /**
   * `timeframe_stats` holds one entry per distinct timeframe, in order of first key. Its
   * `total_posts` is the number of posts under all keys with that timeframe; its `avg_score` and
   * `avg_comments` are the sums, over those keys that have posts, of each key's mean.
   */
  lemma TimeDistributionProps(groups: seq<Group<Post>>)
    ensures var m := TimeDistributionOf(groups);
      && UniqueKeys(m)
      && Keys(m) == FirstOccurrences(KeysOf(groups, GroupTimeframe))
      && forall i :: 0 <= i < |m| ==> var own := KeyFilter(groups, GroupTimeframe, m[i].0);
           && m[i].1.totalPosts == TotalLen(own)
           && m[i].1.avgScore == Sum(KeyMeans(own, ScoreOf))
           && m[i].1.avgComments == Sum(KeyMeans(own, CommentsOf))
  {
    var m := TimeDistributionOf(groups);
    AccumulateEntries(groups, GroupTimeframe, TimeframeStats(0, 0.0, 0.0), AddGroup);
    forall i | 0 <= i < |m| ensures var own := KeyFilter(groups, GroupTimeframe, m[i].0);
           && m[i].1.totalPosts == TotalLen(own)
           && m[i].1.avgScore == Sum(KeyMeans(own, ScoreOf))
           && m[i].1.avgComments == Sum(KeyMeans(own, CommentsOf))
    {
      FoldAddGroup(KeyFilter(groups, GroupTimeframe, m[i].0));
    }
  }

  /**
   * The "averages" add up the per-key means: two keys of one timeframe holding one post each, scored
   * 10 and 30, give an `avg_score` of 40, not 20.
   */
  lemma TimeDistributionSumsMeans(g1: Group<Post>, g2: Group<Post>, p: Post, q: Post)
    requires Timeframe(g1.key) == Timeframe(g2.key)
    requires g1.posts == [p] && p.score == 10
    requires g2.posts == [q] && q.score == 30
    ensures TimeDistributionOf([g1, g2]) == [(Timeframe(g1.key), TimeframeStats(2, 40.0, (p.numComments + q.numComments) as real))]
  {
    var gs := [g1, g2];
    var k := Timeframe(g1.key);
    var zero := TimeframeStats(0, 0.0, 0.0);
    assert gs[..1] == [g1] && [g1][..0] == [] && [p][..0] == [] && [q][..0] == [];
    assert SumScore([p]) == 10 && SumScore([q]) == 30;
    assert SumComments([p]) == p.numComments && SumComments([q]) == q.numComments;
    var s1 := TimeframeStats(1, 10.0, p.numComments as real);
    assert AddGroup(zero, g1) == s1;
    var m1 := TimeDistributionOf([g1]);
    assert Accumulate([g1][..0], GroupTimeframe, zero, AddGroup) == [];
    assert GroupTimeframe(g1) == k;
    assert m1 == Upsert([], k, zero, StepWith(AddGroup, g1));
    assert m1 == [(k, s1)];
    assert IndexOf(m1, Timeframe(g2.key)) == Some(0);
    assert AddGroup(s1, g2) == TimeframeStats(2, 40.0, (p.numComments + q.numComments) as real);
  }

  /** `_analyze_time_distribution`: adds each key's length and means to its timeframe's entry. */
  method AnalyzeTimeDistribution(groups: seq<Group<Post>>) returns (stats: seq<(string, TimeframeStats)>)
    ensures stats == TimeDistributionOf(groups)
  {
    stats := [];
    var i := 0;
    while i < |groups|
      invariant 0 <= i <= |groups|
      invariant stats == TimeDistributionOf(groups[..i])
    {
      var g := groups[i];
      assert groups[..i + 1][..i] == groups[..i];
      stats := Upsert(stats, Timeframe(g.key), TimeframeStats(0, 0.0, 0.0), StepWith(AddGroup, g));
      i := i + 1;
    }
    assert groups[..i] == groups;
  }

  // ---------------------------------------------------------------- all together

  datatype Analysis = Analysis(
    keywords: KeywordTrends,
    authors: AuthorTrends,
    subreddits: SubredditTrends,
    engagement: EngagementTrends,
    timeDistribution: seq<(string, TimeframeStats)>)

  /** `analyze_trends`: nothing when there is no post at all, otherwise the five analyses. */
  function AnalysisOf(groups: seq<Group<Post>>): Option<Analysis>
  {
    var all := Flatten(groups);
    if all == [] then None
    else Some(Analysis(KeywordTrendsOf(all), AuthorTrendsOf(all), SubredditTrendsOf(all),
      EngagementTrendsOf(all), TimeDistributionOf(groups)))
  }

  /** The analysis is empty exactly when every group is. */
  lemma AnalysisEmptyIff(groups: seq<Group<Post>>)
    ensures AnalysisOf(groups).None? <==> forall i :: 0 <= i < |groups| ==> groups[i].posts == []
  {
    FlattenEmpty(groups);
  }

  /** `analyze_trends`: gathers every post of every key, then runs the five analyses. */
  method AnalyzeTrends(groups: seq<Group<Post>>) returns (r: Option<Analysis>)
    ensures r == AnalysisOf(groups)
  {
    var all: seq<Post> := [];
    var i := 0;
    while i < |groups|
      invariant 0 <= i <= |groups|
      invariant all == Flatten(groups[..i])
    {
      assert groups[..i + 1][..i] == groups[..i];
      all := all + groups[i].posts;
      i := i + 1;
    }
    assert groups[..i] == groups;
    if all == [] {
      return None;
    }
    var keywords := AnalyzeKeywords(all);
    var authors := AnalyzeAuthors(all);
    var subreddits := AnalyzeSubreddits(all);
    var engagement := AnalyzeEngagement(all);
    var time := AnalyzeTimeDistribution(groups);
    r := Some(Analysis(keywords, authors, subreddits, engagement, time));
  }
}
