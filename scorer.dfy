/**
 * The scoring stage (`QualityScorer`): a 0-100 quality score per post made of four bucketed parts
 * (interaction, content, freshness, trend relevance), annotation of every post that has no score
 * yet, and a stable sort by descending score.
 */
module Scorer {

  import opened Wrappers
  import opened Text
  import opened Posts
  import opened OrderedMaps
  import opened Sorting
  import Cleaner
  import Analyzer

  type NonNeg = r: real | r >= 0.0

  /**
   * The two power curves of the interaction score, `score ** 0.5` and `comments ** 0.6`, taken as
   * given functions of a non-negative count with non-negative values.
   */
  datatype Curves = Curves(sqrt: nat -> NonNeg, pow06: nat -> NonNeg)

  function Min(a: real, b: real): real
  {
    if a <= b then a else b
  }

  // ---------------------------------------------------------------- interaction (0-40)

  /** `min(15, 5 * (1 + 2 * root / 100))`: from 5 upwards, capped at 15. */
  function ScorePoints(root: NonNeg): (r: real)
    ensures 5.0 <= r <= 15.0
  {
    Min(15.0, 5.0 * (1.0 + 2.0 * root / 100.0))
  }

  /** `min(15, 5 * (1 + 2 * root / 50))`: from 5 upwards, capped at 15. */
  function CommentPoints(root: NonNeg): (r: real)
    ensures 5.0 <= r <= 15.0
  {
    Min(15.0, 5.0 * (1.0 + 2.0 * root / 50.0))
  }

  /** Both curve scores grow with their root until they reach the cap. */
  lemma CurvePointsMonotone(a: NonNeg, b: NonNeg)
    requires a <= b
    ensures ScorePoints(a) <= ScorePoints(b) && CommentPoints(a) <= CommentPoints(b)
  {
  }

  /** Points for the upvote ratio, in steps of 0.1 from 0.6 to 0.9. */
  function RatioPoints(ratio: real): (r: int)
    ensures 2 <= r <= 10
  {
    if ratio >= 0.9 then 10
    else if ratio >= 0.8 then 8
    else if ratio >= 0.7 then 6
    else if ratio >= 0.6 then 4
    else 2
  }

  lemma RatioPointsMonotone(a: real, b: real)
    requires a <= b
    ensures RatioPoints(a) <= RatioPoints(b)
  {
  }

  /** `_score_interaction`: score and comments floored at 0, the ratio clamped to [0, 1]. */
  function Interaction(p: Post, curves: Curves): (r: real)
    ensures 12.0 <= r <= 40.0
  {
    var score := Cleaner.Floor0(p.score);
    var comments := Cleaner.Floor0(p.numComments);
    var ratio := Cleaner.Clamp01(p.upvoteRatio);
    ScorePoints(curves.sqrt(score)) + CommentPoints(curves.pow06(comments)) + RatioPoints(ratio) as real
  }

  // ---------------------------------------------------------------- content (0-20)

  function TitlePoints(len: nat): (r: int)
    ensures 2 <= r <= 8
  {
    if len > 50 then 8 else if len > 30 then 6 else if len > 15 then 4 else 2
  }

  function PreviewPoints(len: nat): (r: int)
    ensures 0 <= r <= 7
    ensures r == 0 <==> len == 0
  {
    if len > 500 then 7 else if len > 200 then 5 else if len > 100 then 3 else if len > 0 then 1 else 0
  }

  /** Longer titles and previews never score less. */
  lemma LengthPointsMonotone(a: nat, b: nat)
    requires a <= b
    ensures TitlePoints(a) <= TitlePoints(b) && PreviewPoints(a) <= PreviewPoints(b)
  {
  }

  /** The flairs that earn nothing, compared after lower-casing. */
  const GenericFlairs: seq<string> := ["general", "discussion", "other", ""]

  function FlairPoints(flair: string): (r: int)
    ensures r == 0 || r == 5
  {
    if flair != "" && Lower(flair) !in GenericFlairs then 5 else 0
  }

  /** A flair earns its 5 points exactly when it is not one of the generic ones in any letter case. */
  lemma FlairPointsIff(flair: string)
    ensures FlairPoints(flair) == 5 <==> Lower(flair) !in GenericFlairs
  {
    if flair == "" {
      assert Lower(flair) == "";
    }
  }

  /** `_score_content` */
  function Content(p: Post): (r: real)
    ensures 2.0 <= r <= 20.0
  {
    (TitlePoints(|p.title|) + PreviewPoints(|p.preview|) + FlairPoints(p.flair)) as real
  }

  // ---------------------------------------------------------------- freshness (0-15)

  /**
   * `_score_freshness` on the age in hours, or on `None` when the timestamp cannot be read (any
   * exception gives 5).
   */
  function Freshness(hoursOld: Option<real>): (r: real)
    ensures 2.0 <= r <= 15.0
    ensures hoursOld.None? ==> r == 5.0
  {
    match hoursOld
    case None => 5.0
    case Some(h) =>
      if h < 2.0 then 15.0
      else if h < 6.0 then 12.0
      else if h < 12.0 then 10.0
      else if h < 24.0 then 8.0
      else if h < 48.0 then 6.0
      else if h < 168.0 then 4.0
      else 2.0
  }

  /** An older post never scores more. */
  lemma FreshnessAntitone(a: real, b: real)
    requires a <= b
    ensures Freshness(Some(a)) >= Freshness(Some(b))
  {
  }

  // ---------------------------------------------------------------- trend relevance (0-25)

  /** How many of `keywords` occur, lower-cased, in `text`. */
  function CountMatching(keywords: seq<string>, text: string): (r: nat)
    ensures r <= |keywords|
  {
    if keywords == [] then 0
    else
      var kw := keywords[|keywords| - 1];
      CountMatching(keywords[..|keywords| - 1], text) + (if Contains(text, Lower(kw)) then 1 else 0)
  }

  function MatchPoints(matches: nat): (r: int)
    ensures 0 <= r <= 10
    ensures r == 0 <==> matches == 0
  {
    if matches >= 3 then 10 else if matches >= 2 then 8 else if matches >= 1 then 5 else 0
  }

  /** `_score_keyword_relevance`: matches among the first 10 trending keywords. */
  function KeywordRelevance(p: Post, trending: seq<string>): (r: int)
    ensures 0 <= r <= 10
  {
    if trending == [] then 0
    else MatchPoints(CountMatching(Prefix(trending, 10), Analyzer.PostText(p)))
  }

  /** More matching keywords never score less. */
  lemma MatchPointsMonotone(a: nat, b: nat)
    requires a <= b
    ensures MatchPoints(a) <= MatchPoints(b)
  {
  }

  /** The 1-based rank of `author` in `top`: the position of its first entry. */
  function RankOf(top: seq<Analyzer.AuthorSummary>, author: string): (r: Option<nat>)
    ensures r.Some? ==> 1 <= r.value <= |top| && top[r.value - 1].author == author
    ensures r.Some? ==> forall j :: 0 <= j < r.value - 1 ==> top[j].author != author
    ensures r.None? ==> forall j :: 0 <= j < |top| ==> top[j].author != author
  {
    if top == [] then None
    else if top[0].author == author then Some(1)
    else
      match RankOf(top[1..], author)
      case Some(k) => Some(k + 1)
      case None => None
  }

  function RankPoints(rank: Option<nat>): (r: int)
    ensures 0 <= r <= 8
    ensures r == 0 <==> rank.None?
  {
    match rank
    case None => 0
    case Some(k) => if k <= 3 then 8 else if k <= 5 then 6 else if k <= 10 then 4 else 2
  }

  /** A better (smaller) rank never scores less. */
  lemma RankPointsAntitone(a: nat, b: nat)
    requires a <= b
    ensures RankPoints(Some(a)) >= RankPoints(Some(b))
  {
  }

  /** `_score_author_activity` */
  function AuthorActivity(p: Post, top: seq<Analyzer.AuthorSummary>): (r: int)
    ensures 0 <= r <= 8
  {
    RankPoints(RankOf(top, p.author))
  }

  function AvgPoints(avg: real): (r: int)
    ensures 1 <= r <= 7
  {
    if avg > 100.0 then 7 else if avg > 50.0 then 5 else if avg > 20.0 then 3 else 1
  }

  lemma AvgPointsMonotone(a: real, b: real)
    requires a <= b
    ensures AvgPoints(a) <= AvgPoints(b)
  {
  }

  /** `_score_subreddit_activity`: 2 for a subreddit outside the performance table. */
  function SubredditActivity(p: Post, perf: seq<(string, Analyzer.SubStats)>): (r: int)
    ensures 1 <= r <= 7
    ensures IndexOf(perf, p.subreddit).None? ==> r == 2
  {
    match IndexOf(perf, p.subreddit)
    case Some(i) => AvgPoints(perf[i].1.avgScore)
    case None => 2
  }

  /** `_score_trend_relevance`: a flat 12 without an analysis. */
  function TrendRelevance(p: Post, analysis: Option<Analyzer.Analysis>): (r: real)
    ensures 0.0 <= r <= 25.0
    ensures analysis.None? ==> r == 12.0
  {
    match analysis
    case None => 12.0
    case Some(a) =>
      (KeywordRelevance(p, a.keywords.trending)
        + AuthorActivity(p, a.authors.top)
        + SubredditActivity(p, a.subreddits.performance)) as real
  }

  // ---------------------------------------------------------------- the score

  /** `_calculate_quality_score`: the four parts, capped at 100. */
  function QualityScore(p: Post, analysis: Option<Analyzer.Analysis>, curves: Curves, hoursOld: Option<real>): (r: real)
    ensures 0.0 <= r <= 100.0
  {
    Min(Interaction(p, curves) + Content(p) + Freshness(hoursOld) + TrendRelevance(p, analysis), 100.0)
  }

  /** The parts can reach 100 between them but never exceed it, so the cap never changes a score. */
  lemma QualityScoreIsSum(p: Post, analysis: Option<Analyzer.Analysis>, curves: Curves, hoursOld: Option<real>)
    ensures QualityScore(p, analysis, curves, hoursOld)
      == Interaction(p, curves) + Content(p) + Freshness(hoursOld) + TrendRelevance(p, analysis)
    ensures QualityScore(p, analysis, curves, hoursOld) >= 16.0
  {
  }

  /**
   * What the scoring loop leaves in a post: its own score if it already had one, otherwise the
   * computed one; `age` is the post's age in hours at scoring time, `None` if unreadable.
   */
  function Annotate(p: Post, analysis: Option<Analyzer.Analysis>, curves: Curves, age: Timestamp -> Option<real>): (q: Post)
    ensures q.qualityScore.Some?
    ensures p.qualityScore.Some? ==> q == p
    ensures p.qualityScore.None? ==> q == p.(qualityScore := Some(QualityScore(p, analysis, curves, age(p.created))))
  {
    if p.qualityScore.Some? then p
    else p.(qualityScore := Some(QualityScore(p, analysis, curves, age(p.created))))
  }

  function AnnotateAll(posts: seq<Post>, analysis: Option<Analyzer.Analysis>, curves: Curves, age: Timestamp -> Option<real>): (r: seq<Post>)
    ensures |r| == |posts|
    ensures forall i :: 0 <= i < |posts| ==> r[i] == Annotate(posts[i], analysis, curves, age)
  {
    seq(|posts|, i requires 0 <= i < |posts| => Annotate(posts[i], analysis, curves, age))
  }

  function QualityOf(p: Post): real
  {
    if p.qualityScore.Some? then p.qualityScore.value else 0.0
  }

  /** `score_posts`: annotate, then sort by descending quality score. */
  function Scored(posts: seq<Post>, analysis: Option<Analyzer.Analysis>, curves: Curves, age: Timestamp -> Option<real>): seq<Post>
  {
    SortDesc(AnnotateAll(posts, analysis, curves, age), QualityOf)
  }

  /**
   * The scored list is the annotated posts in descending order of quality score, ties in input
   * order; every post carries a score, and a freshly computed one lies in [0, 100].
   */
  lemma ScoredProps(posts: seq<Post>, analysis: Option<Analyzer.Analysis>, curves: Curves, age: Timestamp -> Option<real>, v: real)
    ensures var r := Scored(posts, analysis, curves, age); var a := AnnotateAll(posts, analysis, curves, age);
      && multiset(r) == multiset(a)
      && SortedDesc(r, QualityOf)
      && WithKey(r, QualityOf, v) == WithKey(a, QualityOf, v)
      && (forall q :: q in r ==> q.qualityScore.Some?)
      && ((forall i :: 0 <= i < |posts| ==> posts[i].qualityScore.None?) ==>
            forall q :: q in r ==> 0.0 <= q.qualityScore.value <= 100.0)
  {
    var a := AnnotateAll(posts, analysis, curves, age);
    var r := Scored(posts, analysis, curves, age);
    SortDescSorted(a, QualityOf);
    SortDescStable(a, QualityOf, v);
    forall q | q in r ensures q.qualityScore.Some? && ((forall i :: 0 <= i < |posts| ==> posts[i].qualityScore.None?) ==> 0.0 <= q.qualityScore.value <= 100.0) {
      assert q in multiset(a);
    }
  }

  /** Scoring an already scored list changes nothing: no score is recomputed and the order is kept. */
  lemma ScoredIdempotent(posts: seq<Post>, analysis: Option<Analyzer.Analysis>, curves: Curves, age: Timestamp -> Option<real>)
    ensures var r := Scored(posts, analysis, curves, age);
      Scored(r, analysis, curves, age) == r
  {
    var r := Scored(posts, analysis, curves, age);
    var a := AnnotateAll(posts, analysis, curves, age);
    forall q | q in r ensures q.qualityScore.Some? {
      assert q in multiset(a);
    }
    assert AnnotateAll(r, analysis, curves, age) == r;
    SortDescSorted(a, QualityOf);
    SortDescOfSorted(r, QualityOf);
  }

  /**
   * `score_posts`: scores every post that has no score yet and sorts the list. An empty list makes
   * the source fail while logging the first and last score, hence the precondition.
   */
  method ScorePosts(posts: seq<Post>, analysis: Option<Analyzer.Analysis>, curves: Curves, age: Timestamp -> Option<real>)
    returns (scored: seq<Post>)
    requires posts != []
    ensures scored == Scored(posts, analysis, curves, age)
    ensures |scored| == |posts|
  {
    scored := [];
    var i := 0;
    while i < |posts|
      invariant 0 <= i <= |posts|
      invariant scored == AnnotateAll(posts[..i], analysis, curves, age)
    {
      var post := posts[i];
      if post.qualityScore.None? {
        var score := QualityScore(post, analysis, curves, age(post.created));
        post := post.(qualityScore := Some(score));
      }
      scored := scored + [post];
      i := i + 1;
    }
    assert posts[..i] == posts;
    scored := SortDesc(scored, QualityOf);
  }

  /** `get_top_quality_posts`: the first `k` posts (all of them if fewer). */
  function TopQuality(scored: seq<Post>, k: int): (r: seq<Post>)
    ensures |r| <= |scored| && r == scored[..|r|]
    ensures k >= 0 ==> |r| == if k <= |scored| then k else |scored|
  {
    Prefix(scored, k)
  }

  /** From a scored list, the top posts are the best ones: none left out scores higher. */
  lemma TopQualityDominates(scored: seq<Post>, k: int, i: nat, j: nat)
    requires SortedDesc(scored, QualityOf)
    requires i < |TopQuality(scored, k)| <= j < |scored|
    ensures QualityOf(TopQuality(scored, k)[i]) >= QualityOf(scored[j])
  {
    TopKDominates(scored, QualityOf, k, i, j);
  }
}
