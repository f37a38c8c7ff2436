/**
 * The keyword search client (`KeywordCollector`) without the Reddit API: how a query string is
 * built, how a page of search results is filtered and ordered, how the advanced-search operators
 * are appended, and the summary `_generate_search_summary` draws over categorised results.
 */
module KeywordCollector {

  import opened Wrappers
  import opened Text
  import opened Posts
  import opened OrderedMaps
  import opened Sorting
  import Analyzer

  // ---------------------------------------------------------------- query

  /** The `keywords` argument: a list of words or a ready query string. */
  datatype Keywords = Words(words: seq<string>) | Query(text: string)

  /** A list is joined with single spaces; a string is used as it is. */
  function QueryOf(k: Keywords): string
  {
    match k
    case Words(ws) => Join(ws, " ")
    case Query(t) => t
  }

  /** Word lists read as the words separated by spaces, one more word at a time. */
  lemma QueryOfWords(ws: seq<string>, w: string, t: string)
    ensures QueryOf(Words([])) == ""
    ensures QueryOf(Words([w])) == w
    ensures ws != [] ==> QueryOf(Words(ws + [w])) == QueryOf(Words(ws)) + " " + w
    ensures QueryOf(Query(t)) == t
  {
    if ws != [] {
      JoinSnoc(ws, " ", w);
    }
  }

  // ---------------------------------------------------------------- one result page

  /** The filter `search_by_keywords` applies to each result. */
  predicate Passes(p: Post, minScore: int, minComments: int)
  {
    p.score >= minScore && p.numComments >= minComments
  }

  /** The results that pass the filter, in the order the search returned them. */
  function Passing(hits: seq<Post>, minScore: int, minComments: int): seq<Post>
  {
    if hits == [] then []
    else
      var last := hits[|hits| - 1];
      Passing(hits[..|hits| - 1], minScore, minComments) + (if Passes(last, minScore, minComments) then [last] else [])
  }

  /** What the search call produced: a page of results or an exception. */
  datatype SearchOutcome = Found(hits: seq<Post>) | SearchFailed

  /** The list `search_by_keywords` returns: the passing results by descending score, or `[]` on failure. */
  function SearchResultsOf(outcome: SearchOutcome, minScore: int, minComments: int): seq<Post>
  {
    match outcome
    case SearchFailed => []
    case Found(hits) => SortDesc(Passing(hits, minScore, minComments), ScoreOf)
  }

  /**
   * The passing results are exactly the results meeting both minimums, kept in search order: cut
   * the results anywhere, and the passing ones are those before the cut followed by those after it.
   */
  lemma {:induction false} PassingMembers(hits: seq<Post>, minScore: int, minComments: int)
    ensures var r := Passing(hits, minScore, minComments);
      && |r| <= |hits|
      && (forall p :: p in r <==> p in hits && Passes(p, minScore, minComments))
      && forall i :: 0 <= i <= |hits| ==>
        r == Passing(hits[..i], minScore, minComments) + Passing(hits[i..], minScore, minComments)
    decreases |hits|
  {
    if hits != [] {
      var init := hits[..|hits| - 1];
      PassingMembers(init, minScore, minComments);
      assert hits == init + [hits[|hits| - 1]];
    }
    forall i | 0 <= i <= |hits|
      ensures Passing(hits, minScore, minComments) == Passing(hits[..i], minScore, minComments) + Passing(hits[i..], minScore, minComments)
    {
      PassingSplit(hits, i, minScore, minComments);
    }
  }

  lemma PassingSplit(hits: seq<Post>, i: nat, minScore: int, minComments: int)
    requires i <= |hits|
    ensures Passing(hits, minScore, minComments) == Passing(hits[..i], minScore, minComments) + Passing(hits[i..], minScore, minComments)
  {
    PassingAppend(hits[..i], hits[i..], minScore, minComments);
    assert hits[..i] + hits[i..] == hits;
  }

  /** The filter goes result by result: on a concatenation it keeps each part's passing results, in order. */
  lemma {:induction false} PassingAppend(a: seq<Post>, b: seq<Post>, minScore: int, minComments: int)
    ensures Passing(a + b, minScore, minComments) == Passing(a, minScore, minComments) + Passing(b, minScore, minComments)
    decreases |b|
  {
    if b != [] {
      var init := b[..|b| - 1];
      PassingAppend(a, init, minScore, minComments);
      assert (a + b)[..|a + b| - 1] == a + init && (a + b)[|a + b| - 1] == b[|b| - 1];
    } else {
      assert a + b == a;
    }
  }

  /**
   * A result is returned exactly when the search succeeded, it was found and it passes the filter;
   * the list is in descending score order, and equal scores keep the search's order.
   */
  lemma SearchResultsProps(outcome: SearchOutcome, minScore: int, minComments: int, v: real)
    ensures var r := SearchResultsOf(outcome, minScore, minComments);
      && (outcome.SearchFailed? ==> r == [])
      && SortedDesc(r, ScoreOf)
      && (forall p :: p in r <==> outcome.Found? && p in outcome.hits && Passes(p, minScore, minComments))
      && (outcome.Found? ==>
            |r| <= |outcome.hits| && WithKey(r, ScoreOf, v) == WithKey(Passing(outcome.hits, minScore, minComments), ScoreOf, v))
  {
    match outcome
    case SearchFailed =>
    case Found(hits) =>
      var kept := Passing(hits, minScore, minComments);
      PassingMembers(hits, minScore, minComments);
      SortDescSorted(kept, ScoreOf);
      SortDescStable(kept, ScoreOf, v);
      forall p ensures p in SortDesc(kept, ScoreOf) <==> p in kept {
        assert p in multiset(SortDesc(kept, ScoreOf)) <==> p in multiset(kept);
      }
  }

  /** `search_by_keywords` after the API call: keeps the passing results, then sorts them by score. */
  method SearchByKeywords(outcome: SearchOutcome, minScore: int, minComments: int) returns (posts: seq<Post>)
    ensures posts == SearchResultsOf(outcome, minScore, minComments)
  {
    if outcome.SearchFailed? {
      return [];
    }
    var hits := outcome.hits;
    posts := [];
    var i := 0;
    while i < |hits|
      invariant 0 <= i <= |hits|
      invariant posts == Passing(hits[..i], minScore, minComments)
    {
      assert hits[..i + 1][..i] == hits[..i];
      var post := hits[i];
      if post.score >= minScore && post.numComments >= minComments {
        posts := posts + [post];
      } else {
        assert posts == posts + [];
      }
      i := i + 1;
    }
    assert hits[..i] == hits;
    posts := SortDesc(posts, ScoreOf);
  }

  // ---------------------------------------------------------------- advanced query

  /** The operator excluding one community. */
  function Excluded(sub: string): string
  {
    " -subreddit:" + sub
  }

  /** One ` -subreddit:<name>` operator per excluded community, in order. */
  function Exclusions(subs: seq<string>): string
  {
    Concat(Mapped(subs, Excluded))
  }

  /** The query `advanced_search` hands to the search. */
  function AdvancedQueryOf(query: string, exclude: seq<string>, author: Option<string>, site: Option<string>, titleOnly: bool): string
  {
    var q := query + Exclusions(exclude);
    var q := if Truthy(author) then q + " author:" + author.value else q;
    var q := if Truthy(site) then q + " site:" + site.value else q;
    if titleOnly then "title:" + q else q
  }

  /** The exclusions of consecutive lists concatenate: every community is excluded in list order. */
  lemma ExclusionsAppend(a: seq<string>, b: seq<string>)
    ensures Exclusions(a + b) == Exclusions(a) + Exclusions(b)
  {
    MappedAppend(a, b, Excluded);
    ConcatAppend(Mapped(a, Excluded), Mapped(b, Excluded));
  }

  /**
   * The base query stays at the front (after `title:` when the search is restricted to titles);
   * without options it is passed through unchanged; and `title_only` only adds that prefix.
   */
  lemma AdvancedQueryShape(query: string, exclude: seq<string>, author: Option<string>, site: Option<string>, titleOnly: bool)
    ensures var q := AdvancedQueryOf(query, exclude, author, site, titleOnly);
      && (titleOnly ==> q == "title:" + AdvancedQueryOf(query, exclude, author, site, false))
      && (if titleOnly then q[6..] else q)[..|query|] == query
      && (exclude == [] && !Truthy(author) && !Truthy(site) ==> q == (if titleOnly then "title:" else "") + query)
  {
    var q := AdvancedQueryOf(query, exclude, author, site, false);
    assert q[..|query|] == query;
    if titleOnly {
      assert ("title:" + q)[6..] == q;
    }
  }

  /** The loop of `advanced_search` over the excluded communities. */
  method AppendExclusions(q0: string, exclude: seq<string>) returns (q: string)
    ensures q == q0 + Exclusions(exclude)
  {
    q := q0;
    var i := 0;
    while i < |exclude|
      invariant 0 <= i <= |exclude|
      invariant q == q0 + Exclusions(exclude[..i])
    {
      ConcatMappedStep(exclude, i, Excluded);
      q := q + " -subreddit:" + exclude[i];
      i := i + 1;
    }
    assert exclude[..i] == exclude;
  }

  /** The string building of `advanced_search`. */
  method AdvancedQuery(query: string, exclude: seq<string>, author: Option<string>, site: Option<string>, titleOnly: bool)
    returns (q: string)
    ensures q == AdvancedQueryOf(query, exclude, author, site, titleOnly)
  {
    q := AppendExclusions(query, exclude);
    if author.Some? && author.value != "" {
      q := q + " author:" + author.value;
    }
    if site.Some? && site.value != "" {
      q := q + " site:" + site.value;
    }
    if titleOnly {
      q := "title:" + q;
    }
  }

  // ---------------------------------------------------------------- search summary

  function DomainOf(p: Post): string
  {
    p.domain
  }

  /** `sorted(stats.items(), key=count, reverse=True)[:5]` */
  function Top5(m: seq<(string, int)>): seq<(string, int)>
  {
    Prefix(SortDesc(m, Analyzer.CountOf), 5)
  }

  /** The `hottest_post` entry. */
  datatype Hottest = Hottest(title: string, score: int, subreddit: string, url: string)

  function HottestOf(p: Post): Hottest
  {
    Hottest(p.title, p.score, p.subreddit, p.permalink)
  }

  /** The summary dictionary; `NoPosts` is the `{'total_posts': 0}` returned when nothing was found. */
  datatype SearchSummary =
    | NoPosts
    | Summary(
        totalPosts: nat,
        categoriesCount: nat,
        avgScore: real,
        avgComments: real,
        topSubreddits: seq<(string, int)>,
        topAuthors: seq<(string, int)>,
        topDomains: seq<(string, int)>,
        hottestPost: Hottest,
        postsByCategory: seq<(string, int)>)

  /** `{cat: len(posts) for cat, posts in category_results.items()}` */
  function PostCounts(categories: seq<Group<Post>>): (r: seq<(string, int)>)
    ensures |r| == |categories|
  {
    if categories == [] then []
    else
      var last := categories[|categories| - 1];
      PostCounts(categories[..|categories| - 1]) + [(last.key, |last.posts|)]
  }

  function SearchSummaryOf(categories: seq<Group<Post>>): SearchSummary
  {
    var total := TotalLen(categories);
    if total == 0 then NoPosts
    else
      var all := Flatten(categories);
      FlattenLength(categories);
      Summary(
        total,
        |categories|,
        Analyzer.SumScore(all) as real / total as real,
        Analyzer.SumComments(all) as real / total as real,
        Top5(CountBy(all, Analyzer.SubredditOf)),
        Top5(CountBy(all, Analyzer.AuthorOf)),
        Top5(CountBy(all, DomainOf)),
        HottestOf(all[FirstMaxIndex(all, ScoreOf)]),
        PostCounts(categories))
  }

  /**
   * `top` is the top-five tally of `keyOf` over `all`: at most five distinct keys, in descending
   * count order, each with its true number of occurrences, and any key left out occurs no more
   * often than the fifth one.
   */
  predicate IsTopTally(top: seq<(string, int)>, all: seq<Post>, keyOf: Post -> string)
  {
    && |top| <= 5
    && SortedDesc(top, Analyzer.CountOf)
    && UniqueKeys(top)
    && (forall i :: 0 <= i < |top| ==> top[i].0 in KeysOf(all, keyOf) && top[i].1 == |KeyFilter(all, keyOf, top[i].0)|)
    && (forall k :: k in KeysOf(all, keyOf) && k !in Keys(top) ==> |top| == 5 && |KeyFilter(all, keyOf, k)| <= top[4].1)
  }

  /** Every entry of the cut tally names a key that occurs, with its number of occurrences. */
  lemma TopTallyEntries(all: seq<Post>, keyOf: Post -> string)
    ensures var top := Top5(CountBy(all, keyOf));
      forall i :: 0 <= i < |top| ==> top[i].0 in KeysOf(all, keyOf) && top[i].1 == |KeyFilter(all, keyOf, top[i].0)|
  {
    var m := CountBy(all, keyOf);
    CountByProps(all, keyOf);
    var top := Top5(m);
    SortedCut(m, Analyzer.CountOf, 5, 0.0);
    forall i | 0 <= i < |top| ensures top[i].0 in KeysOf(all, keyOf) && top[i].1 == |KeyFilter(all, keyOf, top[i].0)| {
      var e := top[i];
      assert e in m;
      var j :| 0 <= j < |m| && m[j] == e;
      DistinctIndex(m, e.0, j);
      assert Keys(m)[j] == e.0;
      FirstOccurrencesHas(KeysOf(all, keyOf), e.0);
    }
  }

  /** A tally entry left out of the top five counts no more than the fifth entry. */
  lemma CutMissing(m: seq<(string, int)>, e: (string, int))
    requires e in m && e.0 !in Keys(Top5(m))
    ensures |Top5(m)| == 5 && e.1 <= Top5(m)[4].1
  {
    var t := SortDesc(m, Analyzer.CountOf);
    var top := Top5(m);
    SortDescSorted(m, Analyzer.CountOf);
    assert e in multiset(t);
    var p :| 0 <= p < |t| && t[p] == e;
    assert p >= |top|;
    assert Analyzer.CountOf(t[4]) >= Analyzer.CountOf(t[p]);
  }

  /** A key missing from the cut tally occurs no more often than the fifth entry. */
  lemma TopTallyComplete(all: seq<Post>, keyOf: Post -> string, k: string)
    requires k in KeysOf(all, keyOf) && k !in Keys(Top5(CountBy(all, keyOf)))
    ensures var top := Top5(CountBy(all, keyOf));
      |top| == 5 && |KeyFilter(all, keyOf, k)| <= top[4].1
  {
    var m := CountBy(all, keyOf);
    CountByProps(all, keyOf);
    FirstOccurrencesHas(KeysOf(all, keyOf), k);
    assert k in Keys(m);
    var j :| 0 <= j < |m| && Keys(m)[j] == k;
    DistinctIndex(m, k, j);
    CutMissing(m, m[j]);
  }

  /**
   * The cut tally is a top-five tally, and keys with equal counts keep the order of the tally (the
   * order in which the keys first occur): the kept ones with a given count are the first ones.
   */
  lemma TopTallyProps(all: seq<Post>, keyOf: Post -> string)
    ensures IsTopTally(Top5(CountBy(all, keyOf)), all, keyOf)
    ensures Keys(CountBy(all, keyOf)) == FirstOccurrences(KeysOf(all, keyOf))
    ensures forall v :: var m := CountBy(all, keyOf); var w := WithKey(Top5(m), Analyzer.CountOf, v);
      |w| <= |WithKey(m, Analyzer.CountOf, v)| && w == WithKey(m, Analyzer.CountOf, v)[..|w|]
  {
    var m := CountBy(all, keyOf);
    CountByProps(all, keyOf);
    SortedCut(m, Analyzer.CountOf, 5, 0.0);
    PermutationUniqueKeys(m, SortDesc(m, Analyzer.CountOf));
    TopTallyEntries(all, keyOf);
    forall k | k in KeysOf(all, keyOf) && k !in Keys(Top5(m))
      ensures |Top5(m)| == 5 && |KeyFilter(all, keyOf, k)| <= Top5(m)[4].1
    {
      TopTallyComplete(all, keyOf, k);
    }
    TopCutStableAll(m, Analyzer.CountOf, 5);
  }

  /** Each category is counted under its own key, in dictionary order. */
  lemma {:induction false} PostCountsEntries(categories: seq<Group<Post>>)
    ensures forall i :: 0 <= i < |categories| ==> PostCounts(categories)[i] == (categories[i].key, |categories[i].posts|)
    decreases |categories|
  {
    if categories != [] {
      PostCountsEntries(categories[..|categories| - 1]);
    }
  }

  /** `max(all, key=score)` is a post of `all` with the highest score, and the first such. */
  lemma HottestProps(all: seq<Post>)
    requires all != []
    ensures exists i :: (0 <= i < |all| && HottestOf(all[FirstMaxIndex(all, ScoreOf)]) == HottestOf(all[i])
      && (forall j :: 0 <= j < |all| ==> all[j].score <= all[i].score)
      && (forall j :: 0 <= j < i ==> all[j].score < all[i].score))
  {
    var i := FirstMaxIndex(all, ScoreOf);
    forall j | 0 <= j < |all| ensures all[j].score <= all[i].score && (j < i ==> all[j].score < all[i].score) {
      assert ScoreOf(all[j]) == all[j].score as real && ScoreOf(all[i]) == all[i].score as real;
    }
    assert 0 <= i < |all| && HottestOf(all[FirstMaxIndex(all, ScoreOf)]) == HottestOf(all[i]);
  }

  /** No post scores more than `hi`, so the total is at most `|s| * hi`. */
  lemma {:induction false} SumScoreAtMost(s: seq<Post>, hi: int)
    requires forall j :: 0 <= j < |s| ==> s[j].score <= hi
    ensures Analyzer.SumScore(s) <= |s| * hi
    decreases |s|
  {
    if s != [] {
      SumScoreAtMost(s[..|s| - 1], hi);
    }
  }

  lemma QuotientAtMost(total: int, n: int, hi: int)
    requires n > 0 && total <= n * hi
    ensures total as real / n as real <= hi as real
  {
    assert (n * hi) as real == n as real * hi as real;
  }

  /** The mean score never exceeds the highest one. */
  lemma MeanScoreAtMostMax(all: seq<Post>)
    requires all != []
    ensures Analyzer.SumScore(all) as real / |all| as real <= all[FirstMaxIndex(all, ScoreOf)].score as real
  {
    var m := FirstMaxIndex(all, ScoreOf);
    var hi := all[m].score;
    forall j | 0 <= j < |all| ensures all[j].score <= hi {
      assert ScoreOf(all[j]) <= ScoreOf(all[m]);
    }
    SumScoreAtMost(all, hi);
    QuotientAtMost(Analyzer.SumScore(all), |all|, hi);
  }

  /** The non-empty summary, field by field. */
  lemma SummaryFields(categories: seq<Group<Post>>)
    requires TotalLen(categories) != 0
    ensures var all := Flatten(categories);
      all != [] && SearchSummaryOf(categories) == Summary(
        |all|,
        |categories|,
        Analyzer.SumScore(all) as real / |all| as real,
        Analyzer.SumComments(all) as real / |all| as real,
        Top5(CountBy(all, Analyzer.SubredditOf)),
        Top5(CountBy(all, Analyzer.AuthorOf)),
        Top5(CountBy(all, DomainOf)),
        HottestOf(all[FirstMaxIndex(all, ScoreOf)]),
        PostCounts(categories))
  {
    FlattenLength(categories);
  }

  /**
   * The averages are the mean score and the mean comment count over all results, and the mean
   * score is no higher than the hottest post's.
   */
  lemma SummaryAverages(categories: seq<Group<Post>>)
    requires TotalLen(categories) != 0
    ensures var r := SearchSummaryOf(categories);
      var all := Flatten(categories);
      && r.Summary?
      && r.avgScore == Analyzer.SumScore(all) as real / |all| as real
      && r.avgComments == Analyzer.SumComments(all) as real / |all| as real
      && r.avgScore <= r.hottestPost.score as real
  {
    SummaryFields(categories);
    MeanScoreAtMostMax(Flatten(categories));
  }

  /** The summary is `NoPosts` exactly when every category is empty. */
  lemma SummaryEmptyIff(categories: seq<Group<Post>>)
    ensures SearchSummaryOf(categories).NoPosts? <==> forall i :: 0 <= i < |categories| ==> categories[i].posts == []
  {
    FlattenLength(categories);
    FlattenEmpty(categories);
  }

  /** A non-empty summary counts every result and every category, and lists each category with its size. */
  lemma SummaryCounts(categories: seq<Group<Post>>)
    requires TotalLen(categories) != 0
    ensures var r := SearchSummaryOf(categories);
      && r.Summary?
      && r.totalPosts == |Flatten(categories)| > 0
      && r.categoriesCount == |categories|
      && |r.postsByCategory| == |categories|
      && forall i :: 0 <= i < |categories| ==> r.postsByCategory[i] == (categories[i].key, |categories[i].posts|)
  {
    SummaryFields(categories);
    PostCountsEntries(categories);
  }

  /** The three top lists of a non-empty summary are top-five tallies of all results. */
  lemma SummaryTops(categories: seq<Group<Post>>)
    requires TotalLen(categories) != 0
    ensures var r := SearchSummaryOf(categories);
      var all := Flatten(categories);
      && r.Summary?
      && IsTopTally(r.topSubreddits, all, Analyzer.SubredditOf)
      && IsTopTally(r.topAuthors, all, Analyzer.AuthorOf)
      && IsTopTally(r.topDomains, all, DomainOf)
  {
    var all := Flatten(categories);
    SummaryFields(categories);
    TopTallyProps(all, Analyzer.SubredditOf);
    TopTallyProps(all, Analyzer.AuthorOf);
    TopTallyProps(all, DomainOf);
  }

  /** The hottest post of a non-empty summary is the first result with the highest score. */
  lemma SummaryHottest(categories: seq<Group<Post>>)
    requires TotalLen(categories) != 0
    ensures var r := SearchSummaryOf(categories);
      var all := Flatten(categories);
      && r.Summary?
      && exists i :: (0 <= i < |all| && r.hottestPost == HottestOf(all[i])
           && (forall j :: 0 <= j < |all| ==> all[j].score <= all[i].score)
           && (forall j :: 0 <= j < i ==> all[j].score < all[i].score))
  {
    SummaryFields(categories);
    HottestProps(Flatten(categories));
  }

  /** One more post adds its score and comments to the totals. */
  lemma SumStep(s: seq<Post>, x: Post)
    ensures Analyzer.SumScore(s + [x]) == Analyzer.SumScore(s) + x.score
    ensures Analyzer.SumComments(s + [x]) == Analyzer.SumComments(s) + x.numComments
  {
    assert (s + [x])[..|s|] == s;
  }

  /** The first loop of `generate_search_summary`: the number of results over all categories. */
  method TotalResults(categories: seq<Group<Post>>) returns (total: nat)
    ensures total == TotalLen(categories)
  {
    total := 0;
    var c := 0;
    while c < |categories|
      invariant 0 <= c <= |categories|
      invariant total == TotalLen(categories[..c])
    {
      assert categories[..c + 1][..c] == categories[..c];
      total := total + |categories[c].posts|;
      c := c + 1;
    }
    assert categories[..c] == categories;
  }

  /** `all_posts`: every category's results, one list after the other. */
  method AllResults(categories: seq<Group<Post>>) returns (all: seq<Post>)
    ensures all == Flatten(categories)
  {
    all := [];
    var c := 0;
    while c < |categories|
      invariant 0 <= c <= |categories|
      invariant all == Flatten(categories[..c])
    {
      assert categories[..c + 1][..c] == categories[..c];
      all := all + categories[c].posts;
      c := c + 1;
    }
    assert categories[..c] == categories;
  }

  /** The tallying loop of `generate_search_summary`: communities, authors, domains, and the two sums. */
  method TallyResults(all: seq<Post>)
    returns (subs: seq<(string, int)>, authors: seq<(string, int)>, domains: seq<(string, int)>, totalScore: int, totalComments: int)
    ensures subs == CountBy(all, Analyzer.SubredditOf)
    ensures authors == CountBy(all, Analyzer.AuthorOf)
    ensures domains == CountBy(all, DomainOf)
    ensures totalScore == Analyzer.SumScore(all)
    ensures totalComments == Analyzer.SumComments(all)
  {
    subs, authors, domains := [], [], [];
    totalScore, totalComments := 0, 0;
    var i := 0;
    while i < |all|
      invariant 0 <= i <= |all|
      invariant subs == CountBy(all[..i], Analyzer.SubredditOf)
      invariant authors == CountBy(all[..i], Analyzer.AuthorOf)
      invariant domains == CountBy(all[..i], DomainOf)
      invariant totalScore == Analyzer.SumScore(all[..i])
      invariant totalComments == Analyzer.SumComments(all[..i])
    {
      var post := all[i];
      assert all[..i + 1] == all[..i] + [post];
      CountByStep(all[..i], post, Analyzer.SubredditOf);
      CountByStep(all[..i], post, Analyzer.AuthorOf);
      CountByStep(all[..i], post, DomainOf);
      SumStep(all[..i], post);
      subs := Upsert(subs, post.subreddit, 0, StepWith(Succ, post));
      authors := Upsert(authors, post.author, 0, StepWith(Succ, post));
      domains := Upsert(domains, post.domain, 0, StepWith(Succ, post));
      totalScore := totalScore + post.score;
      totalComments := totalComments + post.numComments;
      i := i + 1;
    }
    assert all[..i] == all;
  }

  /** `_generate_search_summary`: counts, collects and tallies the categorised results. */
  method GenerateSearchSummary(categories: seq<Group<Post>>) returns (r: SearchSummary)
    ensures r == SearchSummaryOf(categories)
  {
    var total := TotalResults(categories);
    if total == 0 {
      return NoPosts;
    }
    var all := AllResults(categories);
    FlattenLength(categories);
    var subs, authors, domains, totalScore, totalComments := TallyResults(all);
    var top := FirstMaxIndex(all, ScoreOf);
    SummaryFields(categories);
    r := Summary(
      total,
      |categories|,
      totalScore as real / total as real,
      totalComments as real / total as real,
      Top5(subs),
      Top5(authors),
      Top5(domains),
      HottestOf(all[top]),
      PostCounts(categories));
  }
}
