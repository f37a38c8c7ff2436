/**
 * The cleaning stage (`DataCleaner`): validation, quality filtering and normalisation of the
 * grouped records with running counters, and the collapse of duplicates by post id.
 */
module Cleaner {

  import opened Wrappers
  import opened Text
  import opened Posts
  import opened OrderedMaps
  import opened Sorting

  // ---------------------------------------------------------------- per-record checks

  /**
   * `_validate_post`: the required fields are truthy, a string timestamp (with every `Z` removed)
   * parses as ISO 8601, and the numeric fields coerce with `float()`.
   */
  predicate ValidatePost(p: RawPost, isoParses: string -> bool)
  {
    && p.id != "" && p.title != "" && p.subreddit != "" && TimestampTruthy(p.created)
    && (p.created.Iso? ==> isoParses(Replace(p.created.text, 'Z', "")))
    && p.score.Int? && p.numComments.Int?
  }

  /** Each way a record can fail validation. */
  lemma ValidateRejects(p: RawPost, isoParses: string -> bool)
    ensures p.id == "" || p.title == "" || p.subreddit == "" ==> !ValidatePost(p, isoParses)
    ensures p.created == Missing || p.created == Epoch(0) || p.created == Iso("") ==> !ValidatePost(p, isoParses)
    ensures p.created.Iso? && !isoParses(Replace(p.created.text, 'Z', "")) ==> !ValidatePost(p, isoParses)
    ensures p.score == NotNumeric || p.numComments == NotNumeric ==> !ValidatePost(p, isoParses)
    ensures (p.id != "" && p.title != "" && p.subreddit != "" && p.created.Epoch? && p.created.seconds != 0
      && p.score.Int? && p.numComments.Int?) ==> ValidatePost(p, isoParses)
  {
  }

  /**
   * `_quality_filter`, for a record whose score is numeric (it compares the score with 0, which
   * would raise on a value `float()` rejects; such records never get this far).
   */
  predicate QualityFilter(p: RawPost)
    requires p.score.Int?
  {
    if p.author == Deleted && p.title == "" then false
    else if p.score.value < 0 then false
    else |Strip(p.title)| >= 10
  }

  /**
   * After validation the deleted-author test can no longer fire (the title is non-empty), so a
   * record passes exactly when its score is non-negative and its stripped title has 10 characters.
   */
  lemma QualityFilterIff(p: RawPost, isoParses: string -> bool)
    requires ValidatePost(p, isoParses)
    ensures QualityFilter(p) <==> p.score.value >= 0 && |Strip(p.title)| >= 10
  {
  }

  /** One blank on each side of an unpadded string is stripped away. */
  lemma StripOneBlankEachSide(c: char, s: string, d: char)
    requires IsSpace(c) && IsSpace(d)
    requires s != [] && !IsSpace(s[0]) && !IsSpace(s[|s| - 1])
    ensures Strip([c] + s + [d]) == s
  {
    var t := [c] + s + [d];
    assert t[1..] == s + [d];
    assert LStrip(t) == LStrip(s + [d]);
    assert (s + [d])[0] == s[0];
    assert LStrip(s + [d]) == s + [d];
    assert (s + [d])[..|s|] == s;
    assert RStrip(s + [d]) == RStrip(s);
    StripUnpadded(s);
  }

  /**
   * The thresholds are inclusive: an unpadded 10-character title with score 0 passes, score -1
   * fails, and a 9-character title padded with one blank on each side fails.
   */
  lemma QualityFilterBoundaries(p: RawPost, c: char, s: string, d: char)
    requires p.score.Int? && p.author != Deleted
    requires IsSpace(c) && IsSpace(d)
    requires s != [] && !IsSpace(s[0]) && !IsSpace(s[|s| - 1])
    ensures p.title == s && |s| == 10 && p.score.value == 0 ==> QualityFilter(p)
    ensures p.title == s && p.score.value == -1 ==> !QualityFilter(p)
    ensures p.title == [c] + s + [d] && |s| == 9 && p.score.value == 0 ==> !QualityFilter(p)
  {
    StripUnpadded(s);
    StripOneBlankEachSide(c, s, d);
  }

  /** Field types a cleaned record always satisfies. */
  predicate CleanShape(q: Post)
  {
    && q.id != "" && q.subreddit != ""
    && q.score >= 0 && q.numComments >= 0 && 0.0 <= q.upvoteRatio <= 1.0
    && |q.title| <= 300 && |q.preview| <= 500
  }

  /** `max(0.0, min(1.0, r))` */
  function Clamp01(r: real): (c: real)
    ensures 0.0 <= c <= 1.0
    ensures 0.0 <= r <= 1.0 ==> c == r
    ensures r < 0.0 ==> c == 0.0
    ensures r > 1.0 ==> c == 1.0
  {
    if r > 1.0 then 1.0 else if r < 0.0 then 0.0 else r
  }

  /** `max(0, n)` */
  function Floor0(n: int): (m: int)
    ensures m >= 0 && (n >= 0 ==> m == n) && (n < 0 ==> m == 0)
  {
    if n < 0 then 0 else n
  }

  /** The record `_clean_post_data` returns. */
  function Normalised(p: RawPost): Post
    requires p.score.Int? && p.numComments.Int?
  {
    Post(p.id, Cap(Collapse(p.title), 300), p.author, p.subreddit, Floor0(p.score.value),
      Floor0(p.numComments.value), Clamp01(p.upvoteRatio), p.created, Cap(Collapse(p.preview), 500),
      p.content, p.flair, p.permalink, p.domain, None, None, None, None, None)
  }

  /**
   * The cleaned title and preview are the blank-collapsed originals cut to 300 and 500 characters,
   * the counts are floored at 0, the ratio is clamped to [0, 1], and every other field is copied.
   */
  lemma NormalisedProps(p: RawPost)
    requires p.score.Int? && p.numComments.Int?
    ensures var q := Normalised(p);
      && |q.title| <= 300 && q.title <= Collapse(p.title)
      && (|Collapse(p.title)| <= 300 ==> q.title == Collapse(p.title))
      && |q.preview| <= 500 && q.preview <= Collapse(p.preview)
      && (|Collapse(p.preview)| <= 500 ==> q.preview == Collapse(p.preview))
      && q.score >= 0 && (p.score.value >= 0 ==> q.score == p.score.value)
      && q.numComments >= 0 && (p.numComments.value >= 0 ==> q.numComments == p.numComments.value)
      && 0.0 <= q.upvoteRatio <= 1.0 && (0.0 <= p.upvoteRatio <= 1.0 ==> q.upvoteRatio == p.upvoteRatio)
      && q.id == p.id && q.author == p.author && q.subreddit == p.subreddit && q.created == p.created
      && q.content == p.content && q.flair == p.flair && q.permalink == p.permalink && q.domain == p.domain
      && q.sourceTimeframe.None? && q.sourceKey.None? && q.qualityScore.None?
      && q.summary.None? && q.summaryError.None?
  {
  }

  /** A cleaned title has only single `' '` blanks, none at the start, and never two in a row. */
  lemma NormalisedTitleBlanks(p: RawPost)
    requires p.score.Int? && p.numComments.Int?
    ensures var t := Normalised(p).title;
      forall i :: 0 <= i < |t| && IsSpace(t[i]) ==> t[i] == ' ' && 0 < i && (i + 1 < |t| ==> !IsSpace(t[i + 1]))
  {
    var c := Collapse(p.title);
    CollapseNormal(p.title);
    NormalBlanks(c);
  }

  /**
   * `_clean_post_data`: works on a copy, collapses blanks in the title and preview when they are
   * non-empty and caps them, floors the counts at 0 and clamps the upvote ratio.
   */
  method CleanPostData(p: RawPost) returns (q: Post)
    requires p.score.Int? && p.numComments.Int?
    ensures q == Normalised(p)
  {
    q := Post(p.id, p.title, p.author, p.subreddit, p.score.value, p.numComments.value, p.upvoteRatio,
      p.created, p.preview, p.content, p.flair, p.permalink, p.domain, None, None, None, None, None);
    if q.title != "" {
      q := q.(title := Collapse(q.title));
      q := q.(title := Cap(q.title, 300));
    }
    if q.preview != "" {
      q := q.(preview := Collapse(q.preview));
      q := q.(preview := Cap(q.preview, 500));
    }
    q := q.(score := Floor0(q.score));
    q := q.(numComments := Floor0(q.numComments));
    q := q.(upvoteRatio := Clamp01(q.upvoteRatio));
  }

  /** What became of one input record. */
  datatype Verdict = Invalid | Filtered | Kept(post: Post)

  /** The body of the loop in `clean_posts` for one record. */
  function Classify(r: Option<RawPost>, isoParses: string -> bool): Verdict
  {
    if r.None? || !ValidatePost(r.value, isoParses) then Invalid
    else if !QualityFilter(r.value) then Filtered
    else Kept(Normalised(r.value))
  }

  datatype Kind = ValidKind | InvalidKind | FilteredKind

  function KindOf(v: Verdict): Kind
  {
    match v
    case Invalid => InvalidKind
    case Filtered => FilteredKind
    case Kept(_) => ValidKind
  }

  /** The verdict of every record, as `clean_posts` reaches it. */
  function Judged(isoParses: string -> bool): Option<RawPost> -> Verdict
  {
    r => Classify(r, isoParses)
  }

  /** The number of verdicts of kind `k` that `judge` gives to the records of `rs`. */
  function KindCount<T>(rs: seq<T>, judge: T -> Verdict, k: Kind): nat
  {
    if rs == [] then 0
    else KindCount(rs[..|rs| - 1], judge, k) + (if KindOf(judge(rs[|rs| - 1])) == k then 1 else 0)
  }

  /** The posts kept by `judge` from `rs`, in order. */
  function KeptPosts<T>(rs: seq<T>, judge: T -> Verdict): seq<Post>
  {
    if rs == [] then []
    else
      var v := judge(rs[|rs| - 1]);
      KeptPosts(rs[..|rs| - 1], judge) + (if v.Kept? then [v.post] else [])
  }

  lemma KeptPostsSingle<T>(x: T, judge: T -> Verdict)
    ensures KeptPosts([x], judge) == if judge(x).Kept? then [judge(x).post] else []
  {
    assert [x][..0] == [];
  }

  lemma {:induction false} KeptPostsAppend<T>(a: seq<T>, b: seq<T>, judge: T -> Verdict)
    ensures KeptPosts(a + b, judge) == KeptPosts(a, judge) + KeptPosts(b, judge)
    decreases |b|
  {
    if b == [] {
      assert a + b == a;
    } else {
      var b0 := b[..|b| - 1];
      KeptPostsAppend(a, b0, judge);
      assert (a + b)[..|a + b| - 1] == a + b0;
    }
  }

  lemma {:induction false} KindCountAppend<T>(a: seq<T>, b: seq<T>, judge: T -> Verdict, k: Kind)
    ensures KindCount(a + b, judge, k) == KindCount(a, judge, k) + KindCount(b, judge, k)
    decreases |b|
  {
    if b == [] {
      assert a + b == a;
    } else {
      var b0 := b[..|b| - 1];
      KindCountAppend(a, b0, judge, k);
      assert (a + b)[..|a + b| - 1] == a + b0;
    }
  }

  /** The number of records of `rs` counted under `k`. */
  function CountKind(rs: seq<Option<RawPost>>, isoParses: string -> bool, k: Kind): nat
  {
    KindCount(rs, Judged(isoParses), k)
  }

  /** The cleaned survivors of `rs`, in order. */
  function Survivors(rs: seq<Option<RawPost>>, isoParses: string -> bool): seq<Post>
  {
    KeptPosts(rs, Judged(isoParses))
  }

  /** The dictionary `clean_posts` returns: the same keys, each with its survivors. */
  function CleanGroups(groups: seq<Group<Option<RawPost>>>, isoParses: string -> bool): seq<Group<Post>>
  {
    if groups == [] then []
    else
      var g := groups[|groups| - 1];
      CleanGroups(groups[..|groups| - 1], isoParses) + [Group(g.key, Survivors(g.posts, isoParses))]
  }

  lemma {:induction false} KindCountsPartition<T>(rs: seq<T>, judge: T -> Verdict)
    ensures KindCount(rs, judge, ValidKind) + KindCount(rs, judge, InvalidKind)
      + KindCount(rs, judge, FilteredKind) == |rs|
    ensures |KeptPosts(rs, judge)| == KindCount(rs, judge, ValidKind)
    decreases |rs|
  {
    if rs != [] {
      KindCountsPartition(rs[..|rs| - 1], judge);
    }
  }

  /** Every record is counted exactly once: as valid, invalid or filtered. */
  lemma CountsPartition(rs: seq<Option<RawPost>>, isoParses: string -> bool)
    ensures CountKind(rs, isoParses, ValidKind) + CountKind(rs, isoParses, InvalidKind)
      + CountKind(rs, isoParses, FilteredKind) == |rs|
    ensures |Survivors(rs, isoParses)| == CountKind(rs, isoParses, ValidKind)
  {
    KindCountsPartition(rs, Judged(isoParses));
  }

  /** Survivors are taken record by record, keeping order: the survivors of a concatenation concatenate. */
  lemma SurvivorsAppend(a: seq<Option<RawPost>>, b: seq<Option<RawPost>>, isoParses: string -> bool)
    ensures Survivors(a + b, isoParses) == Survivors(a, isoParses) + Survivors(b, isoParses)
  {
    KeptPostsAppend(a, b, Judged(isoParses));
  }

  lemma CountKindAppend(a: seq<Option<RawPost>>, b: seq<Option<RawPost>>, isoParses: string -> bool, k: Kind)
    ensures CountKind(a + b, isoParses, k) == CountKind(a, isoParses, k) + CountKind(b, isoParses, k)
  {
    KindCountAppend(a, b, Judged(isoParses), k);
  }

  /** Counting and cleaning one more record. */
  lemma ClassifyStep(rs: seq<Option<RawPost>>, r: Option<RawPost>, isoParses: string -> bool)
    ensures var v := Classify(r, isoParses);
      && Survivors(rs + [r], isoParses) == Survivors(rs, isoParses) + (if v.Kept? then [v.post] else [])
      && CountKind(rs + [r], isoParses, ValidKind) == CountKind(rs, isoParses, ValidKind) + (if v.Kept? then 1 else 0)
      && CountKind(rs + [r], isoParses, InvalidKind) == CountKind(rs, isoParses, InvalidKind) + (if v.Invalid? then 1 else 0)
      && CountKind(rs + [r], isoParses, FilteredKind) == CountKind(rs, isoParses, FilteredKind) + (if v.Filtered? then 1 else 0)
  {
    assert (rs + [r])[..|rs|] == rs;
  }

  /** A single record survives exactly when it is valid and passes the filter, as its normalised form. */
  lemma SurvivorsSingle(r: Option<RawPost>, isoParses: string -> bool)
    ensures Survivors([r], isoParses) ==
      if r.Some? && ValidatePost(r.value, isoParses) && QualityFilter(r.value) then [Normalised(r.value)] else []
  {
    KeptPostsSingle(r, Judged(isoParses));
    assert Judged(isoParses)(r) == Classify(r, isoParses);
  }

  /** Every survivor has the cleaned field shape. */
  lemma {:induction false} SurvivorsClean(rs: seq<Option<RawPost>>, isoParses: string -> bool)
    ensures forall q :: q in Survivors(rs, isoParses) ==> CleanShape(q)
    decreases |rs|
  {
    if rs != [] {
      SurvivorsClean(rs[..|rs| - 1], isoParses);
    }
  }

  /** The cleaned dictionary has exactly the input's keys, in order, empty groups included. */
  lemma {:induction false} CleanGroupsKeys(groups: seq<Group<Option<RawPost>>>, isoParses: string -> bool)
    ensures GroupKeys(CleanGroups(groups, isoParses)) == GroupKeys(groups)
    ensures forall i :: 0 <= i < |groups| ==>
      CleanGroups(groups, isoParses)[i].posts == Survivors(groups[i].posts, isoParses)
    decreases |groups|
  {
    if groups != [] {
      var init := groups[..|groups| - 1];
      CleanGroupsKeys(init, isoParses);
      var c := CleanGroups(groups, isoParses);
      assert c[..|init|] == CleanGroups(init, isoParses);
      forall i | 0 <= i < |groups| ensures c[i].posts == Survivors(groups[i].posts, isoParses) && c[i].key == groups[i].key {
        if i < |init| {
          assert c[i] == CleanGroups(init, isoParses)[i] && groups[i] == init[i];
        }
      }
    }
  }

  /** Leading blanks do not change the collapsed form. */
  lemma {:induction false} CollapseSkipBlanks(b: string, s: string)
    requires AllSpace(b)
    ensures Collapse(b + s) == Collapse(s)
    decreases |b|
  {
    if b != [] {
      assert IsSpace(b[0]);
      assert (b + s)[0] == b[0] && (b + s)[1..] == b[1..] + s;
      assert Collapse(b + s) == Collapse(b[1..] + s);
      assert AllSpace(b[1..]) by {
        forall i | 0 <= i < |b| - 1 ensures IsSpace(b[1..][i]) {
          assert b[1..][i] == b[i + 1];
        }
      }
      CollapseSkipBlanks(b[1..], s);
    } else {
      assert b + s == s;
    }
  }

  /** Two words separated by a run of blanks collapse to the words separated by one space. */
  lemma CollapseTwoWords(x: char, blanks: string, y: char)
    requires !IsSpace(x) && !IsSpace(y) && blanks != [] && AllSpace(blanks)
    ensures Collapse([x] + blanks + [y]) == [x, ' ', y]
  {
    var t := [x] + blanks + [y];
    assert t == [x] + (blanks + [y]);
    WordLenJoin([x], blanks + [y]);
    assert t[2..] == blanks[1..] + [y];
    assert AllSpace(blanks[1..]) by {
      forall i | 0 <= i < |blanks| - 1 ensures IsSpace(blanks[1..][i]) {
        assert blanks[1..][i] == blanks[i + 1];
      }
    }
    CollapseSkipBlanks(blanks[1..], [y]);
    WordLenAll([y]);
    CollapseOneWord([y]);
    CollapseWordThenBlank(t);
  }

  /**
   * Cleaning is not idempotent: a title made of two characters around eight blanks (such as
   * `"a        b"`) strips to 10 characters and passes, but cleans to the 3-character `"a b"`, so the
   * cleaned record is dropped when it is cleaned again.
   */
  lemma RecleanCanDrop(p: RawPost, x: char, blanks: string, y: char)
    requires p.score == Int(0) && p.numComments == Int(0) && p.author != Deleted
    requires !IsSpace(x) && !IsSpace(y) && |blanks| == 8 && AllSpace(blanks)
    requires p.title == [x] + blanks + [y]
    ensures QualityFilter(p)
    ensures Normalised(p).title == [x, ' ', y]
    ensures !QualityFilter(ToRaw(Normalised(p)))
  {
    StripUnpadded(p.title);
    CollapseTwoWords(x, blanks, y);
    StripUnpadded([x, ' ', y]);
  }

  /** The record a cleaned post is when handed to the cleaner again. */
  function ToRaw(q: Post): RawPost
  {
    RawPost(q.id, q.title, q.author, q.subreddit, Int(q.score), Int(q.numComments), q.upvoteRatio,
      q.created, q.preview, q.content, q.flair, q.permalink, q.domain)
  }

  // ---------------------------------------------------------------- deduplication

  /** A post tagged with the timeframe of the group it was found under. */
  function Tagged(p: Post, key: string): Post
  {
    p.(sourceTimeframe := Some(Timeframe(key)))
  }

  /** One group with every record tagged. */
  function TagGroup(g: Group<Post>): Group<Post>
  {
    Group(g.key, seq(|g.posts|, j requires 0 <= j < |g.posts| => Tagged(g.posts[j], g.key)))
  }

  /** The input dictionary after `deduplicate_posts` has written `source_timeframe` into every record. */
  function TagGroups(groups: seq<Group<Post>>): (r: seq<Group<Post>>)
    ensures |r| == |groups| && forall i :: 0 <= i < |groups| ==> r[i] == TagGroup(groups[i])
  {
    seq(|groups|, i requires 0 <= i < |groups| => TagGroup(groups[i]))
  }

  predicate IsHot(p: Post)
  {
    p.sourceTimeframe == Some("hot")
  }

  /** `[p for p in group if p['source_timeframe'] == 'hot']` */
  function HotOnly(g: seq<Post>): (r: seq<Post>)
    ensures forall p :: p in r <==> p in g && IsHot(p)
  {
    if g == [] then []
    else
      var r := HotOnly(g[..|g| - 1]);
      assert g == g[..|g| - 1] + [g[|g| - 1]];
      if IsHot(g[|g| - 1]) then r + [g[|g| - 1]] else r
  }

  /** The filter goes record by record: on a concatenation it keeps each part's hot records, in order. */
  lemma {:induction false} HotOnlyAppend(a: seq<Post>, b: seq<Post>)
    ensures HotOnly(a + b) == HotOnly(a) + HotOnly(b)
    decreases |b|
  {
    if b != [] {
      var init := b[..|b| - 1];
      HotOnlyAppend(a, init);
      assert (a + b)[..|a + b| - 1] == a + init && (a + b)[|a + b| - 1] == b[|b| - 1];
    } else {
      assert a + b == a;
    }
  }

  /** `max(g, key=lambda x: x['score'])`: the first record with the highest score. */
  function MaxByScore(g: seq<Post>): Post
    requires g != []
  {
    g[FirstMaxIndex(g, ScoreOf)]
  }

  /** The record the keep policy picks from the records sharing one id. */
  function Select(g: seq<Post>, keep: string): Post
    requires g != []
  {
    if keep == "highest_hot" then
      var hot := HotOnly(g);
      if hot != [] then MaxByScore(hot) else MaxByScore(g)
    else if keep == "first" then g[0]
    else if keep == "last" then g[|g| - 1]
    else MaxByScore(g)
  }

  /** The first maximum of `g` by score: no record scores higher, and every earlier one scores lower. */
  predicate FirstMaxOf(r: Post, g: seq<Post>)
  {
    exists m :: 0 <= m < |g| && g[m] == r && (forall j :: 0 <= j < |g| ==> g[j].score <= r.score)
      && (forall j :: 0 <= j < m ==> g[j].score < r.score)
  }

  lemma MaxByScoreIsFirstMax(g: seq<Post>)
    requires g != []
    ensures FirstMaxOf(MaxByScore(g), g)
  {
    var m := FirstMaxIndex(g, ScoreOf);
    assert forall j :: 0 <= j < |g| ==> ScoreOf(g[j]) <= ScoreOf(g[m]);
    assert forall j :: 0 <= j < m ==> ScoreOf(g[j]) < ScoreOf(g[m]);
  }

  /**
   * The keep policies: `highest_hot` keeps the first best-scoring hot-tagged record when there is
   * one and the first best-scoring record otherwise; `first` and `last` keep the ends; any other
   * value keeps the first best-scoring record.
   */
  lemma SelectPolicies(g: seq<Post>, keep: string)
    requires g != []
    ensures Select(g, keep) in g
    ensures keep == "highest_hot" && HotOnly(g) != [] ==>
      IsHot(Select(g, keep)) && FirstMaxOf(Select(g, keep), HotOnly(g))
    ensures keep == "highest_hot" && HotOnly(g) == [] ==> FirstMaxOf(Select(g, keep), g)
    ensures keep == "first" ==> Select(g, keep) == g[0]
    ensures keep == "last" ==> Select(g, keep) == g[|g| - 1]
    ensures keep !in {"highest_hot", "first", "last"} ==> FirstMaxOf(Select(g, keep), g)
  {
    MaxByScoreIsFirstMax(g);
    var hot := HotOnly(g);
    if hot != [] {
      MaxByScoreIsFirstMax(hot);
      assert MaxByScore(hot) in hot;
    }
  }

  /** A hot-tagged record scoring 50 wins over a week-tagged duplicate scoring 80 under `highest_hot`. */
  lemma HotBeatsHigherScore(h: Post, w: Post)
    requires h.id == w.id && h.sourceTimeframe == Some("hot") && h.score == 50
    requires w.sourceTimeframe == Some("week") && w.score == 80
    ensures Select([h, w], "highest_hot") == h
    ensures Select([h, w], "first") == h && Select([h, w], "last") == w
    ensures Select([h, w], "max") == w
  {
    assert [h][..0] == [] && [w][..0] == [];
    assert HotOnly([h]) == [h] && HotOnly([w]) == [];
    HotOnlyAppend([h], [w]);
    assert [h] + [w] == [h, w];
    assert FirstMaxIndex([h], ScoreOf) == 0;
    assert [h, w][..1] == [h];
    assert FirstMaxIndex([h, w], ScoreOf) == 1;
  }

  /** `pick` applied to every group, in the order of the groups. */
  function PickAll<K, T>(m: seq<(K, seq<T>)>, pick: seq<T> --> T): (r: seq<T>)
    requires forall i :: 0 <= i < |m| ==> pick.requires(m[i].1)
    ensures |r| == |m| && forall i :: 0 <= i < |m| ==> r[i] == pick(m[i].1)
  {
    if m == [] then [] else PickAll(m[..|m| - 1], pick) + [pick(m[|m| - 1].1)]
  }

  /** The record the policy `keep` chooses from a non-empty group. */
  function Selector(keep: string): seq<Post> --> Post
  {
    g requires g != [] => Select(g, keep)
  }

  /** One record per group, in the order of the groups. */
  function SelectAll(m: seq<(string, seq<Post>)>, keep: string): (r: seq<Post>)
    requires forall i :: 0 <= i < |m| ==> m[i].1 != []
    ensures |r| == |m| && forall i :: 0 <= i < |m| ==> r[i] == Select(m[i].1, keep)
  {
    PickAll(m, Selector(keep))
  }

  /** What `deduplicate_posts` returns for the tagged records `all`. */
  function Dedup(all: seq<Post>, keep: string): seq<Post>
  {
    GroupByEntries(all, IdOf);
    SelectAll(GroupBy(all, IdOf), keep)
  }

  /**
   * Deduplication keeps exactly one record per distinct id, in the order the ids first occur, and
   * every record it keeps is one of its inputs carrying that id.
   */
  lemma DedupIds(all: seq<Post>, keep: string)
    ensures var u := Dedup(all, keep);
      && OrderedMaps.KeysOf(u, IdOf) == FirstOccurrences(OrderedMaps.KeysOf(all, IdOf))
      && Distinct(OrderedMaps.KeysOf(u, IdOf))
      && forall i :: 0 <= i < |u| ==> u[i] in all
  {
    var m := GroupBy(all, IdOf);
    GroupByEntries(all, IdOf);
    var u := Dedup(all, keep);
    forall i | 0 <= i < |u| ensures u[i] in all && u[i].id == m[i].0 {
      SelectPolicies(m[i].1, keep);
      KeyFilterKeys(all, IdOf, m[i].0);
    }
    assert OrderedMaps.KeysOf(u, IdOf) == Keys(m);
  }

  // ---------------------------------------------------------------- the cleaner and its counters

  /** The `self.stats` dictionary. */
  datatype Counters = Counters(total: nat, valid: nat, invalid: nat, filtered: nat)

  /** `c` after counting every record of `rs`; `total` is left alone. */
  function Counted(c: Counters, rs: seq<Option<RawPost>>, isoParses: string -> bool): Counters
  {
    Counters(c.total, c.valid + CountKind(rs, isoParses, ValidKind),
      c.invalid + CountKind(rs, isoParses, InvalidKind), c.filtered + CountKind(rs, isoParses, FilteredKind))
  }

  /** The counter one verdict increments. */
  function Tally(c: Counters, v: Verdict): Counters
  {
    match v
    case Invalid => c.(invalid := c.invalid + 1)
    case Filtered => c.(filtered := c.filtered + 1)
    case Kept(_) => c.(valid := c.valid + 1)
  }

  /** Counting one more record increments the counter of its verdict. */
  lemma CountedStep(c: Counters, rs: seq<Option<RawPost>>, r: Option<RawPost>, isoParses: string -> bool)
    ensures Counted(c, rs + [r], isoParses) == Tally(Counted(c, rs, isoParses), Classify(r, isoParses))
  {
    ClassifyStep(rs, r, isoParses);
  }

  /** `get_stats`' result: the counters, plus rates in percent once `total` is non-zero. */
  datatype Rates = Rates(valid: real, invalid: real, filtered: real)
  datatype Stats = Stats(counters: Counters, rates: Option<Rates>)

  function Report(c: Counters): (s: Stats)
    ensures s.counters == c
    ensures s.rates.None? <==> c.total == 0
    ensures s.rates.Some? ==>
      && s.rates.value.valid * c.total as real == c.valid as real * 100.0
      && s.rates.value.invalid * c.total as real == c.invalid as real * 100.0
      && s.rates.value.filtered * c.total as real == c.filtered as real * 100.0
  {
    if c.total == 0 then Stats(c, None)
    else
      var t := c.total as real;
      Stats(c, Some(Rates(c.valid as real / t * 100.0, c.invalid as real / t * 100.0, c.filtered as real / t * 100.0)))
  }

  /** The first loop of `deduplicate_posts` for one time frame: every record tagged with the frame. */
  method TagOne(g: Group<Post>) returns (posts: seq<Post>)
    ensures posts == TagGroup(g).posts
  {
    posts := [];
    var j := 0;
    while j < |g.posts|
      invariant 0 <= j <= |g.posts|
      invariant posts == TagGroup(Group(g.key, g.posts[..j])).posts
    {
      posts := posts + [Tagged(g.posts[j], g.key)];
      j := j + 1;
    }
    assert g.posts[..j] == g.posts;
  }

  /** The first loop of `deduplicate_posts`: every record tagged, and all of them in one list. */
  method TagAll(groups: seq<Group<Post>>) returns (tagged: seq<Group<Post>>, all: seq<Post>)
    ensures tagged == TagGroups(groups)
    ensures all == Flatten(tagged)
  {
    all := [];
    tagged := [];
    var i := 0;
    while i < |groups|
      invariant 0 <= i <= |groups|
      invariant tagged == TagGroups(groups[..i])
      invariant all == Flatten(tagged)
    {
      var g := groups[i];
      var posts := TagOne(g);
      assert TagGroups(groups[..i + 1]) == tagged + [TagGroup(g)];
      all := all + posts;
      tagged := tagged + [Group(g.key, posts)];
      assert tagged[..i] == TagGroups(groups[..i]);
      i := i + 1;
    }
    assert groups[..i] == groups;
  }

  /** The second loop of `deduplicate_posts`: the records grouped by id, ids in first-occurrence order. */
  method GroupById(all: seq<Post>) returns (postGroups: seq<(string, seq<Post>)>)
    ensures postGroups == GroupBy(all, IdOf)
  {
    postGroups := [];
    var k := 0;
    while k < |all|
      invariant 0 <= k <= |all|
      invariant postGroups == GroupBy(all[..k], IdOf)
    {
      var p := all[k];
      assert all[..k + 1][..k] == all[..k] && all[..k + 1][k] == p;
      postGroups := Upsert(postGroups, p.id, [], StepWith(Append, p));
      k := k + 1;
    }
    assert all[..k] == all;
  }

  /** The third loop of `deduplicate_posts`: one record chosen from each id's group. */
  method SelectEach(postGroups: seq<(string, seq<Post>)>, keep: string) returns (unique: seq<Post>)
    requires forall i :: 0 <= i < |postGroups| ==> postGroups[i].1 != []
    ensures unique == SelectAll(postGroups, keep)
  {
    unique := [];
    var n := 0;
    while n < |postGroups|
      invariant 0 <= n <= |postGroups|
      invariant unique == SelectAll(postGroups[..n], keep)
    {
      assert postGroups[..n + 1][..n] == postGroups[..n];
      var group := postGroups[n].1;
      var selected;
      if keep == "highest_hot" {
        var hotPosts := HotOnly(group);
        if hotPosts != [] {
          selected := MaxByScore(hotPosts);
        } else {
          selected := MaxByScore(group);
        }
      } else if keep == "first" {
        selected := group[0];
      } else if keep == "last" {
        selected := group[|group| - 1];
      } else {
        selected := MaxByScore(group);
      }
      unique := unique + [selected];
      n := n + 1;
    }
    assert postGroups[..n] == postGroups;
  }

  /** When the counts partition the total, the three rates add up to 100. */
  lemma RatesSum(c: Counters)
    requires c.total > 0 && c.valid + c.invalid + c.filtered == c.total
    ensures var r := Report(c).rates.value; r.valid + r.invalid + r.filtered == 100.0
  {
    var r := Report(c).rates.value;
    var t := c.total as real;
    assert r.valid + r.invalid + r.filtered == (c.valid as real + c.invalid as real + c.filtered as real) / t * 100.0;
    assert c.valid as real + c.invalid as real + c.filtered as real == t;
  }

  class DataCleaner {
    var stats: Counters

    /** The ISO 8601 parser `_validate_post` relies on. */
    const isoParses: string -> bool

    constructor(isoParses: string -> bool)
      ensures stats == Counters(0, 0, 0, 0)
      ensures this.isoParses == isoParses
    {
      this.isoParses := isoParses;
      stats := Counters(0, 0, 0, 0);
    }

    /** The checks `clean_posts` applies to one record, in order, and the cleaning of a survivor. */
    method Judge(r: Option<RawPost>) returns (v: Verdict)
      ensures v == Classify(r, isoParses)
    {
      if r.None? {
        v := Invalid;
      } else if !ValidatePost(r.value, isoParses) {
        v := Invalid;
      } else if !QualityFilter(r.value) {
        v := Filtered;
      } else {
        var c := CleanPostData(r.value);
        v := Kept(c);
      }
    }

    /** The inner loop of `clean_posts`: one group's records, counted and cleaned in order. */
    method CleanGroup(posts: seq<Option<RawPost>>) returns (kept: seq<Post>)
      modifies this
      ensures kept == Survivors(posts, isoParses)
      ensures stats == Counted(old(stats), posts, isoParses)
    {
      kept := [];
      var j := 0;
      while j < |posts|
        invariant 0 <= j <= |posts|
        invariant kept == Survivors(posts[..j], isoParses)
        invariant stats == Counted(old(stats), posts[..j], isoParses)
      {
        var r := posts[j];
        assert posts[..j + 1] == posts[..j] + [r];
        ClassifyStep(posts[..j], r, isoParses);
        CountedStep(old(stats), posts[..j], r, isoParses);
        var v := Judge(r);
        stats := Tally(stats, v);
        if v.Kept? {
          kept := kept + [v.post];
        }
        j := j + 1;
      }
      assert posts[..j] == posts;
    }

    /**
     * `clean_posts`: overwrites `total` with the number of input records and adds this call's
     * counts to the other three counters.
     */
    method CleanPosts(groups: seq<Group<Option<RawPost>>>) returns (cleaned: seq<Group<Post>>)
      modifies this
      ensures cleaned == CleanGroups(groups, isoParses)
      ensures stats == Counted(old(stats).(total := TotalLen(groups)), Flatten(groups), isoParses)
      ensures old(stats.valid) == 0 && old(stats.invalid) == 0 && old(stats.filtered) == 0 ==>
        stats.valid + stats.invalid + stats.filtered == stats.total
    {
      stats := stats.(total := TotalLen(groups));
      ghost var start := stats;
      cleaned := [];
      var i := 0;
      while i < |groups|
        invariant 0 <= i <= |groups|
        invariant cleaned == CleanGroups(groups[..i], isoParses)
        invariant stats == Counted(start, Flatten(groups[..i]), isoParses)
      {
        var done := Flatten(groups[..i]);
        var kept := CleanGroup(groups[i].posts);
        assert groups[..i + 1][..i] == groups[..i];
        assert Flatten(groups[..i + 1]) == done + groups[i].posts;
        CountKindAppend(done, groups[i].posts, isoParses, ValidKind);
        CountKindAppend(done, groups[i].posts, isoParses, InvalidKind);
        CountKindAppend(done, groups[i].posts, isoParses, FilteredKind);
        cleaned := cleaned + [Group(groups[i].key, kept)];
        i := i + 1;
      }
      assert groups[..i] == groups;
      CountsPartition(Flatten(groups), isoParses);
      FlattenLength(groups);
    }

    /**
     * `deduplicate_posts`: tags every record of the input with its timeframe (the input records are
     * changed; `tagged` is the input as it is afterwards), groups the records by id and keeps one per
     * id by the `keep` policy.
     */
    method DeduplicatePosts(groups: seq<Group<Post>>, keep: string) returns (tagged: seq<Group<Post>>, unique: seq<Post>)
      ensures tagged == TagGroups(groups)
      ensures unique == Dedup(Flatten(tagged), keep)
    {
      var all;
      tagged, all := TagAll(groups);
      var postGroups := GroupById(all);
      GroupByEntries(all, IdOf);
      unique := SelectEach(postGroups, keep);
    }

    /** `get_stats` */
    function GetStats(): Stats
      reads this
    {
      Report(stats)
    }
  }
}
