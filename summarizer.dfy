/**
 * The summary stage (`PostSummarizer`): per post, a prompt built from the title, the body text and,
 * for short bodies, a block of top comments; an LLM reply cut to 100 characters; and a fan-out that
 * returns one record per input post, summarised or marked with the failure.
 *
 * The comment fetch and the LLM are given as functions; the thread pool is a completion `order`.
 */
module Summarizer {

  import opened Wrappers
  import opened Text
  import opened Posts
  import opened Sorting

  // ---------------------------------------------------------------- comments

  /** A top-level comment; `None` when the object has no `body` attribute. */
  datatype Comment = Comment(body: Option<string>)

  /** What fetching a post's comments yields: the comment list, or an exception. */
  datatype Fetched = Fetched(comments: seq<Comment>) | FetchFailed

  const NoUsableComments := "无有效评论"
  const CommentsUnavailable := "无法获取评论"

  /** The lines of the comment block: `"- "` and the first 200 characters of each usable body. */
  function CommentLines(cs: seq<Comment>): (r: seq<string>)
    ensures |r| <= |cs|
  {
    if cs == [] then []
    else
      var c := cs[|cs| - 1];
      CommentLines(cs[..|cs| - 1])
        + (if c.body.Some? && c.body.value != Deleted then ["- " + Cap(c.body.value, 200)] else [])
  }

  /** `_fetch_comments_for_summary` on what the fetch returned. */
  function CommentText(f: Fetched, maxComments: int): string
  {
    match f
    case FetchFailed => CommentsUnavailable
    case Fetched(cs) =>
      var lines := CommentLines(Prefix(cs, maxComments));
      if lines == [] then NoUsableComments else Join(lines, "\n")
  }

  /** A comment that yields a line: it has a body and the body is not Reddit's deleted marker. */
  predicate Usable(c: Comment)
  {
    c.body.Some? && c.body.value != Deleted
  }

  /** The usable comments, in thread order. */
  function UsableComments(cs: seq<Comment>): (r: seq<Comment>)
    ensures |r| <= |cs|
    ensures forall c :: c in r <==> c in cs && Usable(c)
    ensures forall j :: 0 <= j < |r| ==> Usable(r[j])
  {
    if cs == [] then []
    else
      var c := cs[|cs| - 1];
      var init := cs[..|cs| - 1];
      assert cs == init + [c];
      UsableComments(init) + (if Usable(c) then [c] else [])
  }

  /** The filter goes comment by comment: on a concatenation it keeps each part's usable comments, in order. */
  lemma {:induction false} UsableCommentsAppend(a: seq<Comment>, b: seq<Comment>)
    ensures UsableComments(a + b) == UsableComments(a) + UsableComments(b)
    decreases |b|
  {
    if b != [] {
      var init := b[..|b| - 1];
      UsableCommentsAppend(a, init);
      assert (a + b)[..|a + b| - 1] == a + init && (a + b)[|a + b| - 1] == b[|b| - 1];
    } else {
      assert a + b == a;
    }
  }

  /**
   * The lines correspond one to one, in order, to the usable comments: line `j` is `"- "` and at
   * most 200 characters of the `j`-th usable body. So there is no line exactly when no comment is
   * usable.
   */
  lemma {:induction false} CommentLinesShape(cs: seq<Comment>)
    ensures var lines := CommentLines(cs); var u := UsableComments(cs);
      && |lines| == |u|
      && (forall j :: 0 <= j < |u| ==> lines[j] == "- " + Cap(u[j].body.value, 200) && |lines[j]| <= 202)
      && (lines == [] <==> forall i :: 0 <= i < |cs| ==> !Usable(cs[i]))
    decreases |cs|
  {
    if cs != [] {
      var init := cs[..|cs| - 1];
      var c := cs[|cs| - 1];
      CommentLinesShape(init);
      var u := UsableComments(cs);
      var lines := CommentLines(cs);
      assert forall i :: 0 <= i < |init| ==> cs[i] == init[i];
      if Usable(c) {
        assert lines[|lines| - 1] == "- " + Cap(c.body.value, 200);
      } else {
        assert lines == CommentLines(init);
        assert !Usable(cs[|cs| - 1]);
      }
    }
  }

  /** Deleted and body-less comments contribute nothing, so a thread of them gives the fallback text. */
  lemma {:induction false} NoLinesWithoutBodies(cs: seq<Comment>)
    requires forall i :: 0 <= i < |cs| ==> cs[i].body.None? || cs[i].body.value == Deleted
    ensures CommentLines(cs) == []
    decreases |cs|
  {
    if cs != [] {
      NoLinesWithoutBodies(cs[..|cs| - 1]);
    }
  }

  /** The fallback texts are used exactly when there is no usable line; a failed fetch never aborts. */
  lemma CommentTextCases(f: Fetched, maxComments: int)
    ensures f.FetchFailed? ==> CommentText(f, maxComments) == CommentsUnavailable
    ensures f.Fetched? && CommentLines(Prefix(f.comments, maxComments)) == [] ==> CommentText(f, maxComments) == NoUsableComments
    ensures f.Fetched? && CommentLines(Prefix(f.comments, maxComments)) != [] ==>
      CommentText(f, maxComments) == Join(CommentLines(Prefix(f.comments, maxComments)), "\n")
    ensures f.Fetched? ==> |CommentLines(Prefix(f.comments, maxComments))| <= (if maxComments >= 0 then maxComments else |f.comments|)
  {
  }

  /** The comment loop of `_fetch_comments_for_summary`. */
  method CommentBlock(f: Fetched, maxComments: int) returns (text: string)
    ensures text == CommentText(f, maxComments)
  {
    if f.FetchFailed? {
      return CommentsUnavailable;
    }
    var cs := Prefix(f.comments, maxComments);
    var lines: seq<string> := [];
    var i := 0;
    while i < |cs|
      invariant 0 <= i <= |cs|
      invariant lines == CommentLines(cs[..i])
    {
      var c := cs[i];
      assert cs[..i + 1][..i] == cs[..i];
      if c.body.Some? && c.body.value != Deleted {
        lines := lines + ["- " + Cap(c.body.value, 200)];
      }
      i := i + 1;
    }
    assert cs[..i] == cs;
    text := if lines == [] then NoUsableComments else Join(lines, "\n");
  }

  // ---------------------------------------------------------------- one post

  /** The body a summary is made from: the preview when non-empty, else the content. */
  function SourceText(p: Post): string
  {
    if p.preview != "" then p.preview else p.content
  }

  /** The post content handed to the LLM: with a comment block when the body is short. */
  datatype Prompt = TextOnly(title: string, text: string) | WithComments(title: string, text: string, comments: string)

  function Render(pr: Prompt): string
  {
    match pr
    case TextOnly(t, x) => "标题: " + t + "\n\n正文: " + x
    case WithComments(t, x, c) => "标题: " + t + "\n\n正文: " + x + "\n\n评论:\n" + c
  }

  /** The instructions wrapped around the post content. */
  function FullPrompt(content: string): string
  {
    PromptHead + content + PromptTail
  }

  /** The instructions the prompt opens with. */
  const PromptHead := "请为以下Reddit帖子生成一个简洁的摘要，要求：\n1. 摘要字数控制在100字以内\n2. 突出帖子的核心内容和要点\n3. 使用中文\n4. 直接输出摘要，不要添加任何前缀或说明\n\n帖子内容：\n"

  /** The cue the prompt closes with. */
  const PromptTail := "\n\n摘要："

  /** What the LLM call yields: the reply text, or an exception message. */
  datatype Reply = Reply(text: string) | Failure(message: string)

  datatype Result<T> = Ok(value: T) | Err(error: string)

  const LlmFailurePrefix := "LLM调用失败: "

  /** `_call_llm_for_summary`: the reply stripped and cut to 100 characters, or a re-raised failure. */
  function CallLlm(content: string, llm: string -> Reply): (r: Result<string>)
    ensures r.Ok? ==> |r.value| <= 100 && llm(FullPrompt(content)).Reply?
    ensures r.Ok? ==> r.value <= Strip(llm(FullPrompt(content)).text)
    ensures r.Ok? && |Strip(llm(FullPrompt(content)).text)| > 100 ==> |r.value| == 100
    ensures r.Err? ==> llm(FullPrompt(content)).Failure? && r.error == LlmFailurePrefix + llm(FullPrompt(content)).message
  {
    match llm(FullPrompt(content))
    case Reply(t) => Ok(Cap(Strip(t), 100))
    case Failure(m) => Err(LlmFailurePrefix + m)
  }

  /** A reply of at most 100 characters once stripped is returned whole, stripped and uncut. */
  lemma CallLlmShort(content: string, llm: string -> Reply)
    requires llm(FullPrompt(content)).Reply?
    requires |Strip(llm(FullPrompt(content)).text)| <= 100
    ensures CallLlm(content, llm) == Ok(Strip(llm(FullPrompt(content)).text))
  {
  }

  /** The prompt `_generate_single_summary` builds: comments are fetched only for a body under 50 characters. */
  function PromptFor(p: Post, fetch: string -> Fetched, maxComments: int): (pr: Prompt)
    ensures pr.WithComments? <==> |SourceText(p)| < 50
    ensures pr.title == p.title && pr.text == SourceText(p)
  {
    var text := SourceText(p);
    if |text| < 50 then WithComments(p.title, text, CommentText(fetch(p.id), maxComments))
    else TextOnly(p.title, text)
  }

  /** `_generate_single_summary`: a copy with `summary` set, or the failure. */
  function SingleSummary(p: Post, fetch: string -> Fetched, maxComments: int, llm: string -> Reply): (r: Result<Post>)
    ensures r.Ok? ==> r.value == p.(summary := r.value.summary) && r.value.summary.Some? && |r.value.summary.value| <= 100
  {
    match CallLlm(Render(PromptFor(p, fetch, maxComments)), llm)
    case Ok(s) => Ok(p.(summary := Some(s)))
    case Err(e) => Err(e)
  }

  method GenerateSingleSummary(p: Post, fetch: string -> Fetched, maxComments: int, llm: string -> Reply)
    returns (r: Result<Post>)
    ensures r == SingleSummary(p, fetch, maxComments, llm)
  {
    var text := SourceText(p);
    var content: string;
    if |text| < 50 {
      var comments := CommentBlock(fetch(p.id), maxComments);
      content := Render(WithComments(p.title, text, comments));
    } else {
      content := Render(TextOnly(p.title, text));
    }
    var reply := CallLlm(content, llm);
    match reply
    case Ok(s) =>
      r := Ok(p.(summary := Some(s)));
    case Err(e) =>
      r := Err(e);
  }

  // ---------------------------------------------------------------- fan-out

  /** The record the fan-out keeps for one post: the summarised copy, or the post marked with the error. */
  function Outcome(p: Post, fetch: string -> Fetched, maxComments: int, llm: string -> Reply): (q: Post)
    ensures q.id == p.id
    ensures q.summary.Some? || (q.summary.None? && q.summaryError.Some?)
  {
    match SingleSummary(p, fetch, maxComments, llm)
    case Ok(s) => s
    case Err(e) => p.(summaryError := Some(e), summary := None)
  }

  /** A failed post is the input with only `summary` cleared and `summary_error` set to the failure text. */
  lemma OutcomeCases(p: Post, fetch: string -> Fetched, maxComments: int, llm: string -> Reply)
    ensures var q := Outcome(p, fetch, maxComments, llm);
      match SingleSummary(p, fetch, maxComments, llm)
      case Ok(s) => q == p.(summary := q.summary) && |q.summary.value| <= 100
      case Err(e) => q == p.(summary := None, summaryError := Some(e)) && e[..|LlmFailurePrefix|] == LlmFailurePrefix
  {
  }

  function Indices(n: nat): (r: seq<nat>)
    ensures |r| == n && forall i :: 0 <= i < n ==> r[i] == i
  {
    seq(n, i requires 0 <= i < n => i)
  }

  /** `order` lists every index below `n` once: the order in which the tasks complete. */
  predicate IsOrder(order: seq<nat>, n: nat)
  {
    multiset(order) == multiset(Indices(n))
  }

  function Pick<T>(xs: seq<T>, order: seq<nat>): (r: seq<T>)
    requires forall k :: 0 <= k < |order| ==> order[k] < |xs|
    ensures |r| == |order| && forall k :: 0 <= k < |order| ==> r[k] == xs[order[k]]
  {
    seq(|order|, k requires 0 <= k < |order| => xs[order[k]])
  }

  lemma OrderBounded(order: seq<nat>, n: nat)
    requires IsOrder(order, n)
    ensures forall k :: 0 <= k < |order| ==> order[k] < n
  {
    forall k | 0 <= k < |order| ensures order[k] < n {
      assert order[k] in multiset(Indices(n));
    }
  }

  /** Removing the last index from a completion order leaves a completion order of the rest. */
  lemma RemoveLast(order: seq<nat>, k: nat, last: nat)
    requires IsOrder(order, last + 1) && k < |order| && order[k] == last
    ensures IsOrder(order[..k] + order[k + 1..], last)
  {
    var rest := order[..k] + order[k + 1..];
    assert order == order[..k] + [last] + order[k + 1..];
    assert Indices(last + 1) == Indices(last) + [last];
    calc {
      multiset(rest);
      (multiset(rest) + multiset{last}) - multiset{last};
      multiset(order) - multiset{last};
      multiset(Indices(last + 1)) - multiset{last};
      (multiset(Indices(last)) + multiset{last}) - multiset{last};
      multiset(Indices(last));
    }
  }

  /** Placing the last element among a rearrangement of the others rearranges them all. */
  lemma PickInsertLast<T>(xs: seq<T>, a: seq<nat>, b: seq<nat>, last: nat)
    requires |xs| == last + 1
    requires forall k :: 0 <= k < |a| ==> a[k] < last
    requires forall k :: 0 <= k < |b| ==> b[k] < last
    requires multiset(Pick(xs[..last], a + b)) == multiset(xs[..last])
    ensures multiset(Pick(xs, a + [last] + b)) == multiset(xs)
  {
    var init := xs[..last];
    var pa, pb := Pick(xs, a), Pick(xs, b);
    assert Pick(init, a + b) == pa + pb;
    assert Pick(xs, a + [last] + b) == pa + [xs[last]] + pb;
    calc {
      multiset(Pick(xs, a + [last] + b));
      multiset(pa + [xs[last]] + pb);
      multiset(pa + pb) + multiset{xs[last]};
      multiset(init) + multiset{xs[last]};
      { assert xs == init + [xs[last]]; }
      multiset(xs);
    }
  }

  /** The last index occurs somewhere in a non-empty completion order. */
  lemma LastOccurs(order: seq<nat>, n: nat) returns (k: nat)
    requires IsOrder(order, n) && n > 0
    ensures k < |order| && order[k] == n - 1
  {
    assert Indices(n)[n - 1] == n - 1;
    assert n - 1 in multiset(order);
    k :| 0 <= k < |order| && order[k] == n - 1;
  }

  /** Bounds on the indices of a concatenation hold for each part. */
  lemma SplitBounded(a: seq<nat>, b: seq<nat>, n: nat)
    requires forall k :: 0 <= k < |a + b| ==> (a + b)[k] < n
    ensures forall k :: 0 <= k < |a| ==> a[k] < n
    ensures forall k :: 0 <= k < |b| ==> b[k] < n
  {
    forall k | 0 <= k < |a| ensures a[k] < n {
      assert a[k] == (a + b)[k];
    }
    forall k | 0 <= k < |b| ensures b[k] < n {
      assert b[k] == (a + b)[|a| + k];
    }
  }

  /** Taking the elements in a completion order rearranges them: each one appears as often as before. */
  lemma {:induction false} PickPermutes<T>(xs: seq<T>, order: seq<nat>)
    requires IsOrder(order, |xs|)
    ensures forall k :: 0 <= k < |order| ==> order[k] < |xs|
    ensures multiset(Pick(xs, order)) == multiset(xs)
    decreases |xs|
  {
    OrderBounded(order, |xs|);
    if |xs| == 0 {
      assert |multiset(order)| == 0;
    } else {
      var last: nat := |xs| - 1;
      var k := LastOccurs(order, |xs|);
      var a, b := order[..k], order[k + 1..];
      RemoveLast(order, k, last);
      PickPermutes(xs[..last], a + b);
      SplitBounded(a, b, last);
      PickInsertLast(xs, a, b, last);
      assert order == a + [last] + b;
    }
  }

  /** The fan-out's result: one outcome per post, in completion order. */
  function Summaries(posts: seq<Post>, order: seq<nat>, fetch: string -> Fetched, maxComments: int, llm: string -> Reply): (r: seq<Post>)
    requires IsOrder(order, |posts|)
  {
    OrderBounded(order, |posts|);
    seq(|order|, k requires 0 <= k < |order| => Outcome(posts[order[k]], fetch, maxComments, llm))
  }

  /** Each post's outcome, in input order. */
  function Outcomes(posts: seq<Post>, fetch: string -> Fetched, maxComments: int, llm: string -> Reply): seq<Post>
  {
    seq(|posts|, i requires 0 <= i < |posts| => Outcome(posts[i], fetch, maxComments, llm))
  }

  function Ids(posts: seq<Post>): (r: seq<string>)
    ensures |r| == |posts| && forall i :: 0 <= i < |posts| ==> r[i] == posts[i].id
  {
    seq(|posts|, i requires 0 <= i < |posts| => posts[i].id)
  }

  /**
   * Every input post comes back exactly once, summarised or marked failed: the output ids are the
   * input ids rearranged, and the output posts are the per-post outcomes rearranged.
   */
  lemma SummariesPermuteIds(posts: seq<Post>, order: seq<nat>, fetch: string -> Fetched, maxComments: int, llm: string -> Reply)
    requires IsOrder(order, |posts|)
    ensures var r := Summaries(posts, order, fetch, maxComments, llm);
      && |r| == |posts|
      && multiset(Ids(r)) == multiset(Ids(posts))
      && multiset(r) == multiset(Outcomes(posts, fetch, maxComments, llm))
      && forall q :: q in r ==> q.summary.Some? || q.summaryError.Some?
  {
    var r := Summaries(posts, order, fetch, maxComments, llm);
    assert |multiset(order)| == |multiset(Indices(|posts|))|;
    PickPermutes(Ids(posts), order);
    assert Ids(r) == Pick(Ids(posts), order);
    PickPermutes(Outcomes(posts, fetch, maxComments, llm), order);
    assert r == Pick(Outcomes(posts, fetch, maxComments, llm), order);
  }

  /** With tasks completing in submission order, the output is the outcomes in input order. */
  lemma SummariesInOrder(posts: seq<Post>, fetch: string -> Fetched, maxComments: int, llm: string -> Reply)
    ensures IsOrder(Indices(|posts|), |posts|)
    ensures var r := Summaries(posts, Indices(|posts|), fetch, maxComments, llm);
      |r| == |posts| && forall i :: 0 <= i < |posts| ==> r[i] == Outcome(posts[i], fetch, maxComments, llm)
  {
  }

  /** One task of the fan-out, with its exception handler. */
  method SummariseOne(post: Post, fetch: string -> Fetched, maxComments: int, llm: string -> Reply) returns (q: Post)
    ensures q == Outcome(post, fetch, maxComments, llm)
  {
    var result := GenerateSingleSummary(post, fetch, maxComments, llm);
    match result
    case Ok(s) =>
      q := s;
    case Err(e) =>
      q := post.(summaryError := Some(e), summary := None);
  }

  /**
   * The collecting loop of the fan-out: `task` is one post's task with its exception handler, and
   * the results are taken in completion order.
   */
  method CollectInOrder<T>(xs: seq<T>, order: seq<nat>, task: T -> T) returns (out: seq<T>)
    requires forall k :: 0 <= k < |order| ==> order[k] < |xs|
    ensures |out| == |order|
    ensures forall j :: 0 <= j < |order| ==> out[j] == task(xs[order[j]])
  {
    out := [];
    var k := 0;
    while k < |order|
      invariant 0 <= k <= |order|
      invariant |out| == k
      invariant forall j :: 0 <= j < k ==> out[j] == task(xs[order[j]])
    {
      out := out + [task(xs[order[k]])];
      k := k + 1;
    }
  }

  /**
   * `generate_summaries_for_posts`, with the tasks taken in the order they complete. A failure is
   * caught per post, so the other posts are unaffected.
   */
  method GenerateSummaries(posts: seq<Post>, order: seq<nat>, fetch: string -> Fetched, maxComments: int, llm: string -> Reply)
    returns (out: seq<Post>)
    requires IsOrder(order, |posts|)
    ensures out == Summaries(posts, order, fetch, maxComments, llm)
  {
    OrderBounded(order, |posts|);
    out := CollectInOrder(posts, order, p => Outcome(p, fetch, maxComments, llm));
    var s := Summaries(posts, order, fetch, maxComments, llm);
    assert |out| == |s| && forall j :: 0 <= j < |s| ==> out[j] == s[j];
  }
}
