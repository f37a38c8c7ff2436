/**
 * The records the pipeline passes between its stages. Posts arrive grouped under keys of the
 * form `"<timeframe>_<subreddit>"`, in the order the fetch step produced them.
 */
module Posts {

  import opened Wrappers
  import Text

  /** A `score` or `num_comments` value as the fetch step hands it over: an integer, or something `float()` rejects. */
  datatype Num = Int(value: int) | NotNumeric

  /**
   * A `created_utc` value: absent or `None`, an epoch number, or a string that may or may not be
   * ISO 8601. `Epoch(0)` and `Iso("")` are falsy, as in Python.
   */
  datatype Timestamp = Missing | Epoch(seconds: int) | Iso(text: string)

  predicate TimestampTruthy(t: Timestamp)
  {
    match t
    case Missing => false
    case Epoch(s) => s != 0
    case Iso(s) => s != ""
  }

  /**
   * A record as the fetch step produced it. A text field the record lacks, or holds as `None`, is
   * the empty string: every consumer reads it with `.get(.., '')` or tests its truth value only.
   */
  datatype RawPost = RawPost(
    id: string,
    title: string,
    author: string,
    subreddit: string,
    score: Num,
    numComments: Num,
    upvoteRatio: real,
    created: Timestamp,
    preview: string,
    content: string,
    flair: string,
    permalink: string,
    domain: string)

  /**
   * A cleaned record, with the annotations the later stages add: `source_timeframe` (deduplication),
   * `source_key` (ranking), `quality_score` (scoring), `summary` and `summary_error` (summaries).
   */
  datatype Post = Post(
    id: string,
    title: string,
    author: string,
    subreddit: string,
    score: int,
    numComments: int,
    upvoteRatio: real,
    created: Timestamp,
    preview: string,
    content: string,
    flair: string,
    permalink: string,
    domain: string,
    sourceTimeframe: Option<string>,
    sourceKey: Option<string>,
    qualityScore: Option<real>,
    summary: Option<string>,
    summaryError: Option<string>)

  /** A Python optional string counts only when it is present and non-empty. */
  predicate Truthy(s: Option<string>)
  {
    s.Some? && s.value != ""
  }

  /** One entry of a `{key: [posts]}` dictionary. */
  datatype Group<T> = Group(key: string, posts: seq<T>)

  /** The author name Reddit reports for a deleted account. */
  const Deleted := "[deleted]"

  /** `key.split('_')[0]`: the timeframe part of a group key. */
  function Timeframe(key: string): string
  {
    Text.BeforeFirst(key, '_')
  }

  /** The posts of all groups, in dictionary iteration order. */
  function Flatten<T>(groups: seq<Group<T>>): seq<T>
  {
    if groups == [] then [] else Flatten(groups[..|groups| - 1]) + groups[|groups| - 1].posts
  }

  /** `sum(len(posts) for posts in d.values())` */
  function TotalLen<T>(groups: seq<Group<T>>): nat
  {
    if groups == [] then 0 else TotalLen(groups[..|groups| - 1]) + |groups[|groups| - 1].posts|
  }

  function GroupKeys<T>(groups: seq<Group<T>>): (r: seq<string>)
    ensures |r| == |groups| && forall i :: 0 <= i < |groups| ==> r[i] == groups[i].key
  {
    seq(|groups|, i requires 0 <= i < |groups| => groups[i].key)
  }

  lemma {:induction false} FlattenLength<T>(groups: seq<Group<T>>)
    ensures |Flatten(groups)| == TotalLen(groups)
    decreases |groups|
  {
    if groups != [] {
      FlattenLength(groups[..|groups| - 1]);
    }
  }

  /** The corpus is empty exactly when every group is. */
  lemma {:induction false} FlattenEmpty<T>(groups: seq<Group<T>>)
    ensures Flatten(groups) == [] <==> forall i :: 0 <= i < |groups| ==> groups[i].posts == []
    decreases |groups|
  {
    if groups != [] {
      var init := groups[..|groups| - 1];
      FlattenEmpty(init);
      forall i | 0 <= i < |init| ensures init[i] == groups[i] { }
    }
  }

  function ScoreOf(p: Post): real
  {
    p.score as real
  }

  function CommentsOf(p: Post): real
  {
    p.numComments as real
  }

  function IdOf(p: Post): string
  {
    p.id
  }
}
