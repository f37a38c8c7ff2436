/**
 * The string rules of the report writer (`ReportGenerator`): Markdown escaping of table cells,
 * dropping missing records before analysis, the hot-post lines of the analysis prompt, title and
 * summary cells of the ranking tables, and the labels of the keyword table.
 */
module Reporter {

  import opened Wrappers
  import opened Text
  import opened Posts
  import opened Sorting
  import Summarizer

  // ---------------------------------------------------------------- Markdown escaping

  /** The characters `_escape_markdown` prefixes with a backslash, in the order it treats them. */
  const EscapeChars: seq<char> := ['|', '[', ']', '(', ')', '*', '_', '`']

  /** What one input character becomes in an escaped cell. */
  function EscapeChar(x: char): string
  {
    if x in EscapeChars then ['\\', x]
    else if x == '\n' || x == '\r' then " "
    else [x]
  }

  /** The image of `s` under a per-character rewrite `f`, chunk after chunk. */
  function MapChars(s: string, f: char -> string): string
  {
    if s == [] then "" else MapChars(s[..|s| - 1], f) + f(s[|s| - 1])
  }

  /** The escaped text: every character replaced by its `EscapeChar` chunk. */
  function Escaped(s: string): string
  {
    MapChars(s, EscapeChar)
  }

  /** The text after the first `j` passes of the escaping loop. */
  function Stage(j: nat): char -> string
    requires j <= |EscapeChars|
  {
    x => if x in EscapeChars[..j] then ['\\', x] else [x]
  }

  /** The text after all passes and the newline replacement. */
  function NoNewline(x: char): string
  {
    if x == '\n' then " " else Stage(|EscapeChars|)(x)
  }

  /** Replacing one character in a chunked text replaces it chunk by chunk. */
  lemma {:induction false} ReplaceMap(s: string, f: char -> string, g: char -> string, c: char, rep: string)
    requires forall x :: Replace(f(x), c, rep) == g(x)
    ensures Replace(MapChars(s, f), c, rep) == MapChars(s, g)
    decreases |s|
  {
    if s != [] {
      var init := s[..|s| - 1];
      ReplaceMap(init, f, g, c, rep);
      ReplaceAppend(MapChars(init, f), f(s[|s| - 1]), c, rep);
    }
  }

  lemma {:induction false} MapIdentity(s: string)
    ensures MapChars(s, Stage(0)) == s
    decreases |s|
  {
    if s != [] {
      MapIdentity(s[..|s| - 1]);
      assert s == s[..|s| - 1] + [s[|s| - 1]];
    }
  }

  lemma ReplaceOne(x: char, c: char, rep: string)
    ensures Replace([x], c, rep) == if x == c then rep else [x]
  {
    assert [x][1..] == [];
  }

  lemma ReplaceTwo(x: char, y: char, c: char, rep: string)
    requires x != c && y != c
    ensures Replace([x, y], c, rep) == [x, y]
  {
    assert [x, y][1..] == [y];
    ReplaceOne(y, c, rep);
  }

  /** Pass `j` escapes exactly the `j`-th character and leaves every chunk of the earlier passes alone. */
  lemma StageStep(j: nat)
    requires j < |EscapeChars|
    ensures var c := EscapeChars[j];
      forall x :: Replace(Stage(j)(x), c, ['\\', c]) == Stage(j + 1)(x)
  {
    var c := EscapeChars[j];
    assert EscapeChars[..j + 1] == EscapeChars[..j] + [c];
    forall x ensures Replace(Stage(j)(x), c, ['\\', c]) == Stage(j + 1)(x) {
      if x in EscapeChars[..j] {
        ReplaceTwo('\\', x, c, ['\\', c]);
      } else {
        ReplaceOne(x, c, ['\\', c]);
      }
    }
  }

  lemma NewlineStep()
    ensures forall x :: Replace(Stage(|EscapeChars|)(x), '\n', " ") == NoNewline(x)
  {
    assert EscapeChars[..|EscapeChars|] == EscapeChars;
    forall x ensures Replace(Stage(|EscapeChars|)(x), '\n', " ") == NoNewline(x) {
      if x in EscapeChars {
        ReplaceTwo('\\', x, '\n', " ");
      } else {
        ReplaceOne(x, '\n', " ");
      }
    }
  }

  lemma ReturnStep()
    ensures forall x :: Replace(NoNewline(x), '\r', " ") == EscapeChar(x)
  {
    assert EscapeChars[..|EscapeChars|] == EscapeChars;
    forall x ensures Replace(NoNewline(x), '\r', " ") == EscapeChar(x) {
      if x in EscapeChars {
        ReplaceTwo('\\', x, '\r', " ");
      } else if x == '\n' {
        ReplaceOne(' ', '\r', " ");
      } else {
        ReplaceOne(x, '\r', " ");
      }
    }
  }

  /**
   * `_escape_markdown`: one `replace` pass per special character, then line breaks become spaces;
   * the result is the character-by-character escape of the input.
   */
  method EscapeMarkdown(text: string) returns (r: string)
    ensures r == Escaped(text)
  {
    if text == "" {
      return "";
    }
    r := text;
    MapIdentity(text);
    var j := 0;
    while j < |EscapeChars|
      invariant 0 <= j <= |EscapeChars|
      invariant r == MapChars(text, Stage(j))
    {
      var c := EscapeChars[j];
      StageStep(j);
      ReplaceMap(text, Stage(j), Stage(j + 1), c, ['\\', c]);
      r := Replace(r, c, ['\\', c]);
      j := j + 1;
    }
    NewlineStep();
    ReplaceMap(text, Stage(|EscapeChars|), NoNewline, '\n', " ");
    r := Replace(r, '\n', " ");
    ReturnStep();
    ReplaceMap(text, NoNewline, EscapeChar, '\r', " ");
    r := Replace(r, '\r', " ");
  }

  /** How many characters of `s` get a backslash. */
  function EscapableCount(s: string): nat
  {
    if s == [] then 0 else EscapableCount(s[..|s| - 1]) + (if s[|s| - 1] in EscapeChars then 1 else 0)
  }

  /**
   * Escaping grows the text by one character per special character, leaves no line break, and
   * puts a backslash in front of every `|`, so a cell can never end a table row or split a column.
   */
  lemma {:induction false} EscapedProps(s: string)
    ensures var r := Escaped(s);
      && |r| == |s| + EscapableCount(s)
      && '\n' !in r && '\r' !in r
      && forall i :: 0 <= i < |r| && r[i] == '|' ==> 0 < i && r[i - 1] == '\\'
    decreases |s|
  {
    if s != [] {
      var init := s[..|s| - 1];
      EscapedProps(init);
      var a := Escaped(init);
      var b := EscapeChar(s[|s| - 1]);
      var r := a + b;
      assert Escaped(s) == r;
      forall i | 0 <= i < |r| && r[i] == '|' ensures 0 < i && r[i - 1] == '\\' {
        if i >= |a| {
          assert b[i - |a|] == '|';
          assert i - |a| == 1;
        }
      }
    }
  }

  /** Escaping a concatenation escapes the parts. */
  lemma {:induction false} EscapedAppend(a: string, b: string)
    ensures Escaped(a + b) == Escaped(a) + Escaped(b)
    decreases |b|
  {
    if b == [] {
      assert a + b == a;
    } else {
      var init := b[..|b| - 1];
      EscapedAppend(a, init);
      assert (a + b)[..|a + b| - 1] == a + init;
    }
  }

  // ---------------------------------------------------------------- missing records

  /** The records of `xs` that are present, in order. */
  function Present<T>(xs: seq<Option<T>>): seq<T>
  {
    if xs == [] then []
    else
      var last := xs[|xs| - 1];
      Present(xs[..|xs| - 1]) + (if last.Some? then [last.value] else [])
  }

  function NoneCount<T>(xs: seq<Option<T>>): nat
  {
    if xs == [] then 0 else NoneCount(xs[..|xs| - 1]) + (if xs[|xs| - 1].None? then 1 else 0)
  }

  /**
   * Filtering drops exactly the missing entries: one output record per present entry, the same
   * records, the input unchanged when nothing is missing, and the order kept across any split.
   */
  lemma {:induction false} PresentProps<T>(xs: seq<Option<T>>)
    ensures |Present(xs)| + NoneCount(xs) == |xs|
    ensures forall y :: y in Present(xs) <==> Some(y) in xs
    ensures NoneCount(xs) == 0 ==> forall i :: 0 <= i < |xs| ==> xs[i] == Some(Present(xs)[i])
    decreases |xs|
  {
    if xs != [] {
      var init := xs[..|xs| - 1];
      PresentProps(init);
      assert xs == init + [xs[|xs| - 1]];
    }
  }

  lemma {:induction false} PresentAppend<T>(a: seq<Option<T>>, b: seq<Option<T>>)
    ensures Present(a + b) == Present(a) + Present(b)
    decreases |b|
  {
    if b == [] {
      assert a + b == a;
    } else {
      PresentAppend(a, b[..|b| - 1]);
      assert (a + b)[..|a + b| - 1] == a + b[..|b| - 1];
    }
  }

  /** The filtering loops of `analyze_with_llm`. */
  method DropNone<T>(xs: seq<Option<T>>) returns (r: seq<T>)
    ensures r == Present(xs)
  {
    r := [];
    var i := 0;
    while i < |xs|
      invariant 0 <= i <= |xs|
      invariant r == Present(xs[..i])
    {
      assert xs[..i + 1][..i] == xs[..i];
      if xs[i].Some? {
        r := r + [xs[i].value];
      } else {
        assert r == r + [];
      }
      i := i + 1;
    }
    assert xs[..i] == xs;
  }

  // ---------------------------------------------------------------- analysis call

  const NoHotPosts := "数据不足：没有可分析的热门帖子"
  const AnalysisFailedPrefix := "分析失败: "

  /**
   * What `analyze_with_llm` returns; `ask` stands for building the prompt from the filtered lists
   * and streaming the model's answer.
   */
  function AnalysisOf(hot: seq<Option<Post>>, detailed: seq<Option<Post>>, ask: (seq<Post>, seq<Post>) -> Summarizer.Reply): string
  {
    var h := Present(hot);
    if h == [] then NoHotPosts
    else
      match ask(h, Present(detailed))
      case Reply(text) => text
      case Failure(message) => AnalysisFailedPrefix + message
  }

  /**
   * With no hot post left after filtering the fixed notice is returned whatever the model would
   * say, so the model is not consulted; otherwise the model sees exactly the present records and
   * its answer or its prefixed failure is returned.
   */
  lemma AnalysisCases(hot: seq<Option<Post>>, detailed: seq<Option<Post>>,
                      ask: (seq<Post>, seq<Post>) -> Summarizer.Reply, other: (seq<Post>, seq<Post>) -> Summarizer.Reply)
    ensures NoneCount(hot) == |hot| ==> AnalysisOf(hot, detailed, ask) == NoHotPosts == AnalysisOf(hot, detailed, other)
    ensures NoneCount(hot) < |hot| ==> var reply := ask(Present(hot), Present(detailed));
      && Present(hot) != []
      && AnalysisOf(hot, detailed, ask) == (if reply.Reply? then reply.text else AnalysisFailedPrefix + reply.message)
  {
    PresentProps(hot);
  }

  /** `analyze_with_llm`: filters both lists, then answers without the model or asks it. */
  method AnalyzeWithLlm(hot: seq<Option<Post>>, detailed: seq<Option<Post>>, ask: (seq<Post>, seq<Post>) -> Summarizer.Reply)
    returns (r: string)
    ensures r == AnalysisOf(hot, detailed, ask)
  {
    var h := DropNone(hot);
    var d := DropNone(detailed);
    if h == [] {
      return NoHotPosts;
    }
    var reply := ask(h, d);
    if reply.Reply? {
      r := reply.text;
    } else {
      r := AnalysisFailedPrefix + reply.message;
    }
  }

  // ---------------------------------------------------------------- lists of lines

  /** `[line(i, x) for i, x in enumerate(xs, 1)]` */
  function Numbered<T>(xs: seq<T>, line: (nat, T) -> string): seq<string>
  {
    if xs == [] then [] else Numbered(xs[..|xs| - 1], line) + [line(|xs|, xs[|xs| - 1])]
  }

  lemma {:induction false} NumberedEntries<T>(xs: seq<T>, line: (nat, T) -> string)
    ensures |Numbered(xs, line)| == |xs|
    ensures forall i :: 0 <= i < |xs| ==> Numbered(xs, line)[i] == line(i + 1, xs[i])
    decreases |xs|
  {
    if xs != [] {
      NumberedEntries(xs[..|xs| - 1], line);
    }
  }

  /** Writing one more numbered line extends the text by that line. */
  lemma ConcatNumberedStep<T>(xs: seq<T>, i: nat, line: (nat, T) -> string)
    requires i < |xs|
    ensures Concat(Numbered(xs[..i + 1], line)) == Concat(Numbered(xs[..i], line)) + line(i + 1, xs[i])
  {
    assert xs[..i + 1][..i] == xs[..i];
    var done := Numbered(xs[..i], line);
    assert (done + [line(i + 1, xs[i])])[..|done|] == done;
  }

  // ---------------------------------------------------------------- prompt lines

  /** The text shown for a hot post: its summary when it has one, else its title, cut to 80 characters. */
  function HotText(p: Post): string
  {
    if Truthy(p.summary) then Cap(p.summary.value, 80) else Cap(p.title, 80)
  }

  lemma HotTextProps(p: Post)
    ensures |HotText(p)| <= 80
    ensures Truthy(p.summary) ==> HotText(p) <= p.summary.value && (|p.summary.value| <= 80 ==> HotText(p) == p.summary.value)
    ensures !Truthy(p.summary) ==> HotText(p) <= p.title && (|p.title| <= 80 ==> HotText(p) == p.title)
  {
  }

  /** Line `i` (counting from 1) of the hot-post list in the prompt. */
  function HotLine(i: nat, p: Post): string
  {
    NatToString(i) + ". [" + HotText(p) + "] - r/" + p.subreddit + " - " + IntToString(p.score) + "分 - "
      + IntToString(p.numComments) + "评论"
  }

  /** The `hot_summary` list of `_build_llm_prompt`. */
  function HotSummaryOf(hot: seq<Post>): seq<string>
  {
    Numbered(Prefix(hot, 10), HotLine)
  }

  /** The prompt lists the first ten hot posts (or all, if fewer), numbered from 1 in ranking order. */
  lemma HotSummaryProps(hot: seq<Post>)
    ensures var lines := HotSummaryOf(hot);
      && |lines| == (if |hot| < 10 then |hot| else 10)
      && forall i :: 0 <= i < |lines| ==> lines[i] == HotLine(i + 1, hot[i])
  {
    NumberedEntries(Prefix(hot, 10), HotLine);
  }

  /** The loop of `_build_llm_prompt` that collects the hot-post lines. */
  method HotSummary(hot: seq<Post>) returns (lines: seq<string>)
    ensures lines == HotSummaryOf(hot)
  {
    var top := Prefix(hot, 10);
    lines := [];
    var i := 0;
    while i < |top|
      invariant 0 <= i <= |top|
      invariant lines == Numbered(top[..i], HotLine)
    {
      assert top[..i + 1][..i] == top[..i];
      var post := top[i];
      var text: string;
      if post.summary.Some? && post.summary.value != "" {
        text := Cap(post.summary.value, 80);
      } else {
        text := Cap(post.title, 80);
      }
      var line := NatToString(i + 1) + ". [" + text + "] - r/" + post.subreddit + " - " + IntToString(post.score) + "分 - "
        + IntToString(post.numComments) + "评论";
      assert line == HotLine(i + 1, post);
      lines := lines + [line];
      i := i + 1;
    }
    assert top[..i] == top;
  }

  // ---------------------------------------------------------------- report tables

  /** Title widths of the time-frame tables and of the quality table. */
  const RankingTitleWidth := 60
  const QualityTitleWidth := 50

  /** A title cell: the escaped first `width` characters, with `...` when the title was longer. */
  function TitleCell(title: string, width: nat): string
  {
    Escaped(Cap(title, width)) + (if |title| > width then "..." else "")
  }

  /** The cell shows the whole title or its cut with an ellipsis, and never breaks the table row. */
  lemma TitleCellProps(title: string, width: nat)
    ensures var r := TitleCell(title, width);
      && (|title| <= width ==> r == Escaped(title))
      && (|title| > width ==> r == Escaped(title[..width]) + "...")
      && '\n' !in r && '\r' !in r
  {
    EscapedProps(Cap(title, width));
  }

  const SummaryErrorPrefix := "⚠️ 摘要生成错误："

  /** The cell ends of the extra row: five columns in the time-frame tables, six in the quality table. */
  const RankingRowEnd := " | | | |\n"
  const QualityRowEnd := " | | | | |\n"

  /** The row under a post: its summary error if any, else its summary if any, else nothing. */
  function ExtraRow(p: Post, rowEnd: string): Option<string>
  {
    if Truthy(p.summaryError) then Some("| | " + Escaped(SummaryErrorPrefix + p.summaryError.value) + rowEnd)
    else if Truthy(p.summary) then Some("| | " + Escaped(p.summary.value) + rowEnd)
    else None
  }

  /**
   * A row appears exactly when the post has a summary or a summary error; the error wins, and the
   * row is a single table line.
   */
  lemma ExtraRowProps(p: Post, rowEnd: string)
    requires rowEnd == RankingRowEnd || rowEnd == QualityRowEnd
    ensures var r := ExtraRow(p, rowEnd);
      && (r.None? <==> !Truthy(p.summaryError) && !Truthy(p.summary))
      && (Truthy(p.summaryError) ==> r == Some("| | " + Escaped(SummaryErrorPrefix) + Escaped(p.summaryError.value) + rowEnd))
      && (!Truthy(p.summaryError) && Truthy(p.summary) ==> r == Some("| | " + Escaped(p.summary.value) + rowEnd))
      && (r.Some? ==> r.value[|r.value| - 1] == '\n' && forall i :: 0 <= i < |r.value| - 1 ==> r.value[i] != '\n')
  {
    var r := ExtraRow(p, rowEnd);
    if Truthy(p.summaryError) {
      EscapedAppend(SummaryErrorPrefix, p.summaryError.value);
      var x, y := Escaped(SummaryErrorPrefix), Escaped(p.summaryError.value);
      assert "| | " + (x + y) + rowEnd == "| | " + x + y + rowEnd;
      EscapedProps(SummaryErrorPrefix + p.summaryError.value);
      SingleLine("| | ", Escaped(SummaryErrorPrefix + p.summaryError.value), rowEnd);
    } else if Truthy(p.summary) {
      EscapedProps(p.summary.value);
      SingleLine("| | ", Escaped(p.summary.value), rowEnd);
    }
  }

  lemma SingleLine(head: string, cell: string, rowEnd: string)
    requires '\n' !in head && '\n' !in cell
    requires rowEnd == RankingRowEnd || rowEnd == QualityRowEnd
    ensures var r := head + cell + rowEnd;
      r[|r| - 1] == '\n' && forall i :: 0 <= i < |r| - 1 ==> r[i] != '\n'
  {
    var r := head + cell + rowEnd;
    forall i | 0 <= i < |r| - 1 ensures r[i] != '\n' {
      if i < |head| {
        assert r[i] == head[i];
      } else if i < |head| + |cell| {
        assert r[i] == cell[i - |head|];
      } else {
        assert r[i] == rowEnd[i - |head| - |cell|];
      }
    }
  }

  /** The main row of a post in a time-frame table, ranked from 1. */
  function RankingRow(i: nat, p: Post): string
  {
    "| " + NatToString(i) + " | [" + TitleCell(p.title, RankingTitleWidth) + "](" + p.permalink + ") | r/" + p.subreddit + " | "
      + IntToString(p.score) + " | " + IntToString(p.numComments) + " |\n"
  }

  /** A post's main row followed by its extra row, if it has one. */
  function RankingEntry(i: nat, p: Post): string
  {
    var extra := ExtraRow(p, RankingRowEnd);
    RankingRow(i, p) + (if extra.Some? then extra.value else "")
  }

  /** The rows of one time-frame table: its first twenty present posts. */
  function RankingTableOf(posts: seq<Option<Post>>): string
  {
    Concat(Numbered(Prefix(Present(posts), 20), RankingEntry))
  }

  /** Posts after the twentieth present one never reach the table. */
  lemma RankingTableCut(posts: seq<Option<Post>>, more: seq<Option<Post>>)
    requires |Present(posts)| >= 20
    ensures RankingTableOf(posts + more) == RankingTableOf(posts)
  {
    PresentAppend(posts, more);
    assert Prefix(Present(posts) + Present(more), 20) == Prefix(Present(posts), 20);
  }

  /** The main-row statements of a time-frame table loop. */
  method MainRowText(i: nat, post: Post) returns (row: string)
    ensures row == RankingRow(i, post)
  {
    var title := EscapeMarkdown(Cap(post.title, RankingTitleWidth));
    if |post.title| > RankingTitleWidth {
      title := title + "...";
    }
    row := "| " + NatToString(i) + " | [" + title + "](" + post.permalink + ") | r/" + post.subreddit + " | "
      + IntToString(post.score) + " | " + IntToString(post.numComments) + " |\n";
  }

  /** The summary-or-error statements of a table loop. */
  method ExtraRowText(post: Post, rowEnd: string) returns (extra: string)
    ensures extra == if ExtraRow(post, rowEnd).Some? then ExtraRow(post, rowEnd).value else ""
  {
    extra := "";
    if post.summaryError.Some? && post.summaryError.value != "" {
      var escaped := EscapeMarkdown(SummaryErrorPrefix + post.summaryError.value);
      extra := "| | " + escaped + rowEnd;
    } else if post.summary.Some? && post.summary.value != "" {
      var escaped := EscapeMarkdown(post.summary.value);
      extra := "| | " + escaped + rowEnd;
    }
  }

  /** The statements that write one post of a time-frame table: its main row, then its extra row. */
  method EntryText(i: nat, post: Post) returns (entry: string)
    ensures entry == RankingEntry(i, post)
  {
    var row := MainRowText(i, post);
    var extra := ExtraRowText(post, RankingRowEnd);
    entry := row + extra;
  }

  /** One time-frame table of `_create_markdown_report`. */
  method RankingTable(posts: seq<Option<Post>>) returns (report: string)
    ensures report == RankingTableOf(posts)
  {
    var present := DropNone(posts);
    var top := Prefix(present, 20);
    report := "";
    var i := 0;
    while i < |top|
      invariant 0 <= i <= |top|
      invariant report == Concat(Numbered(top[..i], RankingEntry))
    {
      var entry := EntryText(i + 1, top[i]);
      ConcatNumberedStep(top, i, RankingEntry);
      report := report + entry;
      i := i + 1;
    }
    assert top[..i] == top;
  }

  // ---------------------------------------------------------------- keyword table

  const HotLabel := "🔥 热门"
  const RisingLabel := "📈 上升"
  const NormalLabel := "➡️ 一般"

  /** Hot among the first five trending keywords, rising elsewhere in the list, normal otherwise. */
  function TrendLabel(keyword: string, trending: seq<string>): string
  {
    if keyword in Prefix(trending, 5) then HotLabel
    else if keyword in trending then RisingLabel
    else NormalLabel
  }

  lemma TrendLabelCases(keyword: string, trending: seq<string>)
    ensures TrendLabel(keyword, trending) == HotLabel <==> exists i :: 0 <= i < |trending| && i < 5 && trending[i] == keyword
    ensures TrendLabel(keyword, trending) == RisingLabel <==>
      keyword in trending && forall i :: 0 <= i < |trending| && trending[i] == keyword ==> i >= 5
    ensures TrendLabel(keyword, trending) == NormalLabel <==> keyword !in trending
  {
    assert HotLabel[0] != RisingLabel[0] && HotLabel[0] != NormalLabel[0] && RisingLabel[0] != NormalLabel[0];
    var cut := Prefix(trending, 5);
    if keyword in cut {
      var i :| 0 <= i < |cut| && cut[i] == keyword;
      assert trending[i] == keyword;
    }
  }

  function KeywordRow(e: (string, int), trending: seq<string>): string
  {
    "| " + e.0 + " | " + IntToString(e.1) + " | " + TrendLabel(e.0, trending) + " |\n"
  }

  /** `KeywordRow` for a fixed trending list. */
  function KeywordRowFor(trending: seq<string>): ((string, int)) -> string
  {
    e => KeywordRow(e, trending)
  }

  /** The keyword table: the first fifteen frequency entries, each with its trend label. */
  function KeywordTableOf(freq: seq<(string, int)>, trending: seq<string>): string
  {
    Concat(Mapped(Prefix(freq, 15), KeywordRowFor(trending)))
  }

  /**
   * The table lists its entries in order, one row each, and entries after the fifteenth never
   * reach it.
   */
  lemma KeywordTableProps(freq: seq<(string, int)>, more: seq<(string, int)>, e: (string, int), trending: seq<string>)
    ensures |freq| < 15 ==> KeywordTableOf(freq + [e], trending) == KeywordTableOf(freq, trending) + KeywordRow(e, trending)
    ensures |freq| >= 15 ==> KeywordTableOf(freq + more, trending) == KeywordTableOf(freq, trending)
  {
    var row := KeywordRowFor(trending);
    if |freq| < 15 {
      assert Prefix(freq + [e], 15) == freq + [e];
      assert (freq + [e])[..|freq|] == freq;
      ConcatAppend(Mapped(freq, row), [row(e)]);
      assert Concat([row(e)]) == row(e) by {
        assert [row(e)][..0] == [];
      }
    } else {
      assert Prefix(freq + more, 15) == Prefix(freq, 15);
    }
  }

  /** The keyword-table loop of `_create_markdown_report`: one row per entry, fifteen at most. */
  method KeywordTable(freq: seq<(string, int)>, trending: seq<string>) returns (report: string)
    ensures report == KeywordTableOf(freq, trending)
  {
    report := WriteMapped(Prefix(freq, 15), KeywordRowFor(trending));
  }
}
