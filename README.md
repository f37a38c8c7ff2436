# Reddit trend pipeline — a verified model of its core

Reddit_trend collects posts from AI communities on Reddit. It keeps them in a dictionary keyed by
`<timeframe>_<subreddit>`, where the timeframe is `hot`, `day`, `week` or `month`. The pipeline then:

- cleans and de-duplicates the posts;
- builds the three time-frame rankings;
- analyses keyword, author, community, engagement and time-distribution trends;
- gives every post a 0–100 quality score;
- has an LLM summarise each post;
- writes a Markdown report around an LLM trend analysis.

A separate keyword collector searches Reddit, filters and sorts the results, and summarises what it found.

This project models those six parts in Dafny, one module per source file:

| module | source file | form |
|---|---|---|
| `Cleaner` | `cleaner.py` | class `DataCleaner` with its `stats` counters, the methods that update them, and the specification functions they are proved against |
| `Analyzer` | `analyzer.py` | one method per analysis, each proved equal to a specification function, with lemmas saying what each result means |
| `Scorer` | `scorer.py` | pure scoring functions with their bounds and monotonicity, plus the scoring loop |
| `Summarizer` | `summarizer.py` | the comment block, the LLM call and the concurrent fan-out, with the completion order as a parameter |
| `KeywordCollector` | `keyword_collector.py` | query building, result filtering and sorting, and the search summary |
| `Reporter` | `reporter.py` | Markdown escaping, the missing-record filter, the LLM analysis, the prompt's hot-post lines, and the report tables |

Shared modules:

- `Posts` holds the record types.
- `Text` holds Python's string operations: `strip`, `' '.join(s.split())`, slicing and `lower`.
- `Sorting` holds a stable descending sort, `max` and slicing.
- `OrderedMaps` holds insertion-ordered dictionaries as sequences of pairs.
- `Wrappers` holds `Option`.

Python dictionaries keep insertion order, so each one is a sequence of key/value pairs without repeated keys. `sorted(..., reverse=True)` is an insertion sort that is proved sorted, a permutation and stable. The stability lemmas say that, for every key value, the posts with that key keep their relative order.

Outside services are parameters of the model:

- the ISO 8601 parser and the age of a post in hours;
- the two power curves of the interaction score;
- the comment fetch and the LLM.

The concurrent summary fan-out takes the order in which its tasks complete as a parameter, and that order is any permutation.

Two behaviours of the code are worth knowing:

- Cleaning is not idempotent. The quality filter checks the stripped raw title before its blanks are collapsed, so a title of two characters around eight blanks passes once and is dropped when the cleaned record is cleaned again (`Cleaner.RecleanCanDrop`).
- The time distribution's `avg_score` and `avg_comments` add up the per-key means of the keys that share a timeframe (`Analyzer.TimeDistributionProps`, `Analyzer.TimeDistributionSumsMeans`).

## Model

| member | source | states |
|---|---|---|
| Cleaner.ValidateRejects | cleaner.py:133-157 | a record is rejected if a required field is falsy, if a string timestamp with its `Z`s removed does not parse, or if score or comments are not numeric; it is accepted when every field is present with a non-zero epoch timestamp and numeric counts |
| Cleaner.QualityFilterIff | cleaner.py:159-174 | after validation a record passes the quality filter iff its score is non-negative and its stripped title has at least 10 characters (the deleted-author test can no longer fire) |
| Cleaner.QualityFilterBoundaries | cleaner.py:166-172 | the thresholds are inclusive: an unpadded 10-character title with score 0 passes; score -1 fails; a 9-character title padded with one blank on each side fails |
| Cleaner.StripOneBlankEachSide | cleaner.py:171 | `strip()` removes one blank on each side of an unpadded title |
| Cleaner.Clamp01 | cleaner.py:195-196 | the upvote ratio is clamped into [0, 1] and unchanged when already inside |
| Cleaner.Floor0 | cleaner.py:191-194 | counts are floored at 0 and unchanged when non-negative |
| Cleaner.NormalisedProps | cleaner.py:176-198 | the cleaned title and preview are prefixes of the blank-collapsed originals, at most 300 and 500 characters, and equal to them when short enough; counts are non-negative; the ratio is in [0, 1]; every other field is copied |
| Cleaner.NormalisedTitleBlanks | cleaner.py:184-186 | a cleaned title has no leading blank, only single `' '` blanks, never two in a row |
| Cleaner.CleanPostData | cleaner.py:176-198 | the cleaning method produces exactly the normalised record |
| Cleaner.CountsPartition | cleaner.py:43-72 | every record is counted exactly once, as valid, invalid or filtered, and the survivors are exactly the valid ones |
| Cleaner.SurvivorsAppend | cleaner.py:40-74 | survivors are chosen record by record, in order: the survivors of a concatenation are the concatenation of the survivors |
| Cleaner.SurvivorsSingle | cleaner.py:45-72 | a single record survives iff it is present, valid and passes the filter, and it survives as its normalised form |
| Cleaner.SurvivorsClean | cleaner.py:63-71 | every survivor has the cleaned field shape |
| Cleaner.CleanGroupsKeys | cleaner.py:38-74 | the cleaned dictionary has the input's keys in order, empty groups included, each holding that group's survivors |
| Cleaner.RecleanCanDrop | cleaner.py:171-184 | cleaning is not idempotent: a record that passes can be dropped when its cleaned form is cleaned again |
| Cleaner.Report | cleaner.py:200-211 | `get_stats` returns the counters unchanged, with rates only when `total` is non-zero, each rate being count / total × 100 |
| Cleaner.RatesSum | cleaner.py:206-211 | when the counts partition the total, the three rates add up to 100 |
| Cleaner.DataCleaner.constructor | cleaner.py:14-21 | all four counters start at 0 |
| Cleaner.CountedStep | cleaner.py:45-72 | one more record adds exactly one to the counter of its verdict |
| Cleaner.DataCleaner.Judge | cleaner.py:43-72 | the checks of the inner loop reach the record's verdict: missing or invalid, filtered, or kept as its cleaned form |
| Cleaner.DataCleaner.CleanGroup | cleaner.py:41-74 | one group's loop returns that group's survivors and adds its valid, invalid and filtered counts to the counters |
| Cleaner.DataCleaner.CleanPosts | cleaner.py:23-79 | `total` is overwritten with the number of input records; the other counters grow by this call's counts and partition the total on a fresh cleaner; the result is the cleaned dictionary |
| Cleaner.HotOnly | cleaner.py:116 | keeps exactly the records tagged `hot` |
| Cleaner.HotOnlyAppend | cleaner.py:116 | the comprehension goes record by record, keeping group order and repeats: on a concatenation the hot records are each part's ones, one after the other |
| Cleaner.MaxByScoreIsFirstMax | cleaner.py:118-126 | `max(group, key=score)` is the first record with the highest score |
| Cleaner.SelectPolicies | cleaner.py:112-128 | `highest_hot` keeps the first best-scoring hot record if any, and the first best-scoring record otherwise; `first` and `last` keep the ends; any other policy keeps the first best-scoring record; the choice is always from the group |
| Cleaner.HotBeatsHigherScore | cleaner.py:114-120 | under `highest_hot` a hot record scoring 50 beats a week duplicate scoring 80, which `first`, `last` and other policies treat differently |
| Cleaner.DedupIds | cleaner.py:103-128 | de-duplication keeps exactly one record per distinct id, in order of first occurrence, each an input record with that id |
| Cleaner.TagOne | cleaner.py:98-101 | one group's records come back in order, each tagged with the group's timeframe |
| Cleaner.TagAll | cleaner.py:96-101 | every group is tagged, and `all_posts` is the tagged groups one after the other |
| Cleaner.GroupById | cleaner.py:104-109 | `post_groups` is the grouping of the records by id, ids in first-occurrence order |
| Cleaner.SelectEach | cleaner.py:112-128 | one record is chosen from each id's group by the policy, in group order |
| Cleaner.DataCleaner.DeduplicatePosts | cleaner.py:81-131 | the input is tagged with timeframes, and the result is the de-duplication of the tagged records |
| Analyzer.Route | analyzer.py:43-57 | `hot` and `day` feed the hot ranking, `week` and `month` their own, and any other timeframe none |
| Analyzer.RoutedKeys | analyzer.py:42-57 | every routed post is an input post carrying a key that routes to its ranking |
| Analyzer.RankingsProps | analyzer.py:59-73 | with `top_k` ≥ 0 each ranking has `min(n, top_k)` entries of the `n` posts routed to it; hot is the first of them in input order; week and month are the top of their posts by score (none left out scores above one kept), in descending order, and the posts kept with equal scores are the first ones of the input |
| Analyzer.RouteGroup | analyzer.py:43-57 | one group's keyed copies are appended to the list of the ranking its timeframe feeds, and the other lists are unchanged |
| Analyzer.CreateHotRanking | analyzer.py:18-73 | the method produces the rankings specified above |
| Analyzer.MatchesIn | analyzer.py:121-123 | a keyword is hit in a text iff it is in the vocabulary and occurs in the text |
| Analyzer.MatchesHits | analyzer.py:118-123 | each keyword is counted once per post that mentions it |
| Analyzer.KeywordCountsProps | analyzer.py:116-128 | `keyword_counts` holds exactly the mentioned vocabulary words, each with its number of mentioning posts and at least 1 |
| Analyzer.AiKeywordsDistinct | analyzer.py:108-114 | the fixed vocabulary has no repeated word |
| Analyzer.TrendingOf | analyzer.py:130 | a keyword trends iff some entry gives it a count above 1 |
| Analyzer.TrendingOrder | analyzer.py:130 | the trending keywords appear in the order of the entries they come from |
| Analyzer.KeywordReportShape | analyzer.py:125-131 | for any tallies: `total_keywords_found` is their number, `keyword_frequency` is their top `min(n, 20)` by count, with equal counts kept in tally order, and `trending_keywords` are exactly the keywords of its first 10 entries with a count above 1, in that order |
| Analyzer.KeywordReportProps | analyzer.py:116-131 | the report of the keyword tallies has the shape above; each reported count is the number of posts mentioning the word; a mentioned word left out is mentioned no more often than any reported one |
| Analyzer.KeywordTrendsProps | analyzer.py:106-131 | the same holds for the fixed vocabulary: top 20 by mentions, true counts, and trending iff among the first 10 with more than one mention, in order |
| Analyzer.TrendingExample | analyzer.py:125-130 | with counts 5, 3 and 1 only the first two trend, in that order |
| Analyzer.TallyText | analyzer.py:121-123 | one post's words add one to the count of each vocabulary word the text contains |
| Analyzer.TallyKeywords | analyzer.py:116-123 | the nested loop builds `keyword_counts` |
| Analyzer.AnalyzeKeywords | analyzer.py:106-131 | the method produces the keyword report |
| Analyzer.FoldAddPost | analyzer.py:140-142 | an author's tally is their post count, total score and total comments |
| Analyzer.AuthorTalliesProps | analyzer.py:135-142 | one tally per distinct author that is not skipped, each true for that author, and no such author missing |
| Analyzer.Candidates | analyzer.py:144-152 | an author is a candidate iff they have more than one post, and the candidate carries that author's summary |
| Analyzer.ActiveCountIsCandidates | analyzer.py:158 | `active_authors` equals the number of candidates |
| Analyzer.CandidatesFaithful | analyzer.py:144-152 | every candidate is an author that is not skipped, with at least two posts, its true post count, average score and engagement |
| Analyzer.AuthorTrendsProps | analyzer.py:133-160 | `top_authors` has `min(active, 10)` entries and is the top of the candidates by engagement, in descending order and stable; each entry is true; an author with at least two posts who is left out has no more engagement than any kept |
| Analyzer.AuthorsLeftOut | analyzer.py:144-159 | an author with at least two posts missing from the top has no more score plus comments than any author kept |
| Analyzer.TallyAuthors | analyzer.py:135-142 | the tally loop builds one entry per author that is neither empty nor deleted |
| Analyzer.AuthorCandidates | analyzer.py:144-152 | the candidate loop keeps the authors with more than one post, in tally order |
| Analyzer.AnalyzeAuthors | analyzer.py:133-160 | the method produces the author trends |
| Analyzer.FoldAddSubPost | analyzer.py:166-170 | a community's tally is its post count and total score |
| Analyzer.SubredditStatsProps | analyzer.py:164-174 | one entry per distinct non-empty community, in order of first post, with true counts, totals and averages |
| Analyzer.SubredditTrendsProps | analyzer.py:162-185 | `total_subreddits` counts the distinct communities; `subreddit_performance` has `min(total, 10)` distinct, true entries and is the top by total score, in descending order and stable; a community left out has no higher total than any kept |
| Analyzer.SubredditsLeftOut | analyzer.py:176-184 | a non-empty community missing from the top has no higher total score than any community kept |
| Analyzer.TallySubreddits | analyzer.py:164-170 | the tally loop builds one entry per named community |
| Analyzer.FillAverages | analyzer.py:172-174 | the averaging loop fills in every entry's average score in place |
| Analyzer.AnalyzeSubreddits | analyzer.py:162-185 | the method produces the community trends |
| Analyzer.HighEngagementIff | analyzer.py:196-201 | a post is high-engagement iff its score is positive and 10 × comments exceeds its score |
| Analyzer.HighEngagementExamples | analyzer.py:200 | with score 100, 15 comments qualify and 5 do not |
| Analyzer.PositiveScoreMembers | analyzer.py:196-198 | the filter keeps exactly the posts with positive score, and no more posts than it was given |
| Analyzer.PositiveScoreAppend | analyzer.py:196-198 | the posts with positive score are taken post by post, in input order: on a concatenation they are each part's ones, one after the other |
| Analyzer.Ratios | analyzer.py:192-198 | one ratio per post with positive score, in input order: the `i`-th is comments over score of the `i`-th such post |
| Analyzer.HighPosts | analyzer.py:200-201 | keeps exactly the high-engagement posts |
| Analyzer.MeanBounds | analyzer.py:206 | the mean ratio lies within any bounds on the ratios |
| Analyzer.MedianSplits | analyzer.py:207 | the median splits the ratios in half: the larger half is at least the median, the smaller at most |
| Analyzer.EngagementTrendsProps | analyzer.py:187-210 | `high_engagement_count` counts the high-engagement posts; `top_engagement_posts` has `min(count, 5)` of them and is their top by comments, in descending order and stable; a high-engagement post left out has no more comments than any kept |
| Analyzer.EngagementCut | analyzer.py:203-209 | the cut of any list by comments has `min(n, 5)` entries, is its top, is stable, and dominates every post left out |
| Analyzer.AnalyzeEngagement | analyzer.py:187-210 | the method produces the engagement trends |
| Analyzer.FoldAddGroup | analyzer.py:226-232 | folding a timeframe's keys gives their total post count and the sums of the per-key mean score and mean comments over the keys with posts |
| Analyzer.TimeDistributionProps | analyzer.py:212-233 | one entry per distinct timeframe, in order of first key, with its true post count; its `avg_score` and `avg_comments` are the sums of the per-key means over its keys that have posts |
| Analyzer.TimeDistributionSumsMeans | analyzer.py:228-232 | two keys of one timeframe with posts scored 10 and 30 give an `avg_score` of 40 |
| Analyzer.AnalyzeTimeDistribution | analyzer.py:212-233 | the method produces the time distribution |
| Analyzer.AnalysisEmptyIff | analyzer.py:88-93 | the analysis is empty iff every group is empty |
| Analyzer.AnalyzeTrends | analyzer.py:75-104 | the method gathers all posts and returns the five analyses, or nothing |
| Scorer.ScorePoints | scorer.py:88 | the score curve gives between 5 and 15 points |
| Scorer.CommentPoints | scorer.py:91 | the comment curve gives between 5 and 15 points |
| Scorer.CurvePointsMonotone | scorer.py:88-91 | a larger curve value never gives fewer points |
| Scorer.RatioPoints | scorer.py:94-103 | the upvote ratio gives 2 to 10 points |
| Scorer.RatioPointsMonotone | scorer.py:94-103 | a higher ratio never gives fewer points |
| Scorer.Interaction | scorer.py:81-105 | the interaction part lies in [12, 40] |
| Scorer.TitlePoints | scorer.py:113-121 | the title gives 2 to 8 points |
| Scorer.PreviewPoints | scorer.py:124-134 | the preview gives 0 to 7 points, and 0 iff it is empty |
| Scorer.LengthPointsMonotone | scorer.py:113-134 | a longer title or preview never gives fewer points |
| Scorer.FlairPoints | scorer.py:137-141 | a flair gives 0 or 5 points |
| Scorer.FlairPointsIff | scorer.py:138 | a flair earns 5 points iff its lower-cased form is not a generic flair |
| Scorer.Content | scorer.py:107-143 | the content part lies in [2, 20] |
| Scorer.Freshness | scorer.py:145-171 | freshness lies in [2, 15], and an unreadable timestamp gives 5 |
| Scorer.FreshnessAntitone | scorer.py:156-169 | an older post never scores more |
| Scorer.CountMatching | scorer.py:202 | no more matches than keywords |
| Scorer.MatchPoints | scorer.py:204-211 | matches give 0 to 10 points, and 0 iff there are no matches |
| Scorer.MatchPointsMonotone | scorer.py:204-211 | more matches never give fewer points |
| Scorer.KeywordRelevance | scorer.py:192-211 | keyword relevance lies in [0, 10] |
| Scorer.RankOf | scorer.py:219-221 | the rank is the 1-based position of the author's first entry, or absent when there is none |
| Scorer.RankPoints | scorer.py:222-231 | a rank gives 0 to 8 points, and 0 iff there is no rank |
| Scorer.RankPointsAntitone | scorer.py:222-229 | a better rank never gives fewer points |
| Scorer.AuthorActivity | scorer.py:213-231 | author activity lies in [0, 8] |
| Scorer.AvgPoints | scorer.py:242-249 | a community average gives 1 to 7 points |
| Scorer.AvgPointsMonotone | scorer.py:242-249 | a higher average never gives fewer points |
| Scorer.SubredditActivity | scorer.py:233-251 | community activity lies in [1, 7], and a community outside the table gives 2 |
| Scorer.TrendRelevance | scorer.py:173-190 | trend relevance lies in [0, 25], and is 12 without an analysis |
| Scorer.QualityScore | scorer.py:54-79 | the quality score lies in [0, 100] |
| Scorer.QualityScoreIsSum | scorer.py:65-79 | the four parts never exceed 100, so the cap never applies; every score is at least 16 |
| Scorer.ScoredProps | scorer.py:31-47 | the scored list is the annotated posts, sorted by descending quality and stably; every post has a score, and a computed one lies in [0, 100] |
| Scorer.ScoredIdempotent | scorer.py:35-42 | scoring a scored list again returns it unchanged |
| Scorer.ScorePosts | scorer.py:17-47 | on a non-empty list the method returns the scored list |
| Scorer.TopQuality | scorer.py:49-52 | the result is the first `k` posts of the list, or all of them if fewer |
| Scorer.TopQualityDominates | scorer.py:49-52 | from a scored list, no post left out outscores a chosen one |
| Summarizer.CommentLines | summarizer.py:149-154 | no more comment lines than comments |
| Summarizer.UsableComments | summarizer.py:150-151 | exactly the comments with a body that is not `[deleted]` |
| Summarizer.UsableCommentsAppend | summarizer.py:150-151 | the usable comments are taken comment by comment, in thread order: on a concatenation they are each part's ones, one after the other |
| Summarizer.CommentLinesShape | summarizer.py:150-154 | the lines match the usable comments one to one and in order: line `j` is `- ` and at most 200 characters of the `j`-th usable body; there is no line iff no comment is usable |
| Summarizer.NoLinesWithoutBodies | summarizer.py:151 | deleted and body-less comments give no line |
| Summarizer.CommentTextCases | summarizer.py:145-160 | a failed fetch gives the "unavailable" text; no usable line gives the "no comments" text; otherwise the lines joined by newlines; at most `max_comments` lines |
| Summarizer.CommentBlock | summarizer.py:145-160 | the comment loop produces the comment text |
| Summarizer.CallLlm | summarizer.py:162-212 | a summary is the stripped reply, at most 100 characters and cut to exactly 100 when longer; a failure is re-raised with its prefix |
| Summarizer.CallLlmShort | summarizer.py:202-207 | a stripped reply of at most 100 characters is returned whole |
| Summarizer.PromptFor | summarizer.py:110-120 | comments are fetched iff the body is shorter than 50 characters; the title and body are carried |
| Summarizer.SingleSummary | summarizer.py:90-126 | a success is a copy of the post with only `summary` set, to at most 100 characters |
| Summarizer.GenerateSingleSummary | summarizer.py:90-126 | the method produces that result |
| Summarizer.Outcome | summarizer.py:74-85 | every post comes back under its id, either summarised or with an error |
| Summarizer.OutcomeCases | summarizer.py:80-85 | a failed post is its input with only `summary` cleared and `summary_error` set |
| Summarizer.PickPermutes | summarizer.py:60-76 | taking posts in completion order rearranges them |
| Summarizer.SummariesPermuteIds | summarizer.py:60-88 | every input post comes back exactly once: the output ids rearrange the input ids, and the output posts rearrange the per-post outcomes |
| Summarizer.SummariesInOrder | summarizer.py:60-88 | when tasks complete in submission order, the outcomes come back in input order |
| Summarizer.SummariseOne | summarizer.py:72-85 | one task with its exception handler gives that post's outcome |
| Summarizer.CollectInOrder | summarizer.py:72-85 | the collection loop returns one task result per completed task, in completion order |
| Summarizer.GenerateSummaries | summarizer.py:36-88 | the fan-out returns the outcomes in completion order |
| KeywordCollector.QueryOfWords | keyword_collector.py:70-73 | a word list is joined with single spaces, and a string is used as given |
| KeywordCollector.PassingMembers | keyword_collector.py:100-107 | the filter keeps exactly the results meeting both minimums, in search order: cut the results anywhere and the passing ones are those before the cut followed by those after it |
| KeywordCollector.PassingAppend | keyword_collector.py:100-107 | the filter goes result by result: on a concatenation the passing results are each part's ones, one after the other |
| KeywordCollector.SearchResultsProps | keyword_collector.py:90-118 | a result is returned iff the search succeeded and it passes; sorted by descending score, stably; a failure gives `[]` |
| KeywordCollector.SearchByKeywords | keyword_collector.py:99-118 | the method produces those results |
| KeywordCollector.ExclusionsAppend | keyword_collector.py:259-261 | every excluded community gets its own operator, in list order |
| KeywordCollector.AdvancedQueryShape | keyword_collector.py:257-270 | the base query stays in front, after `title:` when titles only; without options it is unchanged |
| KeywordCollector.AppendExclusions | keyword_collector.py:259-261 | the loop appends one exclusion operator per community, in list order |
| KeywordCollector.AdvancedQuery | keyword_collector.py:257-270 | the method builds that query |
| KeywordCollector.PostCounts | keyword_collector.py:354 | one count per category |
| KeywordCollector.PostCountsEntries | keyword_collector.py:354 | each category is counted under its own key with its size |
| KeywordCollector.TopTallyProps | keyword_collector.py:318-335 | each top list has at most 5 distinct keys, sorted, with true counts; a key left out occurs no more often than the fifth; equal counts keep the order in which the keys first occur |
| KeywordCollector.TopTallyComplete | keyword_collector.py:333-335 | a key missing from a full top list occurs at most as often as its fifth entry |
| KeywordCollector.HottestProps | keyword_collector.py:338 | the hottest post is the first result with the highest score |
| KeywordCollector.MeanScoreAtMostMax | keyword_collector.py:338-343 | the mean score never exceeds the hottest post's score |
| KeywordCollector.SummaryEmptyIff | keyword_collector.py:307-310 | the summary is `{'total_posts': 0}` iff every category is empty |
| KeywordCollector.SummaryCounts | keyword_collector.py:307-342 | a non-empty summary counts all results and all categories |
| KeywordCollector.SummaryTops | keyword_collector.py:318-347 | the three top lists are top-five tallies of communities, authors and domains |
| KeywordCollector.SummaryHottest | keyword_collector.py:338-353 | the hottest entry describes the first top-scoring result |
| KeywordCollector.SummaryAverages | keyword_collector.py:322-344 | the averages are the mean score and mean comment count, and the mean score is at most the hottest post's |
| KeywordCollector.TotalResults | keyword_collector.py:307 | the total is the number of results over all categories |
| KeywordCollector.AllResults | keyword_collector.py:313-315 | `all_posts` is every category's results, one list after the other |
| KeywordCollector.TallyResults | keyword_collector.py:318-330 | the loop tallies communities, authors and domains and sums scores and comments over all results |
| KeywordCollector.GenerateSearchSummary | keyword_collector.py:305-355 | the counting loops produce the search summary |
| Reporter.EscapeMarkdown | reporter.py:419-430 | the replace passes give the character-by-character escape of the text |
| Reporter.EscapedProps | reporter.py:424-428 | escaping adds one character per special character, leaves no line break, and puts a backslash before every `\|` |
| Reporter.EscapedAppend | reporter.py:424-428 | escaping a concatenation escapes its parts |
| Reporter.PresentProps | reporter.py:86-98 | filtering drops exactly the missing entries, keeps every present record, and changes nothing when none is missing |
| Reporter.PresentAppend | reporter.py:86-98 | the filter keeps order across any split |
| Reporter.DropNone | reporter.py:86-101 | the filter loop produces the present records |
| Reporter.AnalysisCases | reporter.py:103-144 | with no present hot post the fixed notice is returned and the model is not consulted; otherwise the model's answer is returned, or the failure with its prefix |
| Reporter.AnalyzeWithLlm | reporter.py:57-144 | the method produces that answer |
| Reporter.HotTextProps | reporter.py:176-179 | a hot line shows the summary if truthy, else the title, cut to 80 characters |
| Reporter.HotSummaryProps | reporter.py:172-180 | the prompt lists the first ten hot posts, numbered from 1, in ranking order |
| Reporter.HotSummary | reporter.py:172-180 | the loop produces those lines |
| Reporter.TitleCellProps | reporter.py:306-308 | a title cell is the escaped title, or its escaped cut followed by `...`, and has no line break |
| Reporter.ExtraRowProps | reporter.py:313-320 | an extra row appears iff there is a summary error or a summary; the error wins; the row is one table line |
| Reporter.RankingTableCut | reporter.py:272-304 | posts after the twentieth present one never reach the table |
| Reporter.MainRowText | reporter.py:305-312 | the statements produce a post's main row |
| Reporter.ExtraRowText | reporter.py:313-320 | the statements produce the extra row, if any |
| Reporter.EntryText | reporter.py:304-320 | the statements for one post write its main row followed by its extra row, if any |
| Reporter.RankingTable | reporter.py:272-320 | the loop writes each of the first twenty present posts as its main row plus its extra row |
| Reporter.TrendLabelCases | reporter.py:400 | hot iff among the first five trending keywords; rising iff trending but not among the first five; normal iff not trending |
| Reporter.KeywordTableProps | reporter.py:399-401 | the table writes its entries in order, one row each; entries after the fifteenth never reach it |
| Reporter.KeywordTable | reporter.py:392-401 | the loop produces the keyword table |
| Sorting.TopCut | analyzer.py:64-67 | `sorted(s, key, reverse=True)[:k]` has `min(len(s), k)` elements drawn from `s`, in descending order, and nothing left out ranks above anything kept |
| Sorting.TopCutStable | analyzer.py:64-67 | the elements of the cut with any one key are the first elements of `s` with that key, in their order |
| Sorting.SortDescStable | analyzer.py:64-67 | a descending sort keeps the input order of equal keys, as Python's `sort` does with `reverse=True` |

## Left out

- Network, clock and files are outside the model:
  - Reddit access through praw, the LLM clients and the system clock are parameters, not calls.
  - `_extract_post_data`, `multi_keyword_search`, `trending_topics_search`, `save_search_results`, `generate_report` and their file writes are not modelled: they only fetch, loop over calls already modelled, or write files.
  - Logging is left out.
- Concurrency: the thread pool is modelled as an arbitrary completion order. The model does not capture timing or shared state between threads.
- Floating point is left out:
  - Ratios, averages and scores are exact reals.
  - The power curves `score ** 0.5` and `comments ** 0.6` are given functions with non-negative values.
- Scorer.Annotate: stores the exact quality score, not `round(score, 2)`, because floating point is not modelled.
- Number formatting with `:.2f` and `:.1f` in the report is not modelled.
- Cleaner.ValidateRejects: `score` and `num_comments` are modelled as integers or as values `float()` rejects (`Posts.Num`). Two paths of the code are not modelled: a float count such as `5.7` passes validation and is truncated by `int()` to `5`, and a numeric string such as `"5"` passes validation and then raises `TypeError` at the `< 0` comparison of the quality filter. The fetch step writes integers.
- Missing keys are left out. Every record carries every field the fetcher writes, so the `.get(key, default)` fallbacks and the `KeyError`s of `[key]` on absent fields are not modelled.
- Reporter.RankingRow: always uses the record's own permalink, so the fallback link built from the id when `permalink` is missing is not modelled.
- Summarizer.Outcome: returns the summarised or failed post as an updated copy instead of writing `summary` and `summary_error` into the caller's dictionary, so aliasing is not modelled. `Summarizer.GenerateSummaries` returns these copies.
- Cleaner.DataCleaner.DeduplicatePosts: returns the tagged groups instead of writing `source_timeframe` into the caller's records, so aliasing is not modelled.
- Scorer.ScorePosts: returns annotated copies instead of writing `quality_score` into the input dicts, so aliasing is not modelled.
- Text handling is simplified:
  - `lower()` is modelled for ASCII letters only.
  - `split()` and `strip()` blanks are Python's Unicode whitespace set (`Text.IsSpace`), as `str.isspace` defines it.
  - Character counts are code points, with no Unicode normalisation.
- `Cleaner.DataCleaner.CleanPosts`: the unreachable `cleaned_post is None` branch is left out, because `_clean_post_data` always returns a dictionary.
- `Cleaner.DataCleaner.GetStats` carries no contract of its own. Its meaning is stated by `Cleaner.Report`.
- `Scorer.ScorePosts` requires a non-empty list, because the source fails on an empty one when it logs the first and last score.
- Prompt and report text are only partly modelled:
  - Of `_build_llm_prompt`, only the None filter and the hot-post lines are modelled. The fixed prompt template, the detailed-post blocks and the JSON dumps of the analysis are not.
  - Of `_create_markdown_report`, the header, the overview counts, the quality table's main row (its `:.2f` score) and the community appendix are not modelled. The time-frame tables, the extra rows of both table kinds, the keyword table and the escaping are.
- `Reporter.AnalyzeWithLlm`: the streamed reply is modelled as its concatenated text. `ask` stands for building the prompt and calling the model.
- `Reporter.EscapeMarkdown` takes a string. The falsy check covers only the empty string, since a `None` argument cannot occur for the typed parameter.
- `Summarizer.GenerateSummaries`: the progress logging every tenth completion is left out.
