# Competitor analyzers: a verified model

This project is a Dafny model of the deterministic core of a competitor-analysis tool. The tool has two analyzers and a small web layer, and the model covers all three.

- **Instagram analyzer** (`instagram_competitor_analyzer.py`):
  - Classifies each post that the scraping library yields. From the post it derives the carousel, video and reel flags, the engagement, the view count, the reel performance metric, the canonical URL and the shortened caption.
  - Scans each account newest first, with a budget of 50 posts and a stop at the first post older than the week.
  - Collects every account's posts, isolating failures per account.
  - Ranks the collected items into the top 10 reels and the top 10 other posts.
- **Web layer** (`app.py`): the nine summary counters computed from the analyzer's three lists.
- **YouTube podcast analyzer** (`youtube_podcast_analyzer.py`):
  - The `/videos` URL rule for a channel.
  - The bounded discovery of this week's videos: at most 20 entries examined, at most 3 matches.
  - Choosing an English subtitle track and a subtitle format, and classifying download failures.
  - The WebVTT cue-text extractor, over a simplified reading of the W3C WebVTT format.
  - The summarizer's gates, truncation and "first sentences" fallback, and the key-topic count.
  - The outcome decision for each video, which is driven by sentinel strings.
  - `calculate_stats`.

Everything outside the process is an input to the model:

- what the scraping libraries return (posts, channel listings, video metadata);
- the subtitle download;
- what the AI providers reply or raise.

An attribute that the code reads with `getattr`/`hasattr`, or inside a `try`, is a `Field` with three cases: missing, present, or raising when read. Times are whole seconds since 1970-01-01 UTC. The week is a pair of parameters `start` and `end`.

The modules follow the program:

| module | file | models |
|---|---|---|
| `Common` | common.dfy | the Python string operations the code uses, such as `strip`, `split`, `join`, `in` and `lower` |
| `StableSort` | stable_sort.dfy | `list.sort(reverse=True)` as a stable sort, highest key first |
| `InstagramClassify` | instagram_classify.dfy | the classification of one post |
| `InstagramScan` | instagram_scan.dfy | the account scan, the aggregation, the ranking and the `load_accounts` filter |
| `WebStats` | web_stats.dfy | the counters of `analyze()` in app.py |
| `Vtt` | vtt.dfy | the content part of `parse_vtt_subtitle` |
| `Subtitles` | subtitles.dfy | `transcribe_with_youtube` and `transcribe_video` |
| `Summarize` | summarize.dfy | `summarize_transcript`, the two providers and `extract_key_topics` |
| `UploadDates` | dates.dfy | reading `upload_date` with `strptime("%Y%m%d")`, with the timestamp as fallback |
| `Discovery` | discovery.dfy | `fetch_podcasts_from_channel` and `calculate_stats` |

Where the code changes things step by step, the model uses methods with loops. Each such method is proved equal to a reference function, and the properties are lemmas about that function:

- the post scan (`FetchPosts`);
- the account loop (`AnalyzeCompetitors`);
- the VTT line walk (`ParseVtt` and its step methods);
- the two loops of the channel pipeline (`DiscoverMatches` and `ProcessMatches`).

Where the code is an expression, the model is a function.

Some behaviours follow the code rather than what its comments suggest:

- Every video post is a reel.
- A post that is not a video can still be a reel.
- A carousel can be a reel.
- The first post older than the week ends the scan, so the counter of ten consecutive old posts never fires.
- An account whose fetch fails loses the posts it had already collected.
- `transcribe_with_youtube` makes exactly one attempt, although `max_retries` is 3.
- Gemini is tried once (`max_retries = 1`), so a rate-limit error is never retried.
- An unknown summarization method gives three sentences, not five.
- GPT never returns an error string.

At youtube_podcast_analyzer.py:426-428 the body of the `except` clause is not indented under it. The model gives that handler its evident meaning: the summary becomes `"Error generating summary: <message>"`.

## Model

| member | source | states |
|---|---|---|
| InstagramClassify.CarouselMetricsOf | instagram_competitor_analyzer.py:131-167 | carousel metrics exist exactly for the `GraphSidecar` type name, and their total likes are the post's likes |
| InstagramClassify.CarouselSlides | instagram_competitor_analyzer.py:136-167 | slide count is `mediacount` when non-zero, else the sidecar node count (1 when there are none or listing them raises), and 1 with no note when reading `mediacount` raises; it is at least 1 when the counts are non-negative |
| InstagramClassify.ViewsPrecedence | instagram_competitor_analyzer.py:174-185 | views are the first present of `video_view_count`, `view_count`, `views`; a raising read or three missing attributes give none |
| InstagramClassify.VideoIsReel | instagram_competitor_analyzer.py:187-262 | every path through the video branch, and through the exception handler, marks a video as a reel |
| InstagramClassify.ReelWithoutVideo | instagram_competitor_analyzer.py:249-254 | a carousel that is not a video but has `/reel/` in its URL is classified as a reel: neither reel ⇒ video nor carousel ⇒ not reel holds |
| InstagramClassify.CaptionRule | instagram_competitor_analyzer.py:285-289 | a caption over 100 characters becomes its first 100 plus "..."; a shorter non-empty one is kept; a missing or empty one reads "No caption"; the result is at most 103 long |
| InstagramClassify.ClassifySpec | instagram_competitor_analyzer.py:129-295 | the recorded item copies username, shortcode, date, likes and comments; engagement is likes plus comments; carousel iff `GraphSidecar`; video iff `is_video` reads true; video ⇒ reel; a non-video is a reel iff its URL has `/reel/` and `is_video` did not raise; performance is present iff reel and is views or else likes; the URL is the `/reel/` or `/p/` link |
| InstagramClassify.ClassifyWellClassified | instagram_competitor_analyzer.py:169-289 | every classified item satisfies the item invariant: engagement = likes + comments, video ⇒ reel, reel ⇔ performance present, carousel ⇔ metrics present |
| InstagramScan.CutFrom | instagram_competitor_analyzer.py:100-126 | the scan's stopping point is the first position that raises, exceeds the 50-post budget or holds a post older than `start`; it is at most 50 |
| InstagramScan.FetchPosts | instagram_competitor_analyzer.py:79-360 | the scan loop, with its checked and consecutive-old counters, returns exactly the reference result: the classified in-window posts before the stopping point, or nothing when the profile or the stream raises first |
| InstagramScan.ScanBounds | instagram_competitor_analyzer.py:121-131 | one account yields at most 50 items, each under that account's name, dated inside `[start, end]` and well classified |
| InstagramScan.OldPostEndsScan | instagram_competitor_analyzer.py:110-119 | the first post older than `start` ends the scan: whatever follows it is never collected, so the ten-old-posts exit never fires |
| InstagramScan.NewerPostSkipped | instagram_competitor_analyzer.py:129-131 | a post newer than `end` is skipped without ending the scan |
| InstagramScan.CollectAllInWindow | instagram_competitor_analyzer.py:129-295 | a stream of in-window posts is collected as each post classified, in stream order |
| InstagramScan.FailureDiscardsPartialResults | instagram_competitor_analyzer.py:325-348 | an exception while scanning discards the posts collected so far: the account yields nothing |
| InstagramScan.AnalyzeCompetitors | instagram_competitor_analyzer.py:362-453 | the account loop builds all posts (in account order), the successful names and the failed entries as the reference functions do, then ranks the top reels and top posts |
| InstagramScan.OutcomeCounts | instagram_competitor_analyzer.py:394-410 | every account lands in exactly one of the successful and failed lists |
| InstagramScan.OutcomeMembership | instagram_competitor_analyzer.py:394-410 | a name is successful iff its account yielded posts; a failed entry is "<name> (no posts found)" iff its account yielded none |
| InstagramScan.OutcomesAttributed | instagram_competitor_analyzer.py:379-419 | every outcome's posts carry the stripped account name, lie inside the week and are well classified |
| InstagramScan.PostsBelongToSuccessful | instagram_competitor_analyzer.py:394-402 | every collected post belongs to a successful account and lies in the week; every successful account has a collected post |
| InstagramScan.PartitionByReel | instagram_competitor_analyzer.py:435-437 | reels and non-reels together are a permutation of all posts, and each side holds only its kind |
| InstagramScan.RankingSpec | instagram_competitor_analyzer.py:435-447 | each top list holds min(10, size of its partition) items of its kind drawn from `all`, sorted non-increasing by its key (reel performance with none as 0, engagement); no item left out ranks above one kept; equal keys keep collection order, both in the full sort and in the ten kept |
| InstagramScan.LoadAccountsClean | instagram_competitor_analyzer.py:57 | loaded names are non-empty and already stripped, and there are no more than the raw entries |
| InstagramScan.LoadAccountsMembers | instagram_competitor_analyzer.py:57 | a name is loaded iff some raw entry strips to it and is not blank |
| InstagramScan.LoadAccountsSingle | instagram_competitor_analyzer.py:57 | one entry loads as its stripped text when that is not blank, and as nothing otherwise |
| InstagramScan.LoadAccountsAppend | instagram_competitor_analyzer.py:57 | loading a concatenation loads each part in turn: names keep the order of their entries, and nothing is de-duplicated |
| InstagramScan.LoadAccountsKeepsRepeats | instagram_competitor_analyzer.py:57 | two entries that strip to the same non-blank name (such as `" a"` and `"a"`) both load, so that account is fetched twice |
| StableSort.SortSpec | instagram_competitor_analyzer.py:439-443 | the sort is non-increasing in the key, a permutation, and stable: the items with each key keep their relative order |
| StableSort.PrefixIsTop | instagram_competitor_analyzer.py:445-447 | a prefix of a sorted list is sorted, and nothing after it has a higher key |
| StableSort.PrefixStable | instagram_competitor_analyzer.py:445-447 | the first `n` of a sorted list hold, for each key, a prefix of the input's elements with that key, in input order |
| WebStats.ComputeStats | app.py:45-100 | all nine counters are zero without posts; otherwise the post total is `len(all)` and the reel count is `len(reels)` |
| WebStats.RoundHalfEvenNearest | app.py:85-88 | the average is within half a unit of the exact quotient, and an exact half goes to the even neighbour |
| WebStats.TopEngagementIsMax | app.py:65-72 | the top engagement, the first item after sorting by engagement, is the maximum engagement of `all` and some post has it |
| WebStats.TotalViewsAppend | app.py:62 | total views add up over concatenation, and reels whose views are none or 0 add nothing |
| WebStats.UsernamesOfSuccessful | app.py:91 | the distinct usernames of the collected posts are exactly the successful accounts |
| WebStats.StatsOfAnalysis | app.py:57-99 | over an analysis: reel count ≤ 10, video count = 0 (every video is a reel), carousels + photos = the number of top posts, accounts analyzed = the number of distinct successful accounts, total = `len(all)` |
| Vtt.ParseVtt | youtube_podcast_analyzer.py:669-699 | the index-walking loop returns exactly the reference transcript: the cue entries joined by spaces |
| Vtt.ScanLine | youtube_podcast_analyzer.py:673-697 | one pass of the outer loop advances the index and keeps the loop invariant: what is appended plus the entries still ahead are the entries of the whole file |
| Vtt.AppendCue | youtube_podcast_analyzer.py:682-695 | handling a timing line resumes past the cue's text lines and its closing blank line, and keeps the loop invariant: the texts appended plus the entries of the lines still ahead are the entries of the whole file |
| Vtt.ReadCue | youtube_podcast_analyzer.py:686-692 | the inner loop stops at the first blank line (or the end), and its parts are the non-empty tag-free texts of the lines it passed |
| Vtt.CloseFromSpec | youtube_podcast_analyzer.py:689 | searching for a tag's closing `>` from a position finds one past the first `>` at or after it, and finds none exactly when no `>` follows |
| Vtt.RemoveTagsTagFree | youtube_podcast_analyzer.py:689 | no `<…>` tag with non-empty content is left after removal |
| Vtt.RemoveTagsPlain | youtube_podcast_analyzer.py:689 | text without `<` passes through unchanged |
| Vtt.RemoveTagsPrefix | youtube_podcast_analyzer.py:689 | a `<`-free prefix is kept as it is in front of the processed rest |
| Vtt.RemoveTagsKeepsNoNewChars | youtube_podcast_analyzer.py:689 | removal keeps only characters of its input |
| Vtt.NoTimingNoEntries | youtube_podcast_analyzer.py:673-697 | lines outside a cue contribute nothing: without a non-skipped timing line there is no entry |
| Vtt.EntriesConcat | youtube_podcast_analyzer.py:682-695 | a blank line separates: the entries of `a`, a blank line and `c` are those of `a` followed by those of `c` |
| Vtt.SingleCue | youtube_podcast_analyzer.py:682-694 | a timing line followed by text lines gives one entry joining their texts, or none when no text is left |
| Vtt.SplitJoinInverse | youtube_podcast_analyzer.py:669 | splitting separator-free lines joined by the separator gives the lines back |
| Vtt.ExampleTags | youtube_podcast_analyzer.py:689 | the line `<c>Hello</c>` loses both tags and reads "Hello" |
| Vtt.ExampleTranscript | youtube_podcast_analyzer.py:669-699 | the file `WEBVTT`, blank, `0 --> 1`, `<c>Hello</c>`, `there`, blank, `1 --> 2`, `World` reads as "Hello there World" |
| Common.StripSpec | youtube_podcast_analyzer.py:674 | `strip()` removes exactly the leading and trailing whitespace: the result is a slice, starts and ends with non-space, and is empty iff the line is all whitespace |
| Subtitles.FirstKey | youtube_podcast_analyzer.py:570-582 | the chosen language is one of the listed ones and a key of the dictionary; there is none iff no listed language is a key |
| Subtitles.FirstKeyEarliest | youtube_podcast_analyzer.py:570-574 | the chosen language is the earliest listed one present |
| Subtitles.TrackSelection | youtube_podcast_analyzer.py:566-590 | manual tracks win over automatic ones, each taken in the order en, en-US, en-GB; no other language is chosen; there is no track iff neither dictionary has an English key |
| Subtitles.FirstVttFrom | youtube_podcast_analyzer.py:602-606 | the index found is the first WebVTT format (ext "vtt" or "vtt" in the URL), and none means no format is WebVTT |
| Subtitles.FormatChoice | youtube_podcast_analyzer.py:598-611 | the subtitle URL is the first WebVTT format's URL when that is non-empty, else the first format's URL when non-empty, else there is none (also with no formats); a chosen URL is never empty |
| Subtitles.FailureClassification | youtube_podcast_analyzer.py:643-657 | an error is reported as rate limiting iff its message has 429, "Too Many Requests", "rate limit" (any case), 403 or "Forbidden"; any other error keeps its message after "Error extracting transcript with yt-dlp: " |
| Subtitles.Http429RateLimited | youtube_podcast_analyzer.py:621-652 | an HTTP 429 on the download is reported as rate limiting, whatever its reason text |
| Subtitles.Http403RateLimited | youtube_podcast_analyzer.py:621-652 | an HTTP 403 on the download is reported as rate limiting too, through its status in the re-raised message |
| Subtitles.FailureStartsWithE | youtube_podcast_analyzer.py:643-657 | every handled failure message starts with "E", so none is the skip marker |
| Subtitles.SkipOutcome | youtube_podcast_analyzer.py:584-596 | the skip marker comes out when there is no English track or the track has no formats, and otherwise only when the downloaded subtitles themselves read as the marker |
| Subtitles.DownloadedTranscript | youtube_podcast_analyzer.py:613-641 | with a usable URL and a successful download the transcript is the VTT cue text |
| Subtitles.TranscribeVideoDispatch | youtube_podcast_analyzer.py:493-508 | "openai_whisper" gives the Whisper result, "skip" gives "Transcription skipped.", and no method or any other method goes to YouTube |
| Summarize.SummarizeDispatch | youtube_podcast_analyzer.py:764-780 | a transcript that is empty or strips below 50 characters gets the too-short message whatever the settings; otherwise "gemini" (the default) and "openai_gpt" pick their provider and any other method gives the first 3 sentences |
| Summarize.GeminiOutcome | youtube_podcast_analyzer.py:782-873 | no key or library gives 5 sentences; a rate-limit-class error gives "Error: Rate limited after 1 attempts …" without fallback; other errors give 5 sentences of the transcript as it was when raised (truncated if the call was made); a reply is used stripped, an empty reply gives the empty-response message; never empty |
| Summarize.GptOutcome | youtube_podcast_analyzer.py:878-919 | GPT never reports an error: no key or library, or any error, gives 5 sentences (of the truncated transcript once truncated); a reply is used stripped |
| Summarize.TruncateSpec | youtube_podcast_analyzer.py:809-811 | a transcript within the limit is kept; a longer one becomes its first `limit` characters plus "..." |
| Summarize.FirstSentences | youtube_podcast_analyzer.py:779-780 | the first `n` `.`-segments are the text before the `n`-th full stop (all of it when there are fewer), and there are min(n, stops + 1) of them |
| Summarize.FallbackSpec | youtube_podcast_analyzer.py:789-792 | the fallback joins those segments with ". " and appends "..."; text without a full stop comes back whole with "..." |
| Summarize.CapitalizedSpec | youtube_podcast_analyzer.py:928-931 | a counted token is exactly a word longer than 3 that starts upper-case, with `.,!?;:` stripped from both ends; each token is non-empty and keeps the upper-case first letter |
| Summarize.Distinct | youtube_podcast_analyzer.py:934 | the counter's keys are duplicate-free and are exactly the tokens |
| Summarize.DistinctOrder | youtube_podcast_analyzer.py:934 | the keys come in order of first occurrence |
| Summarize.MostCommonSpec | youtube_podcast_analyzer.py:934-937 | `most_common(n)` gives min(n, distinct) distinct tokens, highest count first, nothing left out occurring more often than anything kept, ties in first-occurrence order |
| Summarize.KeyTopicsSpec | youtube_podcast_analyzer.py:921-938 | no topics for a too-short transcript; otherwise min(5, distinct tokens) topics, each a counted token, non-empty, starting upper-case |
| UploadDates.ParseYmd | youtube_podcast_analyzer.py:272-277 | a parsed `upload_date` is always the midnight of a real calendar date |
| UploadDates.ParseFormatted | youtube_podcast_analyzer.py:272-277 | every real date of years 1-9999 written as eight digits reads back as its own midnight |
| UploadDates.FirstAlternativeWins | youtube_podcast_analyzer.py:272-277 | `strptime` commits to the first month alternative a day can follow: "2024111X" matches month 11, day 1, and is refused |
| UploadDates.DayNumberOrder | youtube_podcast_analyzer.py:290-292 | parsed times follow the calendar, so the week test on them is chronological |
| UploadDates.UploadTimeSpec | youtube_podcast_analyzer.py:269-288 | an `upload_date` of at least 8 characters decides by its first 8 alone; otherwise a non-zero timestamp is the time, and without one the video is skipped |
| Discovery.ChannelVideosUrlSpec | youtube_podcast_analyzer.py:169-174 | exactly the `/@` and `/channel/` URLs become the URL without trailing slashes plus "/videos"; others are used as given |
| Discovery.CollectMembers | youtube_podcast_analyzer.py:190-193 | the entries kept are exactly the non-null entries of the listing |
| Discovery.CollectAppend | youtube_podcast_analyzer.py:190-193 | filtering a concatenation filters each part in turn, so the kept entries stay in listing order |
| Discovery.SingleVideoListing | youtube_podcast_analyzer.py:194-197 | a listing with no entries left but an `id` of its own is examined as that one video |
| Discovery.MatchOf | youtube_podcast_analyzer.py:228-295 | an entry matches exactly when it is a dict with a truthy id, its metadata fetch gave a dict with a truthy title, and its upload time is readable and inside `[start, end]`; the match carries that metadata, title and time |
| Discovery.DiscoverMatches | youtube_podcast_analyzer.py:205-302 | the loop examines at most 20 entries, keeps at most 3 matches in order, stops early only with 3, and returns the reference `Discovered` |
| Discovery.DiscoveredSpec | youtube_podcast_analyzer.py:205-302 | min(3, number of matching entries among the first min(20, len) ones) matches, each from one of those entries; every matching entry met before three were collected is kept, so all of them when fewer than three match |
| Discovery.VideoOutcomeSpec | youtube_podcast_analyzer.py:374-455 | the skip marker drops the video; a transcript failing its gate is kept (or "Transcript not available") with the no-transcript summary; a summary with "Error" becomes the API-error summary; otherwise all three are stored; no stored summary has "Error" |
| Discovery.RaisedTranscriptKept | youtube_podcast_analyzer.py:394-395 | a transcription that raises is stored as "Error extracting transcript: …" with the no-transcript summary |
| Discovery.GateImpliesLongEnough | youtube_podcast_analyzer.py:405-409 | a transcript passing the gate is never too short for the summarizer |
| Discovery.GeminiRateLimitInPipeline | youtube_podcast_analyzer.py:413-444 | a rate-limited Gemini call stores the API-error summary, keeps the transcript and stores no topics |
| Discovery.NoEnglishDropped | youtube_podcast_analyzer.py:399-403 | a video without an English track is dropped from the results |
| Discovery.ProcessMatch | youtube_podcast_analyzer.py:315-464 | one pass of the second loop appends the match's podcast unless it is dropped |
| Discovery.ProcessMatches | youtube_podcast_analyzer.py:315-464 | the second loop returns the podcasts of the matches in order, skipping dropped ones |
| Discovery.ProcessedSources | youtube_podcast_analyzer.py:315-464 | no more podcasts than matches; each is under the channel, has no "Error" in its summary and carries a match's title and time |
| Discovery.FetchPodcasts | youtube_podcast_analyzer.py:138-474 | the channel fetch returns the reference result: nothing for a failed or empty listing, else the processed matches |
| Discovery.ChannelPodcastsSpec | youtube_podcast_analyzer.py:138-474 | a channel yields at most 3 podcasts, all under its name, in the week, with no "Error" in the summary, and none when the listing raises or returns nothing |
| Discovery.CalculateStatsSpec | youtube_podcast_analyzer.py:940-956 | zero counters without podcasts; otherwise 1 ≤ distinct channels ≤ podcast count = the list's length; over a concatenation counts and durations add and channels are at most the sum |
| Discovery.SingleChannelStats | youtube_podcast_analyzer.py:951 | one channel's podcasts count as one channel |

## Left out

- Library calls are inputs:
  - instaloader, yt-dlp, `urllib.request`, `openai` and `google.generativeai`;
  - `transcribe_with_openai_whisper` (its result is a parameter of `Subtitles.TranscribeVideo`);
  - prompts, model names and generation settings.
- Side effects with no bearing on the results:
  - `time.sleep` pacing;
  - console output;
  - `reel_indicators` (debug only);
  - `display_results`, `save_results` and `main`.
- File I/O is not modelled:
  - `load_config`, `create_template_file` and reading the accounts file;
  - the VTT file read, its error message (youtube_podcast_analyzer.py:701-702) and the temporary file cleanup.
  - `Vtt.ParseVtt` works on the file content as a text-mode read returns it, after universal-newline translation (a lone `\r` or `\r\n` already reads as `\n`). That translation is not modelled.
- `get_week_range` reads the clock, so `start` and `end` are parameters.
- Dates are integer seconds in UTC:
  - timezone handling is not modelled;
  - neither is the `published_date` and `date` string formatting.
- The second date parse (youtube_podcast_analyzer.py:330-346) reads the same metadata as the first, so it always succeeds with the same value; the model reuses the first result.
- Values that are present but null (`None`) are modelled only where the code treats them specially:
  - null listing entries and a null `id`;
  - `x or 0` defaults.
  - Elsewhere a key is either missing or holds a value of the expected type.
- Case and character classes are ASCII:
  - `isupper` in key topics and `\d` in `strptime` are ASCII only;
  - `lower()` is ASCII lower-casing, which is exact for the patterns searched.
- The YouTube `analyze_competitors` is not modelled:
  - its sort by the formatted `published_date` string (youtube_podcast_analyzer.py:127);
  - its per-channel `except` (122-124), which `fetch_podcasts_from_channel` never triggers because it catches everything itself.
- Handlers that cannot fire are not modelled: every error below is caught before it, or every path returns earlier.
  - The error entry of `failed_accounts` (instagram_competitor_analyzer.py:411-416): `fetch_posts_from_account` catches every exception.
  - The `elif` branches at app.py:73-81.
  - youtube_podcast_analyzer.py:660 and 876.
  - The per-video `except` at 456-462.
  - The channel-level excepts at 466-472.
- `load_config`'s channel filter (youtube_podcast_analyzer.py:60-62) is dead code: the unfiltered data is returned.
- `extract_channel_id` and `extract_video_id` are never called.
- WebStats.ComputeStats: its own contract states only the zero case, the post total, the reel count and a bound on the type counts. The other counters are stated by `RoundHalfEvenNearest`, `TopEngagementIsMax`, `TotalViewsAppend`, `UsernamesOfSuccessful` and `StatsOfAnalysis`.
- WebStats.RoundHalfEvenNearest: the average is modelled as exact round-half-to-even of `sum / len` on integers. The floating-point division is not modelled, so results for very large sums may differ.
- Discovery pairs each examined entry, and each match, with its upstream result by position. The model does not capture that the metadata lookup is skipped for entries without an id.
