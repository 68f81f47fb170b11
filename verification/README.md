# A model of the sequential crawler of async-crawler

The crawler walks the video API of a site id by id. It works in four steps:

1. A generator produces the video ids. An id is decimal text whose last digit is a marker `1`, so "1231" has value 123. The ascending generator counts up from its seed; the descending one counts down from one below it.
2. The crawler sends one request per id.
3. After each response, a chain of stopping callbacks may end the crawl. There are three: a rate limit, a publication-date window, and a patience counter of consecutive failures.
4. The crawler returns the kept payloads, without those of missing videos (code 2002), each processed with the tag processor of its resource.

A second entry point, `search`, asks for result pages 1 to n instead.

The project has one Dafny module per source file, plus `Builtins`:

- `Builtins` (builtins.dfy) holds the Python values and built-ins the code relies on:
  - decoded JSON, without floats;
  - raised exceptions, either `StopCrawl(msg)` or any other exception named by its class;
  - truthiness, `dict.get`, subscripting;
  - `int(...)` and `str(...)` on decimal text, with their round trips proved.
- `Utils` (utils.dfy) is `get_nested`. Its loop is a method, proved against the function `Nested`, and the lookup rules are proved about `Nested`.
- `Transforms` (transforms.dfy) holds the two tag processors, on ASCII text.
- `Videos` (videos.dfy) holds `VideoId` and both generators. The generators are one class with an `order` field; each one's `__next__` is the method `Next`, which updates `count`. `Next` is proved against the function `NextStep`, whose closed form and limit behaviour are lemmas.
- `Stopping` (stopping.dfy) holds the three callbacks:
  - the rate-limit and time-range checks are functions;
  - `FailurePatienceStopper` is a class whose methods update its counter.

  Timestamps are integers. `pendulum.parse` and `to_iso8601_string` are functions the time-range stopper is given.
- `Core` (core.dfy) holds the `Crawler` class:
  - The HTTP client is a function from the query it receives to the decoded payload.
  - The query is the client's default parameters merged under the request's, as httpx merges them.
  - A ghost field `sent` logs every query, in order.
  - `get`, `crawl`, `search` and `get_video` are methods, proved against specification functions: the callback chain `RunChain`, the crawl loop `CrawlRun`, and the page comprehension `ProcessResponses`.
  - `process` keeps only its choice of tag processor: a processed `Record` is the raw video object and its processed tags.

## Model

| member | source | states |
|---|---|---|
| `Builtins.NatToDecimalShape` | components/crawler/src/crawler/videos.py:36 | `str(n)` of a non-negative integer is a non-empty run of digits with no leading zero, starting with `0` only for 0 |
| `Builtins.DecimalCanonicalRoundTrip` | components/crawler/src/crawler/videos.py:30-36 | a digit string without a leading zero is `str` of its own value, so canonical text and non-negative integers are in one-to-one correspondence |
| `Builtins.ParseIntToString` | components/crawler/src/crawler/videos.py:30-36 | `int(str(i)) == i` for every integer, negative ones included |
| `Builtins.IntToStringInjective` | components/crawler/src/crawler/videos.py:34-36 | distinct integers have distinct decimal texts |
| `Utils.Nested` | components/crawler/src/crawler/utils.py:4-8 | reference definition of what `get_nested` returns or raises, key by key; the lookup rules are the lemmas below |
| `Utils.GetNested` | components/crawler/src/crawler/utils.py:4-8 | the loop over every key but the last, then the last lookup, returns exactly what the reference `Nested` gives, exception included |
| `Utils.NestedFindsPresentPath` | components/crawler/src/crawler/utils.py:4-8 | when every key of the path is present, the value at the end of the path is returned; with no keys, the payload itself |
| `Utils.NestedThroughEmpty` | components/crawler/src/crawler/utils.py:6-8 | a non-empty path walked through an empty dict ends at `default` |
| `Utils.NestedMissingKey` | components/crawler/src/crawler/utils.py:6-8 | a key missing from a dict met on the path, final or intermediate, makes the result `default` |
| `Utils.NestedDefaultOnlyAtEnd` | components/crawler/src/crawler/utils.py:6-8 | `default` only answers the last lookup: two calls differing only in `default` agree unless each returns its own default |
| `Transforms.Lower` | components/crawler/src/crawler/transforms.py:9 | `lower()` keeps the length and lower-cases each ASCII letter in place |
| `Transforms.ReplaceSpaces` | components/crawler/src/crawler/transforms.py:9 | `replace(" ", "-")` keeps the length, turns every space into `-` and keeps every other character |
| `Transforms.NormaliseTag` | components/crawler/src/crawler/transforms.py:9 | definition of one tag's normalisation, lower-casing then replacing spaces; `Transforms.NormaliseTagShape` states its result |
| `Transforms.NormaliseTagShape` | components/crawler/src/crawler/transforms.py:9 | a normalised tag has the input's length, holds no space and no upper-case letter, and keeps every other character |
| `Transforms.NormaliseTagIdempotent` | components/crawler/src/crawler/transforms.py:9 | normalising a tag twice equals normalising it once |
| `Transforms.PreprocessCrawlTags` | components/crawler/src/crawler/transforms.py:8-9 | one output per input tag, in the same order, each the normalised input |
| `Transforms.PreprocessCrawlTagsIdempotent` | components/crawler/src/crawler/transforms.py:8-9 | applying the crawl processor twice equals applying it once |
| `Transforms.CrawlTagsExample` | components/crawler/tests/test_transforms.py:9-13 | "Xyz" and "xyz Xyz" become "xyz" and "xyz-xyz" |
| `Transforms.TagName` | components/crawler/src/crawler/transforms.py:5 | a tag's name is read exactly when the tag is a dict whose `tag_name` is a string, and is then that string |
| `Transforms.TagNames` | components/crawler/src/crawler/transforms.py:5 | definition of the projection of every tag's name, in order, the first exception winning; `Transforms.TagNamesOfObjects` states it on tag objects |
| `Transforms.TagNamesOfObjects` | components/crawler/src/crawler/transforms.py:4-5 | tag objects whose `tag_name`s are given strings project to those strings, in order |
| `Transforms.PreprocessSearchTags` | components/crawler/src/crawler/transforms.py:4-5 | on success, one output per tag object |
| `Transforms.SearchTagsAreCrawlTagsOfNames` | components/crawler/src/crawler/transforms.py:4-9 | the search processor is the crawl processor applied to each object's `tag_name`, and it raises what the projection raises |
| `Transforms.SearchTagsExample` | components/crawler/tests/test_transforms.py:16-20 | the tag objects "Xyz" and "Xyz Xyz" become "xyz" and "xyz-xyz" |
| `Videos.SameId` | components/crawler/src/crawler/videos.py:47-48 | two ids are equal exactly when their texts are |
| `Videos.NumericalValue` | components/crawler/src/crawler/videos.py:30-32 | succeeds exactly when the id parses as an integer, and is then its floor division by 10: ten times the value is at most the integer, which is less than ten times the value plus 10 |
| `Videos.FromNumerical` | components/crawler/src/crawler/videos.py:34-36 | definition of `from_numerical`; its shape, round trip and injectivity are the lemmas below |
| `Videos.Next` | components/crawler/src/crawler/videos.py:38-39 | `next` raises exactly when the id does not parse as an integer; otherwise, when the value plus one is not negative, it gives an id whose value is one more |
| `Videos.Previous` | components/crawler/src/crawler/videos.py:41-42 | `previous` raises exactly when the id does not parse as an integer; otherwise, for a value of at least 1, it gives an id whose value is one less |
| `Videos.NumericalValueOfDigits` | components/crawler/src/crawler/videos.py:30-32 | the value of a digit string is the number written before its last digit |
| `Videos.FromNumericalShape` | components/crawler/src/crawler/videos.py:34-36 | `from_numerical(n)` is `str(n)` followed by the marker `1` |
| `Videos.FromNumericalRoundTrip` | components/crawler/src/crawler/videos.py:30-36 | for n >= 0, `from_numerical(n)` is canonical and its value is n |
| `Videos.CanonicalIsFromNumerical` | components/crawler/src/crawler/videos.py:30-36 | every canonical id has a non-negative value and is `from_numerical` of it |
| `Videos.FromNegativeDrifts` | components/crawler/src/crawler/videos.py:30-36 | for n < 0 the round trip misses by one: the value of `from_numerical(n)` is n - 1 |
| `Videos.FromNumericalInjective` | components/crawler/src/crawler/videos.py:34-36 | distinct values give distinct ids |
| `Videos.NextThenPrevious` | components/crawler/src/crawler/videos.py:38-42 | `previous(next(x)) == x` for every canonical id |
| `Videos.PreviousThenNext` | components/crawler/src/crawler/videos.py:38-42 | `next(previous(x)) == x` for every canonical id of value at least 1 |
| `Videos.PreviousOfZeroBreaksRoundTrip` | components/crawler/src/crawler/videos.py:38-42 | below value 1 the pair breaks: `previous("1")` is "-11", and `next("-11")` is "-11" again |
| `Videos.IdExamples` | components/crawler/tests/test_videos.py:4-21 | "1231" has value 123, is rebuilt from 123, and is followed by "1241" and preceded by "1221" |
| `Videos.NextStep` | components/crawler/src/crawler/videos.py:81-116 | one `__next__` raises StopIteration exactly at a truthy limit, otherwise yields the id at `count` in closed form and advances `count` by one; it raises the seed's error exactly when within the limit with an unparsable seed |
| `Videos.StepsAt` | components/crawler/src/crawler/videos.py:81-116 | within the limit, the i-th of n successive calls does what a call from `count + i` does |
| `Videos.StepsClosedForm` | components/crawler/src/crawler/videos.py:81-116 | within the limit, the i-th of n successive calls yields the id at `count + i` |
| `Videos.StopsAtLimit` | components/crawler/src/crawler/videos.py:82-83 | the call after the limit is reached raises StopIteration |
| `Videos.ExactlyLimitIds` | components/crawler/src/crawler/videos.py:81-116 | with a positive limit L, a fresh generator yields exactly L ids in closed form, then raises StopIteration |
| `Videos.InvalidSeedFails` | components/crawler/src/crawler/videos.py:85 | an unparsable seed makes the first call within the limit raise its ValueError |
| `Videos.UnlimitedNeverExhausts` | components/crawler/src/crawler/videos.py:82 | with limit None or 0 no call raises StopIteration |
| `Videos.AscendingValues` | components/crawler/src/crawler/videos.py:85-87 | for a non-negative seed value, the k-th ascending id (from 0) has value seed + k, and the first is `from_numerical` of the seed's value; below zero the value drifts by one, see `Videos.FromNegativeDrifts` |
| `Videos.AscendingStartsAtSeed` | components/crawler/src/crawler/videos.py:63-87 | on a canonical seed, the first ascending id is the seed itself ("included") |
| `Videos.DescendingValues` | components/crawler/src/crawler/videos.py:114-116 | the k-th descending id (from 1) has value seed - k while that value is non-negative; below zero the value drifts by one, see `Videos.FromNegativeDrifts` |
| `Videos.DescendingNeverSeed` | components/crawler/src/crawler/videos.py:114-116 | no descending id is `from_numerical` of the seed's value, whatever that value |
| `Videos.DescendingNeverSeedId` | components/crawler/src/crawler/videos.py:98-116 | the seed id itself ("excluded") is never produced, canonical or not, for every seed that parses |
| `Videos.RemainingYield` | components/crawler/src/crawler/videos.py:81-116 | the i-th id a limited generator still has to give is what the i-th of its next calls yields |
| `Videos.RemainingAreSteps` | components/crawler/src/crawler/videos.py:81-116 | the remaining ids are exactly what the successive `__next__` calls yield, one per call, and the call after the last of them raises StopIteration |
| `Videos.VideoIdGenerator.constructor` | components/crawler/src/crawler/videos.py:75-79 | a new generator keeps its seed and limit (None by default) and starts at count 0 |
| `Videos.VideoIdGenerator.Next` | components/crawler/src/crawler/videos.py:81-116 | `__next__` of either class does what `NextStep` says, on the count before the call |
| `Videos.DocstringExamples` | components/crawler/tests/test_videos.py:24-43 | from seed "1231" with limit 3, ascending gives "1231", "1241", "1251" and descending gives "1221", "1211", "1201" |
| `Stopping.TooManyRequestCheck` | components/crawler/src/crawler/callbacks/stopping.py:46-50 | on a dict, stops exactly when `code` is 1005, with the payload's `message` or "Too many requests."; a non-dict raises AttributeError |
| `Stopping.TimeRangeCheck` | components/crawler/src/crawler/callbacks/stopping.py:26-43 | a falsy or missing date never stops; a parsed date passes exactly when it lies in [start, end), a missing bound imposing nothing, and otherwise stops; lookup and parse errors propagate |
| `Stopping.TimeRangeMessages` | components/crawler/src/crawler/callbacks/stopping.py:33-43 | the start bound is checked first and gives the "prior" message; only then does the end bound give the "subsequent" message |
| `Stopping.TimeRangeIgnoresMissingDate` | components/crawler/src/crawler/callbacks/stopping.py:29-31 | a dict payload without `video`, or whose `video` dict has no `publish_date` or a falsy one, never stops the crawl |
| `Stopping.IncrementStep` | components/crawler/src/crawler/callbacks/stopping.py:65-68 | the counter grows by exactly 1 and the call stops exactly when the new count reaches the patience |
| `Stopping.PatienceStep` | components/crawler/src/crawler/callbacks/stopping.py:58-63 | a truthy `code` (2002 included) is an increment; any other dict resets the counter to 0 without stopping; a non-dict raises and leaves the counter |
| `Stopping.FailurePatienceStopper.constructor` | components/crawler/src/crawler/callbacks/stopping.py:54-56 | a new stopper keeps its patience (100 by default) and starts at 0 |
| `Stopping.FailurePatienceStopper.Increment` | components/crawler/src/crawler/callbacks/stopping.py:65-68 | `increment` does what `IncrementStep` says, keeping the incremented count when it stops |
| `Stopping.FailurePatienceStopper.Reset` | components/crawler/src/crawler/callbacks/stopping.py:70-71 | `reset` sets the counter to 0 and never stops |
| `Stopping.FailurePatienceStopper.AfterResponse` | components/crawler/src/crawler/callbacks/stopping.py:58-63 | `after_response` does what `PatienceStep` says; the patience never changes |
| `Stopping.PatienceRun` | components/crawler/src/crawler/callbacks/stopping.py:58-68 | definition of successive `after_response` calls on one counter, the first exception ending the run; `Stopping.FailureRunStops` and `Stopping.SuccessResets` state its behaviour |
| `Stopping.FailureRunStops` | components/crawler/src/crawler/callbacks/stopping.py:58-68 | a run of failures from counter c stops exactly when it is non-empty and c plus its length reaches the patience, at the failure that reaches it |
| `Stopping.SuccessResets` | components/crawler/src/crawler/callbacks/stopping.py:58-71 | a success forgets every failure before it |
| `Stopping.PatienceScenario` | components/crawler/tests/test_callbacks.py:76-82 | with patience 2, increment, reset, increment do not stop, and one more increment stops |
| `Stopping.AfterResponse` | components/crawler/src/crawler/core.py:100-101 | `callback.after_response` dispatches to the callback's own check, and changes only a patience stopper's counter |
| `Core.CrawlTagTextsSpec` | components/crawler/src/crawler/transforms.py:8-9 | crawl tags are read exactly when every one is a string, and then they are those strings, in order |
| `Core.CrawlTagTextsOfStrings` | components/crawler/src/crawler/transforms.py:8-9 | tags that are given strings are read as those strings |
| `Core.ProcessTags` | components/crawler/src/crawler/core.py:39-52 | definition of `TAGS_PROCESSORS[resource](tags)`: the search processor for the search resource, the crawl processor for the by-id resource |
| `Core.Process` | components/crawler/src/crawler/core.py:37-54 | definition of `process` reduced to its tags; `Core.ProcessOutcome` states it |
| `Core.ProcessOutcome` | components/crawler/src/crawler/core.py:37-54 | in the model, `process` keeps the video and replaces only its tags, with the processor of the resource; a non-dict video or non-list tags raise TypeError, missing tags KeyError (exceptions of the other fields are left out) |
| `Core.ProcessCrawlResource` | components/crawler/src/crawler/core.py:20-23 | the by-id resource processes tag strings with the crawl processor |
| `Core.ProcessSearchResource` | components/crawler/src/crawler/core.py:20-23 | the search resource projects each tag's `tag_name`, then normalises it as the crawl processor does |
| `Core.KeepPayload` | components/crawler/src/crawler/core.py:95 | the filter raises AttributeError exactly on a non-dict, and keeps a dict exactly when its `code` is not 2002 |
| `Core.ProcessVideo` | components/crawler/src/crawler/core.py:93 | definition of `process(p["video"], resource)`, raising what the subscript raises |
| `Core.ProcessPayloads` | components/crawler/src/crawler/core.py:92-96 | the filtering comprehension never returns more records than payloads |
| `Core.Accepted` | components/crawler/src/crawler/core.py:95 | the filter keeps no payload with code 2002 |
| `Core.ProcessEach` | components/crawler/src/crawler/core.py:93-94 | processing every payload gives one record per payload |
| `Core.ProcessPayloadsIsFilterThenMap` | components/crawler/src/crawler/core.py:92-96 | on dict payloads, the comprehension drops exactly the 2002 payloads and processes the rest, in order |
| `Core.ProcessPayloadsAppend` | components/crawler/src/crawler/core.py:70-75 | the comprehension over two payload lists is the comprehension over each, concatenated, the first exception winning |
| `Core.ProcessResponses` | components/crawler/src/crawler/core.py:70-75 | definition of the nested comprehension of `search`; `Core.SearchIsProcessOfAllVideos` states it |
| `Core.SearchIsProcessOfAllVideos` | components/crawler/src/crawler/core.py:70-75 | search's nested comprehension is the filter over all pages' videos, page after page, dropping only sub-records with code 2002 |
| `Core.FetchResult` | components/crawler/src/crawler/core.py:108-112 | the raw payload comes back exactly when its code is 2002; any other dict is processed with the by-id resource |
| `Core.BaseParams` | components/crawler/src/crawler/core.py:28-31 | definition of `self.params`: JSON output and the thumbnail size |
| `Core.CrawlQuery` | components/crawler/src/crawler/core.py:78-82 | definition of the query `crawl` sends for one id; `Core.CrawlParamsStep` shows the loop builds it |
| `Core.VideoQuery` | components/crawler/src/crawler/core.py:105 | definition of the query `get_video` sends; `Core.CrawlAndGetVideoAgree` shows it is the crawl query |
| `Core.SearchBase` | components/crawler/src/crawler/core.py:63 | definition of `search_params` before the loop |
| `Core.SearchQuery` | components/crawler/src/crawler/core.py:63-67 | definition of the query `search` sends for one page; `Core.SearchQueryKeys` and `Core.SearchParamsStep` state it |
| `Core.CrawlAndGetVideoAgree` | components/crawler/src/crawler/core.py:82-84 | `crawl` and `get_video` send the same query for the same id |
| `Core.SearchQueryKeys` | components/crawler/src/crawler/core.py:63-67 | a search page's query names the search resource and the page whatever the extra params hold, and asks for JSON unless they override it |
| `Core.Pages` | components/crawler/src/crawler/core.py:66 | the page queries number exactly n |
| `Core.PagesAt` | components/crawler/src/crawler/core.py:66-67 | the i-th query asks for page i + 1, so pages are asked in increasing order |
| `Core.Answers` | components/crawler/src/crawler/core.py:68 | one payload per query |
| `Core.AnswersAt` | components/crawler/src/crawler/core.py:68 | the i-th payload is the client's answer to the i-th query |
| `Core.SearchParamsStep` | components/crawler/src/crawler/core.py:63-68 | reassigning `search_params` with the page gives that page's query, with or without the client's defaults merged in |
| `Core.CrawlParamsStep` | components/crawler/src/crawler/core.py:78-84 | reassigning `crawl_params` with the id gives that id's query, with or without the client's defaults merged in |
| `Core.Apply` | components/crawler/src/crawler/core.py:101 | one callback leaves the set of tracked stoppers unchanged |
| `Core.RunChain` | components/crawler/src/crawler/core.py:100-101 | running the chain leaves the set of tracked stoppers unchanged |
| `Core.ChainStopIsFinal` | components/crawler/src/crawler/core.py:100-101 | once a callback raises, the callbacks after it change nothing |
| `Core.StatelessChainPasses` | components/crawler/src/crawler/core.py:100-101 | without patience stoppers the chain changes no counter and passes exactly when every check passes |
| `Core.StatelessChainFirstFailure` | components/crawler/src/crawler/core.py:100-101 | without patience stoppers a raising chain raises what its first failing check raises, every earlier check passing |
| `Core.CommandLineChainRateLimitFirst` | components/crawler/src/crawler/cli.py:44-48 | in the command line's order a rate-limit payload stops at the first callback and leaves the patience counter as it was |
| `Core.CrawlStep` | components/crawler/src/crawler/core.py:81-90 | one turn of the loop keeps the set of tracked stoppers |
| `Core.CrawlRun` | components/crawler/src/crawler/core.py:81-90 | the loop keeps the set of tracked stoppers |
| `Core.CrawlRunSnoc` | components/crawler/src/crawler/core.py:81-90 | crawling one more id takes one more turn of the loop |
| `Core.CrawlTurn` | components/crawler/src/crawler/core.py:81-90 | while running, one more id is one more request whose payload goes through the chain: kept if it passes, dropped with a stop or a crash if a callback raises |
| `Core.Requests` | components/crawler/src/crawler/core.py:81-84 | one query per id |
| `Core.RequestsAt` | components/crawler/src/crawler/core.py:81-84 | the i-th query asks for the i-th id, so ids are requested in generator order |
| `Core.RequestsSnoc` | components/crawler/src/crawler/core.py:81-84 | one more id appends its query |
| `Core.CrawlRunLengths` | components/crawler/src/crawler/core.py:81-90 | a prefix of the ids is requested; a run still going requested them all and kept every payload; a stop or crash kept every payload but the last |
| `Core.CrawlRunPayloads` | components/crawler/src/crawler/core.py:81-90 | the i-th kept payload is the client's answer to the query of the i-th id |
| `Core.CrawlStepShape` | components/crawler/src/crawler/core.py:81-90 | after the loop has ended a turn changes nothing; while it runs, a turn requests once and keeps the payload only if the loop goes on |
| `Core.CrawlStopIsFinal` | components/crawler/src/crawler/core.py:85-87 | after a stop or crash no further id is requested: later ids change nothing |
| `Core.PendingIds` | components/crawler/src/crawler/videos.py:81-116 | a limited generator either raises on its first call or has exactly `limit - count` ids left (none past the limit) |
| `Core.PendingIdsNext` | components/crawler/src/crawler/core.py:81 | after n of the pending ids, the generator ends exactly when all were given, raises only when there are none, and otherwise gives the next one |
| `Core.NextPending` | components/crawler/src/crawler/core.py:81 | the generator call of the loop yields the next pending id, ends after the last one, or raises only on its first call |
| `Core.CrawlCounts` | components/crawler/src/crawler/core.py:80-96 | results <= kept payloads <= requests <= ids the generator had left |
| `Core.Crawler.constructor` | components/crawler/src/crawler/core.py:57-59 | a new crawler keeps its client, callbacks (none by default) and thumbnail size ("big" by default), and has sent nothing |
| `Core.Crawler.Counters` | components/crawler/src/crawler/core.py:26 | there is one counter per patience stopper among the callbacks |
| `Core.Crawler.Notify` | components/crawler/src/crawler/core.py:101 | one callback's `after_response`, as `Apply` says, on the counters of all the patience stoppers |
| `Core.Crawler.Get` | components/crawler/src/crawler/core.py:98-102 | `get` sends one query, runs the callbacks in list order as `RunChain` says, and returns the response only if none raises, else the first exception |
| `Core.Crawler.Fetch` | components/crawler/src/crawler/core.py:82-84 | the loop's request for an id sends exactly that id's query through `get` |
| `Core.Crawler.Request` | components/crawler/src/crawler/core.py:81-90 | the request for the next pending id is the next turn of `CrawlRun`: one more query is sent, and the payload is kept, or a stop or crash recorded |
| `Core.Crawler.Crawl` | components/crawler/src/crawler/core.py:77-96 | `crawl` sends one query per pending id, in order, until the generator ends or a callback raises; it returns the kept payloads processed without 2002s, or the exception if another one escaped |
| `Core.Crawler.SearchPage` | components/crawler/src/crawler/core.py:66-68 | one turn of `search`'s loop sends the page's query and appends the client's answer |
| `Core.Crawler.Search` | components/crawler/src/crawler/core.py:61-75 | `search` (one page and no extra params by default) sends pages 1 to n in order, without callbacks, and returns the comprehension over the answers |
| `Core.Crawler.GetVideo` | components/crawler/src/crawler/core.py:104-112 | `get_video` sends one by-id query through the callbacks, then returns the raw payload of a missing video or the processed record |

## Left out

- `AsyncCrawler` (core.py:115-163): its point is concurrency (a semaphore, completion-order reordering by `as_completed`, retries with exponential backoff). None of that is modelled.
- thumbnails.py: an async download pool, base64 and SHA-256 calls, all foreign code.
- cli.py: argument parsing, pandas output and printing. Only its callback order (cli.py:44-48) is used, in `Core.CommandLineChainRateLimitFirst`.
- The field projection in `process` (core.py:40-51, 53): date parsing and formatting by pendulum, `str`/`int`/`float` conversions of the other fields (float is not modelled), the thumbnail list. A `Record` keeps the raw video object and the processed tags.
- `Core.ProcessOutcome`: the exceptions `process` raises on the other fields (a missing `video_id`, an unparsable date, a non-numeric `views` or `rating`, a bad thumbnail list) are not modelled. Those fields are read before `tags` (core.py:41-51), so where the program raises on them, the model can still succeed or raise on the tags.
- `Core.Process`: for the same reason, it can raise only on the video object and its `tags`.
- Date parsing and ISO-8601 formatting in the time-range stopper are functions the stopper is given. Timestamps are integers, compared as pendulum compares instants. The formatting function `iso` sees only the instant. So it cannot print each datetime with its own UTC offset as `to_iso8601_string` does (stopping.py:36, 42). A start bound given with "+02:00" and a record date in UTC at the same instant would print differently in the source. Only the text of the stop messages is affected.
- The HTTP client is a deterministic function of the query. Network errors, the `track` progress bar and logging are left out. The warning logged on a stop carries no state.
- The base URL and path "/" are the same for every request and are not part of the query.
- `int(...)` accepts only an optional sign followed by ASCII digits: surrounding whitespace, underscores and non-ASCII digits are not modelled.
- `lower()` is modelled on ASCII letters only.
- Iterating anything but a list (tags, `videos`) is modelled as TypeError. Python would also iterate strings and dicts.
- `params or {}` in `search` takes the extra parameters as a map: a falsy non-dict argument is not modelled.
- `Core.Crawler.Crawl`: requires a limited generator (limit neither None nor 0). With an unlimited one the loop ends only on a callback's stop, so the number of requests cannot be bounded.
- `Core.Crawler.Search`: the rate-limit, time-range and patience callbacks are not run, and the frame (only `sent` changes) shows it; `n_pages` at most 0 sends nothing.
- `__len__` (videos.py:89-90) is the generator's `limit` field itself, not a separate member.
- The descending generator's docstring (videos.py:103-107) names the ascending class. The model follows the descending class's code and its test (test_videos.py:35-43).
- A callback other than the three stoppers (the `CallBack` base class is not part of this model) is not modelled: the callback list holds only those three.
- `Core.ProcessPayloads`: states only the length bound. The exact filter-then-map contents are in `Core.ProcessPayloadsIsFilterThenMap`, which assumes dict payloads, because `.get` on a non-dict raises AttributeError first.
- `Transforms.PreprocessSearchTags`: states only the length on success. Its contents are in `Transforms.SearchTagsAreCrawlTagsOfNames`.
