/**
 * The sequential Crawler. Each request goes through the HTTP client, whose
 * answer is the decoded payload; the client is a function from the query it
 * receives to that payload. httpx merges the client's default parameters
 * with those of the request, the request's winning on a shared key, so the
 * query the API sees is `params + request`.
 *
 * `process` keeps only its choice of tag processor: a processed record is
 * the raw video object with its processed tags.
 */
module Core {
  import opened Builtins
  import opened Transforms
  import opened Videos
  import opened Stopping

  /** The query parameters of one request. */
  type Query = map<string, Json>

  /** The two API resources the crawler uses. */
  datatype Resource = SearchVideos | VideoById

  /** SEARCH_RESOURCE and VIDEO_BY_ID_RESOURCE. */
  function ResourceName(r: Resource): string {
    match r
    case SearchVideos => "xyz.Videos.searchVideos"
    case VideoById => "xyz.Videos.getVideoById"
  }

  /** The code the API puts on the payload of an id without a video. */
  const MissingVideoCode := 2002

  /** `self.params`: JSON output and the thumbnail size. */
  function BaseParams(thumbsize: string): Query {
    map["output" := Str("json"), "thumbsize" := Str(thumbsize)]
  }

  // ---------------------------------------------------------------------
  // process, reduced to its tag processing

  /** A processed record: the video object and its processed tags. */
  datatype Record = Record(video: Json, tags: seq<string>)

  /** `preprocess_crawl_tags` on decoded tags: each must be a string for `.lower()`. */
  function CrawlTagTexts(tags: seq<Json>): Result<seq<string>>
    decreases |tags|
  {
    if tags == [] then Ok([])
    else if !tags[0].Str? then Err(Raised("AttributeError"))
    else
      match CrawlTagTexts(tags[1..])
      case Err(e) => Err(e)
      case Ok(rest) => Ok([tags[0].s] + rest)
  }

  /** Crawl tags are read exactly when every one of them is a string, and then they are those strings. */
  lemma {:induction false} CrawlTagTextsSpec(tags: seq<Json>)
    ensures CrawlTagTexts(tags).Ok? ==>
              |CrawlTagTexts(tags).value| == |tags|
              && forall i :: 0 <= i < |tags| ==> tags[i] == Str(CrawlTagTexts(tags).value[i])
    ensures CrawlTagTexts(tags).Err? <==> exists i :: 0 <= i < |tags| && !tags[i].Str?
    decreases |tags|
  {
    if tags != [] {
      CrawlTagTextsSpec(tags[1..]);
      if CrawlTagTexts(tags).Err? && tags[0].Str? {
        var i :| 0 <= i < |tags[1..]| && !tags[1..][i].Str?;
        assert !tags[i + 1].Str?;
      }
      if CrawlTagTexts(tags).Ok? {
        forall i | 0 <= i < |tags|
          ensures tags[i] == Str(CrawlTagTexts(tags).value[i])
        {
          if i > 0 {
            assert tags[i] == tags[1..][i - 1];
          }
        }
      }
    }
  }

  /** `TAGS_PROCESSORS[resource](tags)`; iterating anything but a list raises TypeError. */
  function ProcessTags(resource: Resource, tags: Json): Result<seq<string>> {
    if !tags.Arr? then Err(Raised("TypeError"))
    else
      match resource
      case SearchVideos => PreprocessSearchTags(tags.items)
      case VideoById =>
        match CrawlTagTexts(tags.items)
        case Err(e) => Err(e)
        case Ok(texts) => Ok(PreprocessCrawlTags(texts))
  }

  /** `process(video_info, resource)`, reduced to `process_tags(video_info["tags"])`. */
  function Process(info: Json, resource: Resource): Result<Record> {
    match Subscript(info, "tags")
    case Err(e) => Err(e)
    case Ok(tags) =>
      match ProcessTags(resource, tags)
      case Err(e) => Err(e)
      case Ok(processed) => Ok(Record(info, processed))
  }

  /**
   * `process` keeps the video object and replaces nothing but its tags; it
   * raises TypeError on a non-dict or on tags that are not a list, and
   * KeyError when the video has no tags.
   */
  lemma ProcessOutcome(info: Json, resource: Resource)
    ensures Process(info, resource).Ok? ==>
              info.Obj? && "tags" in info.fields && Process(info, resource).value.video == info
              && Ok(Process(info, resource).value.tags) == ProcessTags(resource, info.fields["tags"])
    ensures !info.Obj? ==> Process(info, resource) == Err(Raised("TypeError"))
    ensures info.Obj? && "tags" !in info.fields ==> Process(info, resource) == Err(Raised("KeyError"))
    ensures info.Obj? && "tags" in info.fields && !info.fields["tags"].Arr? ==>
              Process(info, resource) == Err(Raised("TypeError"))
  {
  }

  /** Tags that are the given strings are read as those strings. */
  lemma {:induction false} CrawlTagTextsOfStrings(tags: seq<Json>, names: seq<string>)
    requires |tags| == |names|
    requires forall i :: 0 <= i < |tags| ==> tags[i] == Str(names[i])
    ensures CrawlTagTexts(tags) == Ok(names)
    decreases |tags|
  {
    if tags != [] {
      CrawlTagTextsOfStrings(tags[1..], names[1..]);
      assert [names[0]] + names[1..] == names;
    }
  }

  /** The crawl resource normalises a list of tag strings. */
  lemma ProcessCrawlResource(info: map<string, Json>, tags: seq<Json>, names: seq<string>)
    requires |tags| == |names|
    requires forall i :: 0 <= i < |tags| ==> tags[i] == Str(names[i])
    ensures var video := Obj(info["tags" := Arr(tags)]);
            Process(video, VideoById) == Ok(Record(video, PreprocessCrawlTags(names)))
  {
    CrawlTagTextsOfStrings(tags, names);
  }

  /** The search resource reads the `tag_name` of each tag object, then normalises it as the crawl resource does. */
  lemma ProcessSearchResource(info: map<string, Json>, tags: seq<Json>, names: seq<string>)
    requires |tags| == |names|
    requires forall i :: 0 <= i < |tags| ==>
               tags[i].Obj? && "tag_name" in tags[i].fields && tags[i].fields["tag_name"] == Str(names[i])
    ensures var video := Obj(info["tags" := Arr(tags)]);
            Process(video, SearchVideos) == Ok(Record(video, PreprocessCrawlTags(names)))
  {
    TagNamesOfObjects(tags, names);
    SearchTagsAreCrawlTagsOfNames(tags);
  }

  // ---------------------------------------------------------------------
  // The filtering comprehensions

  /** `p.get("code") != 2002`. */
  function KeepPayload(p: Json): (r: Result<bool>)
    ensures r.Err? <==> !p.Obj?
    ensures p.Obj? ==> r == Ok(!IsMissingVideo(p))
  {
    match Get(p, "code", Null)
    case Err(e) => Err(e)
    case Ok(code) => Ok(code != Int(MissingVideoCode))
  }

  /** `process(p["video"], resource)`. */
  function ProcessVideo(p: Json, resource: Resource): Result<Record> {
    match Subscript(p, "video")
    case Err(e) => Err(e)
    case Ok(video) => Process(video, resource)
  }

  /**
   * `[process(p["video"], resource) for p in payloads if p.get("code") != 2002]`:
   * evaluated payload by payload, the first exception ending it.
   */
  function ProcessPayloads(payloads: seq<Json>, resource: Resource): (r: Result<seq<Record>>)
    ensures r.Ok? ==> |r.value| <= |payloads|
    decreases |payloads|
  {
    if payloads == [] then Ok([])
    else
      match KeepPayload(payloads[0])
      case Err(e) => Err(e)
      case Ok(keep) =>
        if !keep then ProcessPayloads(payloads[1..], resource)
        else
          match ProcessVideo(payloads[0], resource)
          case Err(e) => Err(e)
          case Ok(record) =>
            match ProcessPayloads(payloads[1..], resource)
            case Err(e) => Err(e)
            case Ok(rest) => Ok([record] + rest)
  }

  /** The payload is a dict whose `code` is 2002. */
  predicate IsMissingVideo(p: Json) {
    p.Obj? && "code" in p.fields && p.fields["code"] == Int(MissingVideoCode)
  }

  /** The payloads the filter keeps, in order (defined on dicts). */
  function Accepted(payloads: seq<Json>): (r: seq<Json>)
    ensures |r| <= |payloads|
    ensures forall i :: 0 <= i < |r| ==> !IsMissingVideo(r[i])
    decreases |payloads|
  {
    if payloads == [] then []
    else if IsMissingVideo(payloads[0]) then Accepted(payloads[1..])
    else [payloads[0]] + Accepted(payloads[1..])
  }

  /** `process(p["video"])` of each payload in turn, the first exception ending it. */
  function ProcessEach(payloads: seq<Json>, resource: Resource): (r: Result<seq<Record>>)
    ensures r.Ok? ==> |r.value| == |payloads|
    decreases |payloads|
  {
    if payloads == [] then Ok([])
    else
      match ProcessVideo(payloads[0], resource)
      case Err(e) => Err(e)
      case Ok(record) =>
        match ProcessEach(payloads[1..], resource)
        case Err(e) => Err(e)
        case Ok(rest) => Ok([record] + rest)
  }

  /**
   * On dict payloads the comprehension is a filter followed by a map: the
   * 2002 payloads are dropped, every other one is processed, in order.
   */
  lemma {:induction false} ProcessPayloadsIsFilterThenMap(payloads: seq<Json>, resource: Resource)
    requires forall i :: 0 <= i < |payloads| ==> payloads[i].Obj?
    ensures ProcessPayloads(payloads, resource) == ProcessEach(Accepted(payloads), resource)
    decreases |payloads|
  {
    if payloads != [] {
      ProcessPayloadsIsFilterThenMap(payloads[1..], resource);
      if !IsMissingVideo(payloads[0]) {
        assert ([payloads[0]] + Accepted(payloads[1..]))[1..] == Accepted(payloads[1..]);
      }
    }
  }

  /** Two results of the comprehension, one after the other (the first exception wins). */
  function Concat(a: Result<seq<Record>>, b: Result<seq<Record>>): Result<seq<Record>> {
    match a
    case Err(e) => Err(e)
    case Ok(x) =>
      match b
      case Err(e) => Err(e)
      case Ok(y) => Ok(x + y)
  }

  /** The comprehension over two lists of payloads is the comprehension over each, concatenated. */
  lemma {:induction false} ProcessPayloadsAppend(a: seq<Json>, b: seq<Json>, resource: Resource)
    ensures ProcessPayloads(a + b, resource) == Concat(ProcessPayloads(a, resource), ProcessPayloads(b, resource))
    decreases |a|
  {
    if a == [] {
      assert [] + b == b;
      match ProcessPayloads(b, resource)
      case Err(e) =>
      case Ok(y) => assert [] + y == y;
    } else {
      assert (a + b)[0] == a[0] && (a + b)[1..] == a[1..] + b;
      ProcessPayloadsAppend(a[1..], b, resource);
      match ProcessPayloads(a[1..], resource)
      case Err(e) =>
      case Ok(x) =>
        match ProcessPayloads(b, resource)
        case Err(e) =>
        case Ok(y) =>
          match ProcessVideo(a[0], resource)
          case Err(e) =>
          case Ok(record) => assert [record] + (x + y) == ([record] + x) + y;
    }
  }

  /**
   * `[process(r["video"]) for response in responses for r in response["videos"]
   * if r.get("code") != 2002]`; iterating anything but a list raises TypeError.
   */
  function ProcessResponses(responses: seq<Json>): (r: Result<seq<Record>>)
    decreases |responses|
  {
    if responses == [] then Ok([])
    else
      match Subscript(responses[0], "videos")
      case Err(e) => Err(e)
      case Ok(videos) =>
        if !videos.Arr? then Err(Raised("TypeError"))
        else Concat(ProcessPayloads(videos.items, SearchVideos), ProcessResponses(responses[1..]))
  }

  /** The `videos` lists of all responses, end to end, when every response has one. */
  function AllVideos(responses: seq<Json>): Option<seq<Json>>
    decreases |responses|
  {
    if responses == [] then Some([])
    else if !(responses[0].Obj? && "videos" in responses[0].fields && responses[0].fields["videos"].Arr?) then None
    else
      match AllVideos(responses[1..])
      case None => None
      case Some(rest) => Some(responses[0].fields["videos"].items + rest)
  }

  /** Search results are the payload comprehension over all the pages' videos, page after page. */
  lemma {:induction false} SearchIsProcessOfAllVideos(responses: seq<Json>)
    requires AllVideos(responses).Some?
    ensures ProcessResponses(responses) == ProcessPayloads(AllVideos(responses).value, SearchVideos)
    decreases |responses|
  {
    if responses != [] {
      SearchIsProcessOfAllVideos(responses[1..]);
      ProcessPayloadsAppend(responses[0].fields["videos"].items, AllVideos(responses[1..]).value, SearchVideos);
    }
  }

  /** `get_video`'s answer: the processed record, or the raw payload of a missing video. */
  datatype Fetched = Processed(record: Record) | RawPayload(payload: Json)

  /** The conditional expression of `get_video`. */
  function FetchResult(payload: Json): (r: Result<Fetched>)
    ensures r.Ok? && r.value.RawPayload? <==> IsMissingVideo(payload)
    ensures r.Ok? && r.value.RawPayload? ==> r.value.payload == payload
    ensures payload.Obj? && !IsMissingVideo(payload) ==>
              r == match ProcessVideo(payload, VideoById)
                   case Err(e) => Err(e)
                   case Ok(record) => Ok(Processed(record))
  {
    match KeepPayload(payload)
    case Err(e) => Err(e)
    case Ok(keep) =>
      if !keep then Ok(RawPayload(payload))
      else
        match ProcessVideo(payload, VideoById)
        case Err(e) => Err(e)
        case Ok(record) => Ok(Processed(record))
  }

  // ---------------------------------------------------------------------
  // Queries

  /** What `crawl` sends for one id: the base params, the by-id resource and the id text. */
  function CrawlQuery(thumbsize: string, id: VideoId): Query {
    BaseParams(thumbsize) + map["data" := Str(ResourceName(VideoById)), "video_id" := Str(id.id)]
  }

  /** The query `crawl` sends for each id. */
  function ByIdRequest(thumbsize: string): VideoId -> Query {
    id => CrawlQuery(thumbsize, id)
  }

  /** What `get_video` sends. */
  function VideoQuery(thumbsize: string, videoId: string): Query {
    BaseParams(thumbsize) + map["video_id" := Str(videoId), "data" := Str(ResourceName(VideoById))]
  }

  /** `search_params` before the loop: the client's params, the extra params, then the search resource. */
  function SearchBase(thumbsize: string, extra: Query): Query {
    BaseParams(thumbsize) + extra + map["data" := Str(ResourceName(SearchVideos))]
  }

  /** What `search` sends for one page. */
  function SearchQuery(thumbsize: string, extra: Query, page: int): Query {
    SearchBase(thumbsize, extra) + map["page" := Int(page)]
  }

  /** The query `search` sends for each page. */
  function SearchRequest(thumbsize: string, extra: Query): int -> Query {
    page => SearchQuery(thumbsize, extra, page)
  }

  /** `search_params` once `k` pages have been asked for: the base of the loop, then the last page's query. */
  function SearchParamsAfter(base: Query, request: int -> Query, k: nat): Query {
    if k == 0 then base else request(k)
  }

  /** `crawl_params` before the loop: the client's params, then the by-id resource. */
  function CrawlBase(thumbsize: string): Query {
    BaseParams(thumbsize) + map["data" := Str(ResourceName(VideoById))]
  }

  /** `crawl_params` once the id `last` (if any) has been asked for: the base of the loop, then the last id's query. */
  function CrawlParamsAfter(base: Query, request: VideoId -> Query, last: Option<VideoId>): Query {
    match last
    case None => base
    case Some(id) => request(id)
  }

  /** Setting a key twice keeps the second value. */
  lemma OverrideTwice(m: Query, k: string, v: Json, w: Json)
    ensures (m + map[k := v]) + map[k := w] == m + map[k := w]
  {
  }

  /** Defaults whose every key the request sets are overridden entirely. */
  lemma Overridden(defaults: Query, request: Query)
    requires defaults.Keys <= request.Keys
    ensures defaults + request == request
  {
  }

  /** `crawl` and `get_video` send the same query for the same id. */
  lemma CrawlAndGetVideoAgree(thumbsize: string, id: VideoId)
    ensures CrawlQuery(thumbsize, id) == VideoQuery(thumbsize, id.id)
  {
  }

  /** A search page names the search resource and its page, whatever the extra params hold. */
  lemma SearchQueryKeys(thumbsize: string, extra: Query, page: int)
    ensures SearchQuery(thumbsize, extra, page)["data"] == Str(ResourceName(SearchVideos))
    ensures SearchQuery(thumbsize, extra, page)["page"] == Int(page)
    ensures "output" !in extra ==> SearchQuery(thumbsize, extra, page)["output"] == Str("json")
  {
  }

  /** The payload the API answers a query with. */
  function Ask(client: Query -> Json, query: Query): Json {
    client(query)
  }

  /** The queries of pages 1 to n, in that order. */
  function Pages(request: int -> Query, n: nat): (qs: seq<Query>)
    ensures |qs| == n
  {
    if n == 0 then [] else Pages(request, n - 1) + [request(n)]
  }

  /** The i-th query asks for page i + 1. */
  lemma {:induction false} PagesAt(request: int -> Query, n: nat, i: nat)
    requires i < n
    ensures Pages(request, n)[i] == request(i + 1)
  {
    if i < n - 1 {
      PagesAt(request, n - 1, i);
    }
  }

  /** The client's answer to each query, in order. */
  function Answers(client: Query -> Json, queries: seq<Query>): (ps: seq<Json>)
    ensures |ps| == |queries|
  {
    if queries == [] then [] else Answers(client, queries[..|queries| - 1]) + [Ask(client, queries[|queries| - 1])]
  }

  /** The i-th payload is the client's answer to the i-th query. */
  lemma {:induction false} AnswersAt(client: Query -> Json, queries: seq<Query>, i: nat)
    requires i < |queries|
    ensures Answers(client, queries)[i] == Ask(client, queries[i])
  {
    var init := queries[..|queries| - 1];
    if i < |init| {
      AnswersAt(client, init, i);
    }
  }

  /**
   * One turn of `search`'s loop: `search_params` gains the page, and with the
   * client's defaults merged in it is the page's query.
   */
  lemma SearchParamsStep(thumbsize: string, extra: Query, page: nat, current: Query)
    requires page >= 1 && current == SearchParamsAfter(SearchBase(thumbsize, extra), SearchRequest(thumbsize, extra), page - 1)
    ensures current + map["page" := Int(page)] == SearchQuery(thumbsize, extra, page)
    ensures BaseParams(thumbsize) + (current + map["page" := Int(page)]) == SearchQuery(thumbsize, extra, page)
  {
    if page > 1 {
      OverrideTwice(SearchBase(thumbsize, extra), "page", Int(page - 1), Int(page));
    }
    Overridden(BaseParams(thumbsize), SearchQuery(thumbsize, extra, page));
  }

  /**
   * One turn of `crawl`'s loop: `crawl_params` gains the id, and with the
   * client's defaults merged in it is the id's query.
   */
  lemma CrawlParamsStep(thumbsize: string, current: Query, last: Option<VideoId>, id: VideoId)
    requires current == CrawlParamsAfter(CrawlBase(thumbsize), ByIdRequest(thumbsize), last)
    ensures current + map["video_id" := Str(id.id)] == CrawlQuery(thumbsize, id)
    ensures BaseParams(thumbsize) + CrawlQuery(thumbsize, id) == CrawlQuery(thumbsize, id)
  {
    if last.Some? {
      OverrideTwice(CrawlBase(thumbsize), "video_id", Str(last.value.id), Str(id.id));
    }
    Overridden(BaseParams(thumbsize), CrawlQuery(thumbsize, id));
  }

  /** Answering one more query appends its payload. */
  lemma AnswersStep(client: Query -> Json, queries: seq<Query>, query: Query)
    ensures Answers(client, queries + [query]) == Answers(client, queries) + [Ask(client, query)]
  {
    assert (queries + [query])[..|queries|] == queries;
  }

  // ---------------------------------------------------------------------
  // The callback chain of `get`

  /** The patience stoppers among the callbacks. */
  function PatienceStoppers(cbs: seq<Callback>): set<FailurePatienceStopper> {
    set i | 0 <= i < |cbs| && cbs[i].Patience? :: cbs[i].stopper
  }

  /** A counter for every patience stopper of the chain. */
  predicate Tracks(cbs: seq<Callback>, counters: map<FailurePatienceStopper, int>) {
    forall i :: 0 <= i < |cbs| && cbs[i].Patience? ==> cbs[i].stopper in counters
  }

  /** What the callbacks have done so far, and the patience counters. */
  datatype ChainState = ChainState(outcome: Outcome, counters: map<FailurePatienceStopper, int>)

  /** One callback's `after_response`, on the counters. */
  function Apply(cb: Callback, counters: map<FailurePatienceStopper, int>, payload: Json): (st: ChainState)
    requires cb.Patience? ==> cb.stopper in counters
    ensures st.counters.Keys == counters.Keys
  {
    if cb.Patience? then
      var (o, m) := PatienceStep(cb.stopper.patience, counters[cb.stopper], payload);
      ChainState(o, counters[cb.stopper := m])
    else ChainState(StatelessCheck(cb, payload), counters)
  }

  /**
   * The loop of `get` over the callbacks, in list order, each once: the
   * first exception ends it, and later callbacks do not run.
   */
  function RunChain(cbs: seq<Callback>, counters: map<FailurePatienceStopper, int>, payload: Json): (st: ChainState)
    requires Tracks(cbs, counters)
    ensures st.counters.Keys == counters.Keys
    decreases |cbs|
  {
    if cbs == [] then ChainState(Pass, counters)
    else
      var before := RunChain(cbs[..|cbs| - 1], counters, payload);
      if before.outcome.Fail? then before
      else Apply(cbs[|cbs| - 1], before.counters, payload)
  }

  /** Once a callback raises, the callbacks after it change nothing. */
  lemma {:induction false} ChainStopIsFinal(cbs: seq<Callback>, counters: map<FailurePatienceStopper, int>, payload: Json, k: nat)
    requires Tracks(cbs, counters) && k <= |cbs|
    requires RunChain(cbs[..k], counters, payload).outcome.Fail?
    ensures RunChain(cbs, counters, payload) == RunChain(cbs[..k], counters, payload)
    decreases |cbs|
  {
    if k < |cbs| {
      var init := cbs[..|cbs| - 1];
      assert init[..k] == cbs[..k];
      ChainStopIsFinal(init, counters, payload, k);
    } else {
      assert cbs[..k] == cbs;
    }
  }

  /** The callbacks hold no patience stopper. */
  predicate Stateless(cbs: seq<Callback>) {
    forall i :: 0 <= i < |cbs| ==> !cbs[i].Patience?
  }

  /**
   * Without patience stoppers the chain changes no counter, and lets the
   * response through exactly when every check passes.
   */
  lemma {:induction false} StatelessChainPasses(cbs: seq<Callback>, counters: map<FailurePatienceStopper, int>, payload: Json)
    requires Stateless(cbs)
    ensures RunChain(cbs, counters, payload).counters == counters
    ensures RunChain(cbs, counters, payload).outcome.Pass?
            <==> forall i :: 0 <= i < |cbs| ==> StatelessCheck(cbs[i], payload) == Pass
    decreases |cbs|
  {
    if cbs != [] {
      var init := cbs[..|cbs| - 1];
      StatelessChainPasses(init, counters, payload);
      assert forall i :: 0 <= i < |init| ==> init[i] == cbs[i];
    }
  }

  /** Without patience stoppers, a chain that raises raises what its first failing check raises. */
  lemma {:induction false} StatelessChainFirstFailure(cbs: seq<Callback>, counters: map<FailurePatienceStopper, int>, payload: Json)
    requires Stateless(cbs)
    requires RunChain(cbs, counters, payload).outcome.Fail?
    ensures exists k :: 0 <= k < |cbs| && RunChain(cbs, counters, payload).outcome == StatelessCheck(cbs[k], payload)
                        && forall j :: 0 <= j < k ==> StatelessCheck(cbs[j], payload) == Pass
    decreases |cbs|
  {
    var init := cbs[..|cbs| - 1];
    var before := RunChain(init, counters, payload);
    if before.outcome.Pass? {
      StatelessChainPasses(init, counters, payload);
      var k := |cbs| - 1;
      assert forall j :: 0 <= j < k ==> init[j] == cbs[j];
      assert RunChain(cbs, counters, payload).outcome == StatelessCheck(cbs[k], payload);
    } else {
      StatelessChainFirstFailure(init, counters, payload);
      var k :| 0 <= k < |init| && before.outcome == StatelessCheck(init[k], payload)
               && forall j :: 0 <= j < k ==> StatelessCheck(init[j], payload) == Pass;
      assert forall j :: 0 <= j <= k ==> init[j] == cbs[j];
      assert RunChain(cbs, counters, payload).outcome == StatelessCheck(cbs[k], payload);
    }
  }

  /**
   * The command line's chain: rate limit, patience, time range. A rate-limit
   * payload stops at the first callback, so the patience counter is left
   * as it was.
   */
  lemma CommandLineChainRateLimitFirst(s: FailurePatienceStopper, range: TimeRangeStopper, c: int, fields: map<string, Json>)
    requires "code" in fields && fields["code"] == Int(TooManyRequestsCode)
    ensures var cbs := [TooManyRequest, Patience(s), TimeRange(range)];
            var st := RunChain(cbs, map[s := c], Obj(fields));
            st.outcome.Fail? && st.outcome.error.StopCrawl? && st.counters == map[s := c]
  {
    var cbs := [TooManyRequest, Patience(s), TimeRange(range)];
    assert cbs[..1] == [TooManyRequest];
    assert [TooManyRequest][..0] == [];
    ChainStopIsFinal(cbs, map[s := c], Obj(fields), 1);
  }

  // ---------------------------------------------------------------------
  // The crawl loop, as a specification

  /** How the crawl loop ended: still running, stopped by StopCrawlException, or another exception. */
  datatype Status = Running | Stopped | Crashed(error: Exception)

  /** How many ids were requested, the payloads kept and the counters, after some ids. */
  datatype CrawlState = CrawlState(
    requested: nat,
    payloads: seq<Json>,
    counters: map<FailurePatienceStopper, int>,
    status: Status)

  /**
   * One turn of `crawl`'s loop on a generated id: nothing once the loop has
   * ended; otherwise one request, kept when every callback lets it through,
   * and a stop or a crash when one raises.
   */
  function CrawlStep(cbs: seq<Callback>, client: Query -> Json, request: VideoId -> Query,
                     before: CrawlState, id: VideoId): (st: CrawlState)
    requires Tracks(cbs, before.counters)
    ensures st.counters.Keys == before.counters.Keys
  {
    if !before.status.Running? then before
    else
      var payload := Ask(client, request(id));
      var chain := RunChain(cbs, before.counters, payload);
      match chain.outcome
      case Pass => CrawlState(before.requested + 1, before.payloads + [payload], chain.counters, Running)
      case Fail(e) =>
        CrawlState(before.requested + 1, before.payloads, chain.counters, if e.StopCrawl? then Stopped else Crashed(e))
  }

  /**
   * The loop of `crawl` over the ids, one request per id: a response that
   * passes every callback is kept; StopCrawlException ends the loop without
   * keeping its response; any other exception leaves `crawl` altogether.
   */
  function CrawlRun(cbs: seq<Callback>, client: Query -> Json, request: VideoId -> Query,
                    ids: seq<VideoId>, counters: map<FailurePatienceStopper, int>): (st: CrawlState)
    requires Tracks(cbs, counters)
    ensures st.counters.Keys == counters.Keys
    decreases |ids|
  {
    if ids == [] then CrawlState(0, [], counters, Running)
    else CrawlStep(cbs, client, request, CrawlRun(cbs, client, request, ids[..|ids| - 1], counters), ids[|ids| - 1])
  }

  /** The crawl over one more id takes one more turn of the loop. */
  lemma CrawlRunSnoc(cbs: seq<Callback>, client: Query -> Json, request: VideoId -> Query,
                     ids: seq<VideoId>, id: VideoId, counters: map<FailurePatienceStopper, int>)
    requires Tracks(cbs, counters)
    ensures CrawlRun(cbs, client, request, ids + [id], counters)
         == CrawlStep(cbs, client, request, CrawlRun(cbs, client, request, ids, counters), id)
  {
    assert (ids + [id])[..|ids|] == ids;
  }

  /** One more id, while the loop runs: one more request, whose payload goes through the chain. */
  lemma CrawlTurn(cbs: seq<Callback>, client: Query -> Json, request: VideoId -> Query,
                  ids: seq<VideoId>, id: VideoId, counters: map<FailurePatienceStopper, int>)
    requires Tracks(cbs, counters)
    requires CrawlRun(cbs, client, request, ids, counters).status.Running?
    ensures var before := CrawlRun(cbs, client, request, ids, counters);
            var after := CrawlRun(cbs, client, request, ids + [id], counters);
            var payload := Ask(client, request(id));
            var chain := RunChain(cbs, before.counters, payload);
            after.requested == before.requested + 1
            && after.counters == chain.counters
            && (chain.outcome.Pass? ==> after.status.Running? && after.payloads == before.payloads + [payload])
            && (chain.outcome.Fail? ==>
                  after.payloads == before.payloads
                  && after.status == if chain.outcome.error.StopCrawl? then Stopped else Crashed(chain.outcome.error))
  {
    CrawlRunSnoc(cbs, client, request, ids, id, counters);
  }

  /** The query of each id, in order. */
  function Requests(request: VideoId -> Query, ids: seq<VideoId>): (qs: seq<Query>)
    ensures |qs| == |ids|
  {
    if ids == [] then [] else Requests(request, ids[..|ids| - 1]) + [request(ids[|ids| - 1])]
  }

  /** The i-th query asks for the i-th id. */
  lemma {:induction false} RequestsAt(request: VideoId -> Query, ids: seq<VideoId>, i: nat)
    requires i < |ids|
    ensures Requests(request, ids)[i] == request(ids[i])
  {
    var init := ids[..|ids| - 1];
    if i < |init| {
      RequestsAt(request, init, i);
    }
  }

  /** Asking for one more id appends its query. */
  lemma RequestsSnoc(request: VideoId -> Query, ids: seq<VideoId>, id: VideoId)
    ensures Requests(request, ids + [id]) == Requests(request, ids) + [request(id)]
  {
    assert (ids + [id])[..|ids|] == ids;
  }

  /**
   * The ids are requested in generator order, a prefix of them; a response
   * is kept only while the loop runs, so a stop or a crash keeps every
   * response but the last.
   */
  lemma {:induction false} CrawlRunLengths(cbs: seq<Callback>, client: Query -> Json, request: VideoId -> Query,
                                           ids: seq<VideoId>, counters: map<FailurePatienceStopper, int>)
    requires Tracks(cbs, counters)
    ensures var st := CrawlRun(cbs, client, request, ids, counters);
            st.requested <= |ids|
            && (st.status.Running? ==> st.requested == |ids| && |st.payloads| == st.requested)
            && (!st.status.Running? ==> st.requested > 0 && |st.payloads| == st.requested - 1)
    decreases |ids|
  {
    if ids != [] {
      var init := ids[..|ids| - 1];
      CrawlRunLengths(cbs, client, request, init, counters);
      CrawlStepShape(cbs, client, request, CrawlRun(cbs, client, request, init, counters), ids[|ids| - 1]);
    }
  }

  /** The i-th kept payload is the client's answer to the query of the i-th id. */
  lemma {:induction false} CrawlRunPayloads(cbs: seq<Callback>, client: Query -> Json, request: VideoId -> Query,
                                            ids: seq<VideoId>, counters: map<FailurePatienceStopper, int>, i: nat)
    requires Tracks(cbs, counters)
    requires i < |CrawlRun(cbs, client, request, ids, counters).payloads|
    ensures i < |ids|
    ensures CrawlRun(cbs, client, request, ids, counters).payloads[i] == Ask(client, request(ids[i]))
    decreases |ids|
  {
    CrawlRunLengths(cbs, client, request, ids, counters);
    var init := ids[..|ids| - 1];
    var before := CrawlRun(cbs, client, request, init, counters);
    CrawlRunLengths(cbs, client, request, init, counters);
    CrawlStepShape(cbs, client, request, before, ids[|ids| - 1]);
    if i < |before.payloads| {
      CrawlRunPayloads(cbs, client, request, init, counters, i);
      assert init[i] == ids[i];
    }
  }

  /** One turn requests one more id while the loop runs, and keeps its payload only if the loop goes on. */
  lemma CrawlStepShape(cbs: seq<Callback>, client: Query -> Json, request: VideoId -> Query,
                       before: CrawlState, id: VideoId)
    requires Tracks(cbs, before.counters)
    ensures var st := CrawlStep(cbs, client, request, before, id);
            (!before.status.Running? ==> st == before)
            && (before.status.Running? ==>
                  st.requested == before.requested + 1
                  && (st.status.Running? ==> st.payloads == before.payloads + [Ask(client, request(id))])
                  && (!st.status.Running? ==> st.payloads == before.payloads))
  {
  }

  /** After a stop or a crash no further id is requested: later ids change nothing. */
  lemma {:induction false} CrawlStopIsFinal(cbs: seq<Callback>, client: Query -> Json, request: VideoId -> Query,
                                            ids: seq<VideoId>, counters: map<FailurePatienceStopper, int>, k: nat)
    requires Tracks(cbs, counters) && k <= |ids|
    requires !CrawlRun(cbs, client, request, ids[..k], counters).status.Running?
    ensures CrawlRun(cbs, client, request, ids, counters) == CrawlRun(cbs, client, request, ids[..k], counters)
    decreases |ids|
  {
    if k < |ids| {
      var init := ids[..|ids| - 1];
      assert init[..k] == ids[..k];
      CrawlStopIsFinal(cbs, client, request, init, counters, k);
    } else {
      assert ids[..k] == ids;
    }
  }

  /** The ids a limited generator will give from its current state, or None if its first call raises. */
  function PendingIds(order: Order, seedValue: Result<int>, limit: Option<int>, count: nat): (r: Option<seq<VideoId>>)
    requires Limited(limit)
    ensures r.None? <==> NextStep(order, seedValue, limit, count).step.Failed?
    ensures r.Some? ==> |r.value| == if limit.value > count then limit.value - count else 0
  {
    if IsExhausted(limit, count) then Some([])
    else
      match seedValue
      case Err(_) => None
      case Ok(v) => Some(Remaining(order, v, limit, count))
  }

  /**
   * The call to `__next__` after n of the pending ids: the generator ends
   * exactly after all of them, raises only when there are none to give, and
   * otherwise gives the next one.
   */
  lemma PendingIdsNext(order: Order, seedValue: Result<int>, limit: Option<int>, count: nat, n: nat)
    requires Limited(limit)
    requires PendingIds(order, seedValue, limit, count).None? ==> n == 0
    requires PendingIds(order, seedValue, limit, count).Some? ==> n <= |PendingIds(order, seedValue, limit, count).value|
    ensures var pending := PendingIds(order, seedValue, limit, count);
            var a := NextStep(order, seedValue, limit, count + n);
            (a.step.Exhausted? ==> pending.Some? && n == |pending.value|)
            && (a.step.Failed? ==> pending.None?)
            && (a.step.Yield? ==> pending.Some? && n < |pending.value| && a.step.id == pending.value[n] && a.count == count + n + 1)
  {
  }

  /** `__next__` on a limited generator after n of the ids it was to give from count c0. */
  method NextPending(gen: VideoIdGenerator, ghost c0: nat, ghost n: nat) returns (step: Step)
    requires Limited(gen.limit) && gen.count == c0 + n
    requires PendingIds(gen.order, NumericalValue(gen.seed), gen.limit, c0).None? ==> n == 0
    requires PendingIds(gen.order, NumericalValue(gen.seed), gen.limit, c0).Some? ==>
               n <= |PendingIds(gen.order, NumericalValue(gen.seed), gen.limit, c0).value|
    modifies gen`count
    ensures var pending := PendingIds(gen.order, NumericalValue(gen.seed), gen.limit, c0);
            (step.Exhausted? ==> pending.Some? && n == |pending.value| && gen.count == old(gen.count))
            && (step.Failed? ==>
                  pending.None? && Advance(step, gen.count) == NextStep(gen.order, NumericalValue(gen.seed), gen.limit, c0))
            && (step.Yield? ==>
                  pending.Some? && n < |pending.value| && step.id == pending.value[n] && gen.count == old(gen.count) + 1)
  {
    step := gen.Next();
    PendingIdsNext(gen.order, NumericalValue(gen.seed), gen.limit, c0, n);
  }

  /**
   * `crawl` keeps at most one payload per request and sends at most one
   * request per id the generator still had to give.
   */
  lemma CrawlCounts(cbs: seq<Callback>, client: Query -> Json, request: VideoId -> Query,
                    ids: seq<VideoId>, counters: map<FailurePatienceStopper, int>)
    requires Tracks(cbs, counters)
    ensures var st := CrawlRun(cbs, client, request, ids, counters);
            |st.payloads| <= st.requested <= |ids|
            && (ProcessPayloads(st.payloads, VideoById).Ok? ==> |ProcessPayloads(st.payloads, VideoById).value| <= |st.payloads|)
  {
    CrawlRunLengths(cbs, client, request, ids, counters);
  }

  // ---------------------------------------------------------------------
  // The crawler

  /** Crawler: its callbacks, its thumbnail size and the HTTP client. */
  class Crawler {
    const callbacks: seq<Callback>
    const thumbsize: string
    const params: Query := BaseParams(thumbsize)
    const client: Query -> Json
    /** Every query sent so far, in order. */
    ghost var sent: seq<Query>

    constructor (client: Query -> Json, callbacks: seq<Callback> := [], thumbsize: string := "big")
      ensures this.callbacks == callbacks && this.thumbsize == thumbsize && this.client == client
      ensures sent == []
    {
      this.callbacks := callbacks;
      this.thumbsize := thumbsize;
      this.client := client;
      sent := [];
    }

    /** The counter of every patience stopper among the callbacks. */
    ghost function Counters(): (c: map<FailurePatienceStopper, int>)
      reads PatienceStoppers(callbacks)
      ensures c.Keys == PatienceStoppers(callbacks)
      ensures Tracks(callbacks, c)
    {
      map s | s in PatienceStoppers(callbacks) :: s.consecutiveMissing
    }

    /** One callback's `after_response`, seen on the counters of all the patience stoppers. */
    method Notify(cb: Callback, payload: Json) returns (o: Outcome)
      requires cb.Patience? ==> cb.stopper in PatienceStoppers(callbacks)
      modifies PatienceStoppers(callbacks)
      ensures ChainState(o, Counters()) == Apply(cb, old(Counters()), payload)
    {
      o := AfterResponse(cb, payload);
    }

    /**
     * `get`: one request, then every callback in list order; the first
     * exception propagates and the response is not returned.
     */
    method Get(request: Query) returns (r: Result<Json>)
      modifies this`sent, PatienceStoppers(callbacks)
      ensures sent == old(sent) + [params + request]
      ensures var payload := Ask(client, params + request);
              var st := RunChain(callbacks, old(Counters()), payload);
              Counters() == st.counters
              && r == if st.outcome.Fail? then Err(st.outcome.error) else Ok(payload)
    {
      var query := params + request;
      var payload := Ask(client, query);
      sent := sent + [query];
      ghost var start := Counters();
      var i := 0;
      while i < |callbacks|
        invariant 0 <= i <= |callbacks|
        invariant sent == old(sent) + [query]
        invariant start == old(Counters())
        invariant RunChain(callbacks[..i], start, payload) == ChainState(Pass, Counters())
      {
        assert callbacks[..i + 1][..i] == callbacks[..i];
        var o := Notify(callbacks[i], payload);
        if o.Fail? {
          ChainStopIsFinal(callbacks, start, payload, i + 1);
          return Err(o.error);
        }
        i := i + 1;
      }
      assert callbacks[..i] == callbacks;
      r := Ok(payload);
    }

    /** The body of `crawl`'s loop up to the callbacks: `crawl_params` gains the id, then `get`. */
    method Fetch(crawlParams: Query, ghost last: Option<VideoId>, id: VideoId) returns (next: Query, r: Result<Json>)
      requires crawlParams == CrawlParamsAfter(CrawlBase(thumbsize), ByIdRequest(thumbsize), last)
      modifies this`sent, PatienceStoppers(callbacks)
      ensures next == ByIdRequest(thumbsize)(id)
      ensures sent == old(sent) + [ByIdRequest(thumbsize)(id)]
      ensures var payload := Ask(client, ByIdRequest(thumbsize)(id));
              var st := RunChain(callbacks, old(Counters()), payload);
              Counters() == st.counters
              && r == if st.outcome.Fail? then Err(st.outcome.error) else Ok(payload)
    {
      CrawlParamsStep(thumbsize, crawlParams, last, id);
      next := crawlParams + map["video_id" := Str(id.id)];
      assert ByIdRequest(thumbsize)(id) == next == params + next;
      r := Get(next);
    }

    /**
     * The request of `crawl`'s loop for the (n+1)-th pending id, seen on the
     * crawl specification: one more query is sent, and the run takes one more turn.
     */
    method Request(crawlParams: Query, id: VideoId, ghost all: seq<VideoId>, ghost n: nat,
                   ghost start: map<FailurePatienceStopper, int>, ghost sent0: seq<Query>) returns (next: Query, r: Result<Json>)
      requires n < |all| && id == all[n] && Tracks(callbacks, start)
      requires crawlParams == CrawlParamsAfter(CrawlBase(thumbsize), ByIdRequest(thumbsize), if n == 0 then None else Some(all[n - 1]))
      requires sent == sent0 + Requests(ByIdRequest(thumbsize), all[..n])
      requires var st := CrawlRun(callbacks, client, ByIdRequest(thumbsize), all[..n], start);
               st.status.Running? && st.requested == n && Counters() == st.counters
      modifies this`sent, PatienceStoppers(callbacks)
      ensures next == ByIdRequest(thumbsize)(all[n])
      ensures sent == sent0 + Requests(ByIdRequest(thumbsize), all[..n + 1])
      ensures var before := CrawlRun(callbacks, client, ByIdRequest(thumbsize), all[..n], start);
              var st := CrawlRun(callbacks, client, ByIdRequest(thumbsize), all[..n + 1], start);
              st.requested == n + 1 && Counters() == st.counters
              && (r.Ok? ==> st.status.Running? && st.payloads == before.payloads + [r.value])
              && (r.Err? ==>
                    st.payloads == before.payloads
                    && st.status == if r.error.StopCrawl? then Stopped else Crashed(r.error))
    {
      ghost var request := ByIdRequest(thumbsize);
      assert all[..n + 1] == all[..n] + [all[n]];
      CrawlTurn(callbacks, client, request, all[..n], id, start);
      RequestsSnoc(request, all[..n], id);
      assert (sent0 + Requests(request, all[..n])) + [request(id)] == sent0 + (Requests(request, all[..n]) + [request(id)]);
      next, r := Fetch(crawlParams, if n == 0 then None else Some(all[n - 1]), id);
    }

    /**
     * `crawl`: one request per generated id, in order, until the generator
     * is exhausted or a callback raises StopCrawlException; then the kept
     * payloads, without the 2002 ones, processed with the by-id resource.
     */
    method Crawl(gen: VideoIdGenerator) returns (r: Result<seq<Record>>)
      requires Limited(gen.limit)
      modifies this`sent, gen`count, PatienceStoppers(callbacks)
      ensures var pending := PendingIds(gen.order, NumericalValue(gen.seed), gen.limit, old(gen.count));
              var first := NextStep(gen.order, NumericalValue(gen.seed), gen.limit, old(gen.count));
              pending.None? ==>
                r == Err(first.step.error) && gen.count == first.count
                && sent == old(sent) && Counters() == old(Counters())
      ensures var pending := PendingIds(gen.order, NumericalValue(gen.seed), gen.limit, old(gen.count));
              pending.Some? ==>
                var st := CrawlRun(callbacks, client, ByIdRequest(thumbsize), pending.value, old(Counters()));
                st.requested <= |pending.value|
                && sent == old(sent) + Requests(ByIdRequest(thumbsize), pending.value[..st.requested])
                && Counters() == st.counters
                && gen.count == old(gen.count) + st.requested
                && r == if st.status.Crashed? then Err(st.status.error) else ProcessPayloads(st.payloads, VideoById)
    {
      ghost var pending := PendingIds(gen.order, NumericalValue(gen.seed), gen.limit, gen.count);
      ghost var all := if pending.Some? then pending.value else [];
      ghost var start := Counters();
      ghost var request := ByIdRequest(thumbsize);
      var crawlParams := params + map["data" := Str(ResourceName(VideoById))];
      ghost var base := CrawlBase(thumbsize);
      assert crawlParams == base;
      var payloads: seq<Json> := [];
      ghost var n := 0;
      while true
        invariant gen.count == old(gen.count) + n
        invariant pending.None? ==> n == 0 && sent == old(sent) && Counters() == start
        invariant n <= |all|
        invariant sent == old(sent) + Requests(request, all[..n])
        invariant crawlParams == CrawlParamsAfter(base, request, if n == 0 then None else Some(all[n - 1]))
        invariant var st := CrawlRun(callbacks, client, request, all[..n], start);
                  st.status.Running? && st.requested == n
                  && payloads == st.payloads && Counters() == st.counters
        decreases gen.limit.value - gen.count
      {
        var step := NextPending(gen, old(gen.count), n);
        if step.Exhausted? {
          assert all[..n] == all;
          assert Counters() == CrawlRun(callbacks, client, request, all[..n], start).counters;
          break;
        }
        if step.Failed? {
          return Err(step.error);
        }
        var response;
        crawlParams, response := Request(crawlParams, step.id, all, n, start, old(sent));
        n := n + 1;
        if response.Err? {
          CrawlStopIsFinal(callbacks, client, request, all, start, n);
          if response.error.StopCrawl? {
            assert Counters() == CrawlRun(callbacks, client, request, all[..n], start).counters;
            break;
          }
          return Err(response.error);
        }
        payloads := payloads + [response.value];
      }
      ghost var st := CrawlRun(callbacks, client, request, all[..n], start);
      assert CrawlRun(callbacks, client, request, all, start) == st;
      assert st.requested == n && payloads == st.payloads && Counters() == st.counters;
      r := ProcessPayloads(payloads, VideoById);
    }

    /** The body of `search`'s loop: `search_params` gains the page, and the query goes straight to the client. */
    method SearchPage(searchParams: Query, extra: Query, page: nat, ghost sent0: seq<Query>) returns (next: Query, response: Json)
      requires page >= 1
      requires searchParams == SearchParamsAfter(SearchBase(thumbsize, extra), SearchRequest(thumbsize, extra), page - 1)
      requires sent == sent0 + Pages(SearchRequest(thumbsize, extra), page - 1)
      modifies this`sent
      ensures next == SearchRequest(thumbsize, extra)(page)
      ensures sent == sent0 + Pages(SearchRequest(thumbsize, extra), page)
      ensures Answers(client, Pages(SearchRequest(thumbsize, extra), page))
              == Answers(client, Pages(SearchRequest(thumbsize, extra), page - 1)) + [response]
    {
      var request := SearchRequest(thumbsize, extra);
      AnswersStep(client, Pages(request, page - 1), request(page));
      SearchParamsStep(thumbsize, extra, page, searchParams);
      assert (sent0 + Pages(request, page - 1)) + [request(page)] == sent0 + (Pages(request, page - 1) + [request(page)]);
      next := searchParams + map["page" := Int(page)];
      var query := params + next;
      response := Ask(client, query);
      sent := sent + [query];
    }

    /**
     * `search`: pages 1 to `nPages` in increasing order, straight through
     * the client (no callbacks), then the records of every page whose own
     * code is not 2002, processed with the search resource.
     */
    method Search(nPages: int := 1, extra: Query := map[]) returns (r: Result<seq<Record>>)
      modifies this`sent
      ensures var queries := Pages(SearchRequest(thumbsize, extra), if nPages > 0 then nPages else 0);
              sent == old(sent) + queries && r == ProcessResponses(Answers(client, queries))
    {
      var searchParams := params + extra + map["data" := Str(ResourceName(SearchVideos))];
      ghost var request := SearchRequest(thumbsize, extra);
      ghost var base := SearchBase(thumbsize, extra);
      assert searchParams == base;
      var responses: seq<Json> := [];
      var page: nat := 1;
      while page <= nPages
        invariant 1 <= page && page - 1 <= (if nPages > 0 then nPages else 0)
        invariant sent == old(sent) + Pages(request, page - 1)
        invariant responses == Answers(client, Pages(request, page - 1))
        invariant searchParams == SearchParamsAfter(base, request, page - 1)
      {
        var response;
        searchParams, response := SearchPage(searchParams, extra, page, old(sent));
        responses := responses + [response];
        page := page + 1;
      }
      r := ProcessResponses(responses);
    }

    /**
     * `get_video`: one request through the callbacks; the raw payload when
     * its code is 2002, the processed record otherwise.
     */
    method GetVideo(videoId: string) returns (r: Result<Fetched>)
      modifies this`sent, PatienceStoppers(callbacks)
      ensures var query := VideoQuery(thumbsize, videoId);
              var st := RunChain(callbacks, old(Counters()), Ask(client, query));
              sent == old(sent) + [query]
              && Counters() == st.counters
              && r == if st.outcome.Fail? then Err(st.outcome.error) else FetchResult(Ask(client, query))
    {
      var request := map["video_id" := Str(videoId), "data" := Str(ResourceName(VideoById))];
      assert params + request == VideoQuery(thumbsize, videoId);
      var response := Get(request);
      if response.Err? {
        return Err(response.error);
      }
      r := FetchResult(response.value);
    }
  }
}
