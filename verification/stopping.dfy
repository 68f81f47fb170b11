/**
 * The stopping callbacks. After each response, a callback inspects the
 * decoded payload and either lets the crawl go on or raises
 * StopCrawlException with a message. Timestamps are integers (instants on a
 * common scale). Each callback's own `response.json()` call is the payload
 * it is handed.
 */
module Stopping {
  import opened Builtins
  import opened Utils

  /** `raise StopCrawlException(msg)` with a text message. */
  function Stop(msg: string): Outcome {
    Fail(StopCrawl(Str(msg)))
  }

  // ---------------------------------------------------------------------
  // TooManyRequestStopper

  /** The error code the API answers with when requests come too fast. */
  const TooManyRequestsCode := 1005

  /** `TooManyRequestStopper.after_response`. */
  function TooManyRequestCheck(payload: Json): (o: Outcome)
    ensures !payload.Obj? ==> o == Fail(Raised("AttributeError"))
    ensures payload.Obj? ==>
              (o.Fail? <==> "code" in payload.fields && payload.fields["code"] == Int(TooManyRequestsCode))
    ensures payload.Obj? && o.Fail? ==>
              o.error == StopCrawl(if "message" in payload.fields then payload.fields["message"]
                                   else Str("Too many requests."))
  {
    match Get(payload, "code", Null)
    case Err(e) => Fail(e)
    case Ok(code) =>
      if code == Int(TooManyRequestsCode) then
        match Get(payload, "message", Str("Too many requests."))
        case Err(e) => Fail(e)
        case Ok(msg) => Fail(StopCrawl(msg))
      else Pass
  }

  // ---------------------------------------------------------------------
  // PublicationTimeRangeStopper

  /**
   * The bounds of a PublicationTimeRangeStopper, with `pendulum.parse` (a
   * timestamp, or the exception it raises) and `to_iso8601_string` as
   * functions the caller supplies.
   */
  datatype TimeRangeStopper = TimeRangeStopper(
    start: Option<int>,
    end: Option<int>,
    parse: Json -> Result<int>,
    iso: int -> string)

  /** The publication date lies in [start, end), a missing bound imposing nothing. */
  predicate InRange(start: Option<int>, end: Option<int>, t: int) {
    (start.None? || start.value <= t) && (end.None? || t < end.value)
  }

  /** `PublicationTimeRangeStopper.after_response`. */
  function TimeRangeCheck(s: TimeRangeStopper, payload: Json): (o: Outcome)
    ensures Nested(payload, ["video", "publish_date"], Null).Err? ==>
              o == Fail(Nested(payload, ["video", "publish_date"], Null).error)
    ensures Nested(payload, ["video", "publish_date"], Null).Ok? ==>
              var date := Nested(payload, ["video", "publish_date"], Null).value;
              (!Truthy(date) ==> o == Pass)
              && (Truthy(date) && s.parse(date).Err? ==> o == Fail(s.parse(date).error))
              && (Truthy(date) && s.parse(date).Ok? ==>
                    (o == Pass <==> InRange(s.start, s.end, s.parse(date).value))
                    && (o.Fail? ==> o.error.StopCrawl?))
  {
    match Nested(payload, ["video", "publish_date"], Null)
    case Err(e) => Fail(e)
    case Ok(date) =>
      if !Truthy(date) then Pass
      else
        match s.parse(date)
        case Err(e) => Fail(e)
        case Ok(t) =>
          if s.start.Some? && t < s.start.value then
            Stop("Publish date is prior to start_datetime: " + s.iso(t) + " < " + s.iso(s.start.value))
          else if s.end.Some? && t >= s.end.value then
            Stop("Publish date is subsequent to end_datetime: " + s.iso(t) + " >= " + s.iso(s.end.value))
          else Pass
  }

  /** The payload shape the time-range stopper reads its date from. */
  function DatedPayload(date: string): Json {
    Obj(map["video" := Obj(map["publish_date" := Str(date)])])
  }

  /**
   * For a present date, the start bound is checked first: a date before the
   * start stops with the "prior" message even when it is also past the end;
   * otherwise a date at or after the end stops with the "subsequent" message.
   */
  lemma TimeRangeMessages(s: TimeRangeStopper, date: string)
    requires date != "" && s.parse(Str(date)).Ok?
    ensures var t := s.parse(Str(date)).value;
            TimeRangeCheck(s, DatedPayload(date))
            == if s.start.Some? && t < s.start.value then
                 Stop("Publish date is prior to start_datetime: " + s.iso(t) + " < " + s.iso(s.start.value))
               else if s.end.Some? && t >= s.end.value then
                 Stop("Publish date is subsequent to end_datetime: " + s.iso(t) + " >= " + s.iso(s.end.value))
               else Pass
  {
    assert Nested(DatedPayload(date), ["video", "publish_date"], Null) == Ok(Str(date));
  }

  /**
   * A dict payload without a `video`, or whose `video` dict has no
   * `publish_date` or a falsy one, never stops the crawl.
   */
  lemma TimeRangeIgnoresMissingDate(s: TimeRangeStopper, payload: Json)
    requires payload.Obj?
    requires "video" !in payload.fields
             || (payload.fields["video"].Obj?
                 && ("publish_date" !in payload.fields["video"].fields
                     || !Truthy(payload.fields["video"].fields["publish_date"])))
    ensures TimeRangeCheck(s, payload) == Pass
  {
    var keys := ["video", "publish_date"];
    if "video" !in payload.fields {
      NestedMissingKey(payload, keys, 0, Null);
    } else if "publish_date" !in payload.fields["video"].fields {
      assert keys[..1] == ["video"];
      NestedMissingKey(payload, keys, 1, Null);
    }
  }

  // ---------------------------------------------------------------------
  // FailurePatienceStopper

  /** The message of the stop raised when the patience runs out. */
  function PatienceMessage(patience: int): Exception {
    StopCrawl(Str("Stopped after " + IntToString(patience) + " consecutive failure"))
  }

  /** `increment` on a counter: the new counter and what the call does. */
  function IncrementStep(patience: int, missing: int): (r: (Outcome, int))
    ensures r.1 == missing + 1
    ensures r.0.Fail? <==> missing + 1 >= patience
    ensures r.0.Fail? ==> r.0.error == PatienceMessage(patience)
  {
    (if missing + 1 >= patience then Fail(PatienceMessage(patience)) else Pass, missing + 1)
  }

  /** `after_response` on a counter: what the call does and the new counter. */
  function PatienceStep(patience: int, missing: int, payload: Json): (r: (Outcome, int))
    ensures !payload.Obj? ==> r == (Fail(Raised("AttributeError")), missing)
    ensures payload.Obj? && "code" in payload.fields && Truthy(payload.fields["code"]) ==>
              r == IncrementStep(patience, missing)
    ensures payload.Obj? && !("code" in payload.fields && Truthy(payload.fields["code"])) ==>
              r == (Pass, 0)
  {
    match Get(payload, "code", Null)
    case Err(e) => (Fail(e), missing)
    case Ok(code) => if Truthy(code) then IncrementStep(patience, missing) else (Pass, 0)
  }

  /** FailurePatienceStopper: a count of consecutive responses carrying an error code. */
  class FailurePatienceStopper {
    const patience: int
    var consecutiveMissing: int

    constructor (patience: int := 100)
      ensures this.patience == patience && consecutiveMissing == 0
    {
      this.patience := patience;
      consecutiveMissing := 0;
    }

    /** `increment`: one more failure; stops once the count reaches the patience, keeping the count. */
    method Increment() returns (o: Outcome)
      modifies this
      ensures (o, consecutiveMissing) == IncrementStep(patience, old(consecutiveMissing))
    {
      consecutiveMissing := consecutiveMissing + 1;
      if consecutiveMissing >= patience {
        return Fail(PatienceMessage(patience));
      }
      return Pass;
    }

    /** `reset`: a success clears the count. */
    method Reset()
      modifies this
      ensures consecutiveMissing == 0
    {
      consecutiveMissing := 0;
    }

    /** `after_response`: a truthy `code` counts as a failure, anything else as a success. */
    method AfterResponse(payload: Json) returns (o: Outcome)
      modifies this
      ensures (o, consecutiveMissing) == PatienceStep(patience, old(consecutiveMissing), payload)
    {
      var code := Get(payload, "code", Null);
      if code.Err? {
        return Fail(code.error);
      }
      if Truthy(code.value) {
        o := Increment();
      } else {
        Reset();
        o := Pass;
      }
    }
  }

  /**
   * `after_response` over successive payloads, from a counter: the first
   * exception ends the run, and the counter is then left as that call left it.
   */
  function PatienceRun(patience: int, missing: int, payloads: seq<Json>): (r: (Outcome, int))
    decreases |payloads|
  {
    if payloads == [] then (Pass, missing)
    else
      var (o, m) := PatienceStep(patience, missing, payloads[0]);
      if o.Fail? then (o, m) else PatienceRun(patience, m, payloads[1..])
  }

  /** The payload carries a truthy error code. */
  predicate IsFailure(payload: Json) {
    payload.Obj? && "code" in payload.fields && Truthy(payload.fields["code"])
  }

  /**
   * A run of failures from counter c stops exactly when it is non-empty and
   * c plus its length reaches the patience; the stop comes at the first
   * failure that brings the counter to the patience, and the counter keeps
   * that value.
   */
  lemma {:induction false} FailureRunStops(patience: int, c: int, payloads: seq<Json>)
    requires forall i :: 0 <= i < |payloads| ==> IsFailure(payloads[i])
    ensures PatienceRun(patience, c, payloads).0.Fail? <==> |payloads| > 0 && c + |payloads| >= patience
    ensures PatienceRun(patience, c, payloads).0.Fail? ==>
              PatienceRun(patience, c, payloads) == (Fail(PatienceMessage(patience)), if c + 1 >= patience then c + 1 else patience)
    ensures PatienceRun(patience, c, payloads).0.Pass? ==> PatienceRun(patience, c, payloads).1 == c + |payloads|
    decreases |payloads|
  {
    if payloads != [] {
      FailureRunStops(patience, c + 1, payloads[1..]);
    }
  }

  /** A success in the middle of a run forgets every failure before it. */
  lemma SuccessResets(patience: int, c: int, payload: Json, rest: seq<Json>)
    requires payload.Obj? && !IsFailure(payload)
    ensures PatienceRun(patience, c, [payload] + rest) == PatienceRun(patience, 0, rest)
  {
    assert ([payload] + rest)[1..] == rest;
  }

  /** With patience 2: increment, reset, increment goes through, and one more increment stops. */
  method PatienceScenario() returns (first: Outcome, second: Outcome, third: Outcome)
    ensures first == Pass && second == Pass
    ensures third == Fail(PatienceMessage(2))
  {
    var stopper := new FailurePatienceStopper(2);
    first := stopper.Increment();
    stopper.Reset();
    second := stopper.Increment();
    third := stopper.Increment();
  }

  // ---------------------------------------------------------------------
  // The callbacks a crawler may hold

  /** One callback: the three stoppers of this module. */
  datatype Callback =
    | TooManyRequest
    | TimeRange(range: TimeRangeStopper)
    | Patience(stopper: FailurePatienceStopper)

  /** What a stateless callback does with a payload. */
  function StatelessCheck(cb: Callback, payload: Json): Outcome
    requires !cb.Patience?
  {
    match cb
    case TooManyRequest => TooManyRequestCheck(payload)
    case TimeRange(s) => TimeRangeCheck(s, payload)
  }

  /** `callback.after_response(response)` for any of the three callbacks. */
  method AfterResponse(cb: Callback, payload: Json) returns (o: Outcome)
    modifies if cb.Patience? then {cb.stopper} else {}
    ensures cb.Patience? ==>
              (o, cb.stopper.consecutiveMissing)
              == PatienceStep(cb.stopper.patience, old(cb.stopper.consecutiveMissing), payload)
    ensures !cb.Patience? ==> o == StatelessCheck(cb, payload)
  {
    match cb
    case TooManyRequest => o := TooManyRequestCheck(payload);
    case TimeRange(s) => o := TimeRangeCheck(s, payload);
    case Patience(stopper) => o := stopper.AfterResponse(payload);
  }
}
