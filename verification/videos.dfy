/**
 * Video ids and the two id generators. An id is decimal text whose last
 * digit is a marker `1` appended to its numerical value: "1231" has value
 * 123. The ascending generator counts up from its seed, seed included; the
 * descending one counts down from one below its seed, seed excluded.
 */
module Videos {
  import opened Builtins

  /** A video id; datatype equality compares the id text, as `__eq__` does. */
  datatype VideoId = VideoId(id: string)

  /** `__eq__`: two ids are equal exactly when their texts are. */
  predicate SameId(a: VideoId, b: VideoId)
    ensures SameId(a, b) <==> a == b
  {
    a.id == b.id
  }

  /** `numerical_value`: `int(id) // 10`; Err(ValueError) when the id is not an integer. */
  function NumericalValue(v: VideoId): (r: Result<int>)
    ensures r.Ok? <==> ParseInt(v.id).Some?
    ensures r.Ok? ==> 10 * r.value <= ParseInt(v.id).value < 10 * r.value + 10
  {
    match ParseInt(v.id)
    case None => Err(Raised("ValueError"))
    case Some(i) => Ok(i / 10)  // Euclidean division by 10 is Python's floor division
  }

  /** `from_numerical`: the value's decimal text followed by the marker `1`. */
  function FromNumerical(value: int): VideoId {
    VideoId(IntToString(value) + "1")
  }

  /** An id built by `from_numerical` is `str(value)` followed by the marker `1`. */
  lemma FromNumericalShape(value: int)
    ensures |FromNumerical(value).id| >= 2 && FromNumerical(value).id[|FromNumerical(value).id| - 1] == '1'
    ensures FromNumerical(value).id[..|FromNumerical(value).id| - 1] == IntToString(value)
  {
    assert (IntToString(value) + "1")[..|IntToString(value)|] == IntToString(value);
  }

  /** `next`: the canonical id one above. */
  function Next(v: VideoId): (r: Result<VideoId>)
    ensures r.Ok? <==> ParseInt(v.id).Some?
    ensures r.Ok? && NumericalValue(v).value >= -1 ==> NumericalValue(r.value) == Ok(NumericalValue(v).value + 1)
  {
    match NumericalValue(v)
    case Err(e) => Err(e)
    case Ok(n) =>
      var w := FromNumerical(n + 1);
      assert n + 1 >= 0 ==> NumericalValue(w) == Ok(n + 1) by {
        if n + 1 >= 0 { FromNumericalRoundTrip(n + 1); }
      }
      Ok(w)
  }

  /** `previous`: the canonical id one below. */
  function Previous(v: VideoId): (r: Result<VideoId>)
    ensures r.Ok? <==> ParseInt(v.id).Some?
    ensures r.Ok? && NumericalValue(v).value >= 1 ==> NumericalValue(r.value) == Ok(NumericalValue(v).value - 1)
  {
    match NumericalValue(v)
    case Err(e) => Err(e)
    case Ok(n) =>
      var w := FromNumerical(n - 1);
      assert n - 1 >= 0 ==> NumericalValue(w) == Ok(n - 1) by {
        if n - 1 >= 0 { FromNumericalRoundTrip(n - 1); }
      }
      Ok(w)
  }

  /** The shape of an id `from_numerical` builds from a non-negative value. */
  predicate Canonical(v: VideoId) {
    |v.id| >= 2 && v.id[|v.id| - 1] == '1' && CanonicalDecimal(v.id[..|v.id| - 1])
  }

  /** For a string of digits, the value is the number written before the last digit. */
  lemma NumericalValueOfDigits(v: VideoId)
    requires |v.id| > 0 && AllDigits(v.id)
    ensures NumericalValue(v) == Ok(DecimalValue(v.id[..|v.id| - 1]) as int)
  {
    var p := v.id[..|v.id| - 1];
    assert v.id == p + [v.id[|v.id| - 1]];
    DecimalAppend(p, v.id[|v.id| - 1]);
  }

  /** For every n >= 0, `from_numerical(n)` is canonical and has value n. */
  lemma FromNumericalRoundTrip(n: int)
    requires n >= 0
    ensures Canonical(FromNumerical(n))
    ensures NumericalValue(FromNumerical(n)) == Ok(n)
  {
    var v := FromNumerical(n);
    NatToDecimalShape(n);
    assert AllDigits(v.id) by {
      assert v.id == NatToDecimal(n) + "1";
    }
    NumericalValueOfDigits(v);
    DecimalRoundTrip(n);
  }

  /** Every canonical id is `from_numerical` of its own value. */
  lemma CanonicalIsFromNumerical(v: VideoId)
    requires Canonical(v)
    ensures NumericalValue(v).Ok? && NumericalValue(v).value >= 0
    ensures FromNumerical(NumericalValue(v).value) == v
  {
    var p := v.id[..|v.id| - 1];
    assert v.id == p + ['1'];
    assert AllDigits(v.id);
    NumericalValueOfDigits(v);
    DecimalCanonicalRoundTrip(p);
  }

  /** For a negative n, the round trip misses by one: `int(str(n) + "1") // 10 == n - 1`. */
  lemma FromNegativeDrifts(n: int)
    requires n < 0
    ensures NumericalValue(FromNumerical(n)) == Ok(n - 1)
  {
    var d := NatToDecimal(-n);
    DecimalRoundTrip(-n);
    var t := d + "1";
    DecimalAppend(d, '1');
    var s := FromNumerical(n).id;
    assert s == "-" + t;
    assert s[1..] == t;
    assert ParseInt(s) == Some(-(DecimalValue(t) as int));
    assert DecimalValue(t) == -n * 10 + 1;
  }

  /** `from_numerical` is injective, so distinct values give distinct ids. */
  lemma FromNumericalInjective(a: int, b: int)
    requires FromNumerical(a) == FromNumerical(b)
    ensures a == b
  {
    FromNumericalShape(a);
    FromNumericalShape(b);
    IntToStringInjective(a, b);
  }

  /** `previous` undoes `next` on every canonical id. */
  lemma NextThenPrevious(v: VideoId)
    requires Canonical(v)
    ensures Next(v).Ok? && Previous(Next(v).value) == Ok(v)
  {
    CanonicalIsFromNumerical(v);
    var n := NumericalValue(v).value;
    FromNumericalRoundTrip(n + 1);
  }

  /** `next` undoes `previous` on every canonical id of value at least 1. */
  lemma PreviousThenNext(v: VideoId)
    requires Canonical(v) && NumericalValue(v).Ok? && NumericalValue(v).value >= 1
    ensures Previous(v).Ok? && Next(Previous(v).value) == Ok(v)
  {
    CanonicalIsFromNumerical(v);
    var n := NumericalValue(v).value;
    FromNumericalRoundTrip(n - 1);
  }

  /** Below value 1 the pair breaks: `previous` of "1" is "-11", and `next` of "-11" is "-11" again. */
  lemma PreviousOfZeroBreaksRoundTrip()
    ensures Previous(VideoId("1")) == Ok(VideoId("-11"))
    ensures Next(VideoId("-11")) == Ok(VideoId("-11"))
  {
    NumericalValueOfDigits(VideoId("1"));
    assert IntToString(-1) == "-1";
    assert FromNumerical(-1) == VideoId("-11");
    FromNegativeDrifts(-1);
  }

  // ---------------------------------------------------------------------
  // Generators

  /** Which generator class: VideoIdAscendingGenerator or VideoIdDescendingGenerator. */
  datatype Order = Ascending | Descending

  /** What one `__next__` call does: return an id, raise StopIteration, or raise another exception. */
  datatype Step = Yield(id: VideoId) | Exhausted | Failed(error: Exception)

  /** The effect of one `__next__` call: its step and the new `count`. */
  datatype Advance = Advance(step: Step, count: nat)

  /** `limit` is truthy: neither None nor 0. */
  predicate Limited(limit: Option<int>) {
    limit.Some? && limit.value != 0
  }

  /** The guard at the top of `__next__`. */
  predicate IsExhausted(limit: Option<int>, count: nat) {
    Limited(limit) && count >= limit.value
  }

  /** The value of the id produced when `count` ids have been produced before. */
  function ValueAt(order: Order, seedValue: int, count: nat): int {
    match order
    case Ascending => seedValue + count
    case Descending => seedValue - (count + 1)
  }

  /** The id produced when `count` ids have been produced before, in closed form. */
  function IdAt(order: Order, seedValue: int, count: nat): VideoId {
    FromNumerical(ValueAt(order, seedValue, count))
  }

  /**
   * `__next__` of either generator class, on its `count` field; `seedValue`
   * is what `seed.numerical_value` gives (the seed never changes).
   */
  function NextStep(order: Order, seedValue: Result<int>, limit: Option<int>, count: nat): (a: Advance)
    ensures IsExhausted(limit, count) ==> a == Advance(Exhausted, count)
    ensures !IsExhausted(limit, count) && seedValue.Ok? ==>
              a == Advance(Yield(IdAt(order, seedValue.value, count)), count + 1)
    ensures a.step.Failed? <==> !IsExhausted(limit, count) && seedValue.Err?
    ensures a.step.Failed? ==> a.count == (if order == Ascending then count else count + 1)
  {
    if IsExhausted(limit, count) then Advance(Exhausted, count)
    else
      match order
      case Ascending =>
        (match seedValue
         case Err(e) => Advance(Failed(e), count)
         case Ok(v) => Advance(Yield(FromNumerical(v + count)), count + 1))
      case Descending =>
        var c := count + 1;
        match seedValue
        case Err(e) => Advance(Failed(e), c)
        case Ok(v) => Advance(Yield(FromNumerical(v - c)), c)
  }

  /** The steps of `n` successive calls of a step function `next`, starting from `count`. */
  function Run(next: nat -> Advance, count: nat, n: nat): (r: seq<Step>)
    ensures |r| == n
    decreases n
  {
    if n == 0 then []
    else [next(count).step] + Run(next, next(count).count, n - 1)
  }

  /**
   * When every call from `count` up to `k` moves the count on by one, the
   * i-th step of the run, for i == k - count, is the step taken at `k`.
   */
  lemma {:induction false} RunAt(next: nat -> Advance, count: nat, n: nat, i: nat, k: nat)
    requires i < n && k == count + i
    requires forall j :: count <= j < k ==> next(j).count == j + 1
    ensures Run(next, count, n)[i] == next(k).step
    decreases i
  {
    assert Run(next, count, n) == [next(count).step] + Run(next, next(count).count, n - 1);
    if i > 0 {
      RunAt(next, count + 1, n - 1, i - 1, k);
    }
  }

  /** A step function that never gives Exhausted gives a run without Exhausted. */
  lemma {:induction false} RunNeverExhausted(next: nat -> Advance, count: nat, n: nat)
    requires forall j :: next(j).step != Exhausted
    ensures forall i :: 0 <= i < n ==> Run(next, count, n)[i] != Exhausted
    decreases n
  {
    if n > 0 {
      RunNeverExhausted(next, next(count).count, n - 1);
    }
  }

  /** `__next__` as a step function of `count`. */
  function NextOf(order: Order, seedValue: Result<int>, limit: Option<int>): nat -> Advance {
    (k: nat) => NextStep(order, seedValue, limit, k)
  }

  /** The steps of `n` successive `__next__` calls starting from `count`. */
  function Steps(order: Order, seedValue: Result<int>, limit: Option<int>, count: nat, n: nat): (r: seq<Step>)
    ensures |r| == n
  {
    Run(NextOf(order, seedValue, limit), count, n)
  }

  /** Within the limit, the i-th of the next n steps is the step from `count + i` (written `k`). */
  lemma StepsAt(order: Order, seedValue: Result<int>, limit: Option<int>, count: nat, n: nat, i: nat, k: nat)
    requires seedValue.Ok? && k == count + i
    requires i < n && (Limited(limit) ==> k < limit.value)
    ensures Steps(order, seedValue, limit, count, n)[i] == NextStep(order, seedValue, limit, k).step
  {
    var next := NextOf(order, seedValue, limit);
    forall j | count <= j < k
      ensures next(j).count == j + 1
    {
      assert !IsExhausted(limit, j);
    }
    RunAt(next, count, n, i, k);
  }

  /** Within the limit, the i-th of the next n steps yields the id at `count + i` (written `k`). */
  lemma StepsClosedForm(order: Order, seedValue: Result<int>, limit: Option<int>, count: nat, n: nat, i: nat, k: nat)
    requires seedValue.Ok? && k == count + i
    requires i < n && (Limited(limit) ==> k < limit.value)
    ensures Steps(order, seedValue, limit, count, n)[i] == Yield(IdAt(order, seedValue.value, k))
  {
    StepsAt(order, seedValue, limit, count, n, i, k);
  }

  /** When the limit is reached after n calls, the next call raises StopIteration. */
  lemma StopsAtLimit(order: Order, seedValue: Result<int>, limit: Option<int>, count: nat, n: nat)
    requires seedValue.Ok? && Limited(limit) && count + n == limit.value
    ensures Steps(order, seedValue, limit, count, n + 1)[n] == Exhausted
  {
    var next := NextOf(order, seedValue, limit);
    forall j | count <= j < count + n
      ensures next(j).count == j + 1
    {
      assert !IsExhausted(limit, j);
    }
    RunAt(next, count, n + 1, n, count + n);
  }

  /** With a positive limit L, a fresh generator gives exactly L ids, then raises StopIteration. */
  lemma ExactlyLimitIds(order: Order, seedValue: Result<int>, l: nat)
    requires seedValue.Ok? && l > 0
    ensures forall i :: 0 <= i < l ==>
              Steps(order, seedValue, Some(l), 0, l + 1)[i] == Yield(IdAt(order, seedValue.value, i))
    ensures Steps(order, seedValue, Some(l), 0, l + 1)[l] == Exhausted
  {
    StopsAtLimit(order, seedValue, Some(l), 0, l);
    forall i | 0 <= i < l
      ensures Steps(order, seedValue, Some(l), 0, l + 1)[i] == Yield(IdAt(order, seedValue.value, i))
    {
      StepsClosedForm(order, seedValue, Some(l), 0, l + 1, i, i);
    }
  }

  /** An id that does not parse makes the first call (within the limit) raise its ValueError. */
  lemma InvalidSeedFails(order: Order, seedValue: Result<int>, limit: Option<int>, n: nat)
    requires seedValue.Err? && n > 0 && !IsExhausted(limit, 0)
    ensures Steps(order, seedValue, limit, 0, n)[0] == Failed(seedValue.error)
  {
    RunAt(NextOf(order, seedValue, limit), 0, n, 0, 0);
  }

  /** With `limit` None or 0, the generator never raises StopIteration. */
  lemma UnlimitedNeverExhausts(order: Order, seedValue: Result<int>, limit: Option<int>, count: nat, n: nat)
    requires !Limited(limit)
    ensures forall i :: 0 <= i < n ==> Steps(order, seedValue, limit, count, n)[i] != Exhausted
  {
    var next := NextOf(order, seedValue, limit);
    forall j: nat
      ensures next(j).step != Exhausted
    {
      assert !IsExhausted(limit, j);
    }
    RunNeverExhausted(next, count, n);
  }

  /** Ascending ids have value seed + k, the first being the canonical seed itself. */
  lemma AscendingValues(seedValue: int, k: nat)
    requires seedValue >= 0
    ensures NumericalValue(IdAt(Ascending, seedValue, k)) == Ok(seedValue + k)
    ensures IdAt(Ascending, seedValue, 0) == FromNumerical(seedValue)
  {
    FromNumericalRoundTrip(seedValue + k);
  }

  /** Descending ids have value seed - k for k = 1, 2, ... */
  lemma DescendingValues(seedValue: int, k: nat)
    requires seedValue - (k + 1) >= 0
    ensures NumericalValue(IdAt(Descending, seedValue, k)) == Ok(seedValue - (k + 1))
  {
    FromNumericalRoundTrip(seedValue - (k + 1));
  }

  /** The descending generator never gives its seed back, whatever the seed's value. */
  lemma DescendingNeverSeed(seedValue: int, k: nat)
    ensures IdAt(Descending, seedValue, k) != FromNumerical(seedValue)
  {
    if IdAt(Descending, seedValue, k) == FromNumerical(seedValue) {
      FromNumericalInjective(seedValue - (k + 1), seedValue);
    }
  }

  /** The descending generator never gives back the seed id itself, canonical or not. */
  lemma DescendingNeverSeedId(seed: VideoId, k: nat)
    requires NumericalValue(seed).Ok?
    ensures IdAt(Descending, NumericalValue(seed).value, k) != seed
  {
    var v := NumericalValue(seed).value;
    var w := v - (k + 1);
    if IdAt(Descending, v, k) == seed {
      if w >= 0 {
        FromNumericalRoundTrip(w);
      } else {
        FromNegativeDrifts(w);
      }
      assert false;
    }
  }

  /** On a canonical seed, the ascending generator's first id is the seed itself. */
  lemma AscendingStartsAtSeed(seed: VideoId)
    requires Canonical(seed)
    ensures NumericalValue(seed).Ok?
    ensures IdAt(Ascending, NumericalValue(seed).value, 0) == seed
  {
    CanonicalIsFromNumerical(seed);
  }

  /** The ids a limited generator still has to give, in order. */
  function Remaining(order: Order, seedValue: int, limit: Option<int>, count: nat): (r: seq<VideoId>)
    requires Limited(limit)
    ensures |r| == (if limit.value > count then limit.value - count else 0)
    ensures forall i :: 0 <= i < |r| ==> r[i] == IdAt(order, seedValue, count + i)
  {
    var n := if limit.value > count then limit.value - count else 0;
    seq(n, i requires 0 <= i < n => IdAt(order, seedValue, count + i))
  }

  /** The i-th remaining id is what the i-th of the next calls yields. */
  lemma RemainingYield(order: Order, seedValue: int, limit: Option<int>, count: nat, n: nat, i: nat)
    requires Limited(limit) && n == |Remaining(order, seedValue, limit, count)| && i < n
    ensures Steps(order, Ok(seedValue), limit, count, n + 1)[i] == Yield(Remaining(order, seedValue, limit, count)[i])
  {
    StepsClosedForm(order, Ok(seedValue), limit, count, n + 1, i, count + i);
  }

  /**
   * The ids a limited generator still has to give are what its successive
   * `__next__` calls yield, one per call, and the call after the last of
   * them raises StopIteration.
   */
  lemma RemainingAreSteps(order: Order, seedValue: int, limit: Option<int>, count: nat)
    requires Limited(limit)
    ensures var r := Remaining(order, seedValue, limit, count);
            (forall i :: 0 <= i < |r| ==> Steps(order, Ok(seedValue), limit, count, |r| + 1)[i] == Yield(r[i]))
            && Steps(order, Ok(seedValue), limit, count, |r| + 1)[|r|] == Exhausted
  {
    var n := |Remaining(order, seedValue, limit, count)|;
    forall i | 0 <= i < n
      ensures Steps(order, Ok(seedValue), limit, count, n + 1)[i] == Yield(Remaining(order, seedValue, limit, count)[i])
    {
      RemainingYield(order, seedValue, limit, count, n, i);
    }
    if limit.value > count {
      StopsAtLimit(order, Ok(seedValue), limit, count, n);
    } else {
      assert NextStep(order, Ok(seedValue), limit, count).step == Exhausted;
    }
  }

  /**
   * VideoIdAscendingGenerator and VideoIdDescendingGenerator, told apart by
   * `order`; `__len__` is the `limit` field itself.
   */
  class VideoIdGenerator {
    const order: Order
    const seed: VideoId
    const limit: Option<int>
    var count: nat

    constructor (order: Order, seed: VideoId, limit: Option<int> := None)
      ensures this.order == order && this.seed == seed && this.limit == limit
      ensures count == 0
    {
      this.order := order;
      this.seed := seed;
      this.limit := limit;
      count := 0;
    }

    /** `__next__`. */
    method Next() returns (s: Step)
      modifies this`count
      ensures Advance(s, count) == NextStep(order, NumericalValue(seed), limit, old(count))
    {
      if limit.Some? && limit.value != 0 && count >= limit.value {
        return Exhausted;
      }
      match order {
        case Ascending =>
          var value := NumericalValue(seed);
          if value.Err? {
            return Failed(value.error);
          }
          s := Yield(FromNumerical(value.value + count));
          count := count + 1;
        case Descending =>
          count := count + 1;
          var value := NumericalValue(seed);
          if value.Err? {
            return Failed(value.error);
          }
          s := Yield(FromNumerical(value.value - count));
      }
    }
  }

  /** `str(10 * m + d)` is `str(m)` followed by the digit d, for m >= 1. */
  lemma AppendDigit(m: nat, d: nat)
    requires m >= 1 && d < 10
    ensures NatToDecimal(10 * m + d) == NatToDecimal(m) + [DigitChar(d)]
  {
    assert (10 * m + d) / 10 == m && (10 * m + d) % 10 == d;
  }

  /** The id `from_numerical` gives for 120 + d, d a digit, is "12", d and the marker. */
  lemma IdOfTwelveAnd(d: nat)
    requires d < 10
    ensures FromNumerical(120 + d) == VideoId(['1', '2', DigitChar(d), '1'])
  {
    AppendDigit(1, 2);
    AppendDigit(12, d);
  }

  /** The id "1231": value 123, rebuilt from 123, followed by "1241" and preceded by "1221". */
  lemma IdExamples()
    ensures NumericalValue(VideoId("1231")) == Ok(123)
    ensures FromNumerical(123) == VideoId("1231")
    ensures Next(VideoId("1231")) == Ok(VideoId("1241"))
    ensures Previous(VideoId("1231")) == Ok(VideoId("1221"))
  {
    IdOfTwelveAnd(3);
    assert FromNumerical(123) == VideoId("1231");
    FromNumericalRoundTrip(123);
    IdOfTwelveAnd(4);
    assert FromNumerical(124) == VideoId("1241");
    IdOfTwelveAnd(2);
    assert FromNumerical(122) == VideoId("1221");
  }

  /** The two generators of the docstrings, seed "1231" and limit 3, as values. */
  lemma DocstringExamples()
    ensures Remaining(Ascending, 123, Some(3), 0)
         == [VideoId("1231"), VideoId("1241"), VideoId("1251")]
    ensures Remaining(Descending, 123, Some(3), 0)
         == [VideoId("1221"), VideoId("1211"), VideoId("1201")]
  {
    IdOfTwelveAnd(3);
    IdOfTwelveAnd(4);
    IdOfTwelveAnd(5);
    IdOfTwelveAnd(2);
    IdOfTwelveAnd(1);
    IdOfTwelveAnd(0);
  }
}
