/**
 * `get_nested`: look a key path up through nested dicts. Every key but the
 * last is looked up with `.get(key, {})`, so a missing intermediate key walks
 * on through an empty dict; the last key is looked up with `.get(key, default)`.
 */
module Utils {
  import opened Builtins

  /** The value `get_nested(item, keys, default)` returns, or the exception it raises. */
  function Nested(item: Json, keys: seq<string>, default: Json): Result<Json>
    decreases |keys|
  {
    if keys == [] then Ok(item)
    else if |keys| == 1 then Get(item, keys[0], default)
    else
      match Get(item, keys[0], Obj(map[]))
      case Err(e) => Err(e)
      case Ok(next) => Nested(next, keys[1..], default)
  }

  /** The loop of `get_nested`, with `item` reassigned once per key but the last. */
  method GetNested(payload: Json, keys: seq<string>, default: Json) returns (r: Result<Json>)
    ensures r == Nested(payload, keys, default)
  {
    var item := payload;
    var last := if keys == [] then 0 else |keys| - 1;
    var i := 0;
    while i < last
      invariant 0 <= i <= last
      invariant Nested(payload, keys, default) == Nested(item, keys[i..], default)
    {
      var next := Get(item, keys[i], Obj(map[]));
      if next.Err? {
        return Err(next.error);
      }
      assert keys[i..][1..] == keys[i + 1..];
      item := next.value;
      i := i + 1;
    }
    if keys == [] {
      r := Ok(item);
    } else {
      r := Get(item, keys[last], default);
    }
  }

  /** Every key of the path is present, each in a dict. */
  predicate HasPath(item: Json, keys: seq<string>)
    decreases |keys|
  {
    keys == [] || (item.Obj? && keys[0] in item.fields && HasPath(item.fields[keys[0]], keys[1..]))
  }

  /** The value at the end of a present path. */
  function At(item: Json, keys: seq<string>): Json
    requires HasPath(item, keys)
    decreases |keys|
  {
    if keys == [] then item else At(item.fields[keys[0]], keys[1..])
  }

  /** When the whole path is present, `get_nested` returns the value at its end (the payload itself for no keys). */
  lemma {:induction false} NestedFindsPresentPath(item: Json, keys: seq<string>, default: Json)
    requires HasPath(item, keys)
    ensures Nested(item, keys, default) == Ok(At(item, keys))
  {
    if |keys| > 1 {
      NestedFindsPresentPath(item.fields[keys[0]], keys[1..], default);
    }
  }

  /** Walking any non-empty path through an empty dict ends at `default`. */
  lemma {:induction false} NestedThroughEmpty(keys: seq<string>, default: Json)
    requires keys != []
    ensures Nested(Obj(map[]), keys, default) == Ok(default)
  {
    if |keys| > 1 {
      NestedThroughEmpty(keys[1..], default);
    }
  }

  /**
   * A key missing from a dict met on the path makes `get_nested` return
   * `default`, whether it is the last key or an intermediate one.
   */
  lemma {:induction false} NestedMissingKey(item: Json, keys: seq<string>, i: nat, default: Json)
    requires i < |keys|
    requires HasPath(item, keys[..i])
    requires At(item, keys[..i]).Obj? && keys[i] !in At(item, keys[..i]).fields
    ensures Nested(item, keys, default) == Ok(default)
    decreases i
  {
    if i == 0 {
      if |keys| > 1 {
        NestedThroughEmpty(keys[1..], default);
      }
    } else {
      assert keys[..i][0] == keys[0] && keys[..i][1..] == keys[1..][..i - 1];
      NestedMissingKey(item.fields[keys[0]], keys[1..], i - 1, default);
    }
  }

  /**
   * `default` is only ever the answer to the last lookup: two calls that
   * differ only in `default` agree, unless each returns its own default.
   */
  lemma {:induction false} NestedDefaultOnlyAtEnd(item: Json, keys: seq<string>, d1: Json, d2: Json)
    ensures Nested(item, keys, d1) == Nested(item, keys, d2)
         || (Nested(item, keys, d1) == Ok(d1) && Nested(item, keys, d2) == Ok(d2))
    decreases |keys|
  {
    if |keys| > 1 {
      match Get(item, keys[0], Obj(map[]))
      case Err(e) =>
      case Ok(next) => NestedDefaultOnlyAtEnd(next, keys[1..], d1, d2);
    }
  }
}
