/**
 * The in-memory stand-in for a memcache server used by the tests
 * (tests/Helpers/FakeMemcachePHP80.php and its PHP 7.3 twin, which share
 * their logic). `Store` is the abstract value of the static `$cache` map
 * plus the `broken` switch; `FakeMemcache` updates them in place.
 */
module FakeMemcacheStore {
  import opened Wrappers
  import opened Php

  /** The whole state of the fake: every key's value and whether every operation fails. */
  datatype Store = Store(cache: map<string, Value>, broken: bool) {

    /** Present in the sense of `isset`: stored and not null. */
    predicate IsSet(key: string) {
      key in cache && cache[key] != Null
    }

    /** `get($key)`: the stored value, or `false` when broken, absent or null. */
    function Get(key: string): Value {
      if broken then Bool(false)
      else if IsSet(key) then cache[key]
      else Bool(false)
    }

    /** `add`: stores only when the key is not set. */
    function Add(key: string, value: Value): (bool, Store) {
      if broken || IsSet(key) then (false, this)
      else (true, this.(cache := cache[key := value]))
    }

    /** `set`: stores unconditionally (the TTL is ignored). */
    function Set(key: string, value: Value): (bool, Store) {
      if broken then (false, this)
      else (true, this.(cache := cache[key := value]))
    }

    /** `flush`: forgets every key. */
    function Flush(): (bool, Store) {
      if broken then (false, this)
      else (true, this.(cache := map[]))
    }

    /** `replace`: a `set` of a key whose `get` is not `false`. */
    function Replace(key: string, value: Value): (bool, Store) {
      if broken then (false, this)
      else if Get(key) == Bool(false) then (false, this)
      else Set(key, value)
    }

    /** `increment`: adds `delta` to a readable key, a non-numeric value counting as 0. */
    function Increment(key: string, delta: int): (Option<int>, Store) {
      if broken then (None, this)
      else
        var prev := Get(key);
        if prev == Bool(false) then (None, this)
        else
          var base := if IsNumeric(prev) then NumericValue(prev) else 0;
          var (ok, s) := Set(key, Int(base + delta));
          if ok then (Some(s.Get(key).i), s) else (None, s)
    }

    /** `decrement`: an increment by the negated amount. */
    function Decrement(key: string, delta: int): (Option<int>, Store) {
      Increment(key, delta * -1)
    }

    /** `delete`: forgets one key. */
    function Delete(key: string): (bool, Store) {
      if broken then (false, this)
      else (true, this.(cache := cache - {key}))
    }
  }

  /** The fake: one object stands for the static map every instance shares. */
  class FakeMemcache {
    var cache: map<string, Value>
    var broken: bool

    ghost function Model(): Store
      reads this
    {
      Store(cache, broken)
    }

    constructor ()
      ensures Model() == Store(map[], false)
    {
      cache := map[];
      broken := false;
    }

    /** The test switch that makes every operation fail. */
    method SetBroken(b: bool)
      modifies this
      ensures Model() == old(Model()).(broken := b)
    {
      broken := b;
    }

    method Get(key: string) returns (v: Value)
      ensures v == Model().Get(key)
    {
      if broken {
        return Bool(false);
      }
      v := if key in cache && cache[key] != Null then cache[key] else Bool(false);
    }

    method Add(key: string, value: Value) returns (ok: bool)
      modifies this
      ensures (ok, Model()) == old(Model()).Add(key, value)
    {
      if broken {
        return false;
      }
      if key in cache && cache[key] != Null {
        return false;
      }
      cache := cache[key := value];
      ok := true;
    }

    method Set(key: string, value: Value) returns (ok: bool)
      modifies this
      ensures (ok, Model()) == old(Model()).Set(key, value)
    {
      if broken {
        return false;
      }
      cache := cache[key := value];
      ok := true;
    }

    method Flush() returns (ok: bool)
      modifies this
      ensures (ok, Model()) == old(Model()).Flush()
    {
      if broken {
        return false;
      }
      cache := map[];
      ok := true;
    }

    method Replace(key: string, value: Value) returns (ok: bool)
      modifies this
      ensures (ok, Model()) == old(Model()).Replace(key, value)
    {
      if broken {
        return false;
      }
      var prev := Get(key);
      if prev == Bool(false) {
        return false;
      }
      ok := Set(key, value);
    }

    method Increment(key: string, delta: int) returns (r: Option<int>)
      modifies this
      ensures (r, Model()) == old(Model()).Increment(key, delta)
    {
      if broken {
        return None;
      }
      var prev := Get(key);
      if prev == Bool(false) {
        return None;
      }
      var base := if IsNumeric(prev) then NumericValue(prev) else 0;
      var ok := Set(key, Int(base + delta));
      if ok {
        var now := Get(key);
        r := Some(now.i);
      } else {
        r := None;
      }
    }

    method Decrement(key: string, delta: int) returns (r: Option<int>)
      modifies this
      ensures (r, Model()) == old(Model()).Decrement(key, delta)
    {
      r := Increment(key, delta * -1);
    }

    method Delete(key: string) returns (ok: bool)
      modifies this
      ensures (ok, Model()) == old(Model()).Delete(key)
    {
      if broken {
        return false;
      }
      cache := cache - {key};
      ok := true;
    }
  }

  /** While broken, every operation answers `false` and changes nothing. */
  lemma BrokenStoreIsInert(s: Store, key: string, value: Value, delta: int)
    requires s.broken
    ensures s.Get(key) == Bool(false)
    ensures s.Add(key, value) == (false, s) && s.Set(key, value) == (false, s)
    ensures s.Replace(key, value) == (false, s) && s.Delete(key) == (false, s)
    ensures s.Flush() == (false, s)
    ensures s.Increment(key, delta) == (None, s) && s.Decrement(key, delta) == (None, s)
  {
  }

  /** `set` then `get` reads the value back (unless it reads as false), and no other key moves. */
  lemma SetThenGet(s: Store, key: string, value: Value, other: string)
    requires !s.broken && value != Null && value != Bool(false)
    ensures s.Set(key, value).0 && s.Set(key, value).1.Get(key) == value
    ensures other != key ==> s.Set(key, value).1.Get(other) == s.Get(other)
  {
  }

  /** `get` of a key that was never stored is `false`. */
  lemma GetAbsent(s: Store, key: string)
    requires key !in s.cache
    ensures s.Get(key) == Bool(false)
  {
  }

  /**
   * `add` never overwrites a set key; otherwise it succeeds, the key reads
   * back the value (a stored null reads as false), and no other key moves.
   */
  lemma AddOnlyWhenUnset(s: Store, key: string, value: Value, other: string)
    requires !s.broken
    ensures s.IsSet(key) ==> s.Add(key, value) == (false, s)
    ensures !s.IsSet(key) ==> s.Add(key, value) == s.Set(key, value)
    ensures !s.IsSet(key) ==> s.Add(key, value).0 && s.Add(key, value).1.Get(key) == (if value == Null then Bool(false) else value)
    ensures other != key ==> s.Add(key, value).1.Get(other) == s.Get(other)
  {
  }

  /**
   * `replace` fails on a key `get` cannot read, changing nothing; on a
   * readable key it succeeds and the key reads back the value (a stored null
   * reads as false). No other key moves.
   */
  lemma ReplaceOnlyWhenReadable(s: Store, key: string, value: Value, other: string)
    requires !s.broken
    ensures s.Get(key) == Bool(false) ==> s.Replace(key, value) == (false, s)
    ensures s.Get(key) != Bool(false) ==> s.Replace(key, value) == s.Set(key, value)
    ensures s.Get(key) != Bool(false) ==>
      s.Replace(key, value).0 && s.Replace(key, value).1.Get(key) == (if value == Null then Bool(false) else value)
    ensures other != key ==> s.Replace(key, value).1.Get(other) == s.Get(other)
  {
  }

  /**
   * `increment` of a key `get` cannot read fails and changes nothing;
   * otherwise it returns what `get` read (non-numeric counting as 0) plus
   * delta, the key reads back that sum, and no other key moves.
   */
  lemma IncrementAdds(s: Store, key: string, delta: int, other: string)
    requires !s.broken
    ensures !s.IsSet(key) || s.cache[key] == Bool(false) ==> s.Increment(key, delta) == (None, s)
    ensures s.IsSet(key) && s.cache[key] != Bool(false) ==>
      var base := if IsNumeric(s.cache[key]) then NumericValue(s.cache[key]) else 0;
      s.Increment(key, delta) == (Some(base + delta), s.(cache := s.cache[key := Int(base + delta)]))
    ensures s.Get(key) != Bool(false) ==>
      var base := if IsNumeric(s.Get(key)) then NumericValue(s.Get(key)) else 0;
      s.Increment(key, delta).0 == Some(base + delta) && s.Increment(key, delta).1.Get(key) == Int(base + delta)
    ensures other != key ==> s.Increment(key, delta).1.Get(other) == s.Get(other)
  {
  }

  /** `decrement` has no floor: a counter at 0 goes to -1. */
  lemma DecrementBelowZero(key: string)
    ensures Store(map[key := Int(0)], false).Decrement(key, 1) == (Some(-1), Store(map[key := Int(-1)], false))
  {
    var s := Store(map[key := Int(0)], false);
    assert s.Get(key) == Int(0);
    assert s.cache[key := Int(-1)] == map[key := Int(-1)];
  }

  /** `delete` forgets exactly one key; `flush` forgets them all. */
  lemma DeleteAndFlush(s: Store, key: string, other: string)
    requires !s.broken
    ensures s.Delete(key).1.Get(key) == Bool(false)
    ensures other != key ==> s.Delete(key).1.Get(other) == s.Get(other)
    ensures s.Flush().1.Get(other) == Bool(false)
  {
  }

  /** The store after `n` increments of `key` by 1. */
  function IncrementTimes(s: Store, key: string, n: nat): Store
    decreases n
  {
    if n == 0 then s else IncrementTimes(s.Increment(key, 1).1, key, n - 1)
  }

  /** A counter stored as `start` reads `start + n` after `n` increments, other keys untouched. */
  lemma {:induction false} IncrementTimesCounts(s: Store, key: string, start: int, n: nat)
    requires !s.broken && key in s.cache && s.cache[key] == Int(start)
    ensures IncrementTimes(s, key, n) == s.(cache := s.cache[key := Int(start + n)])
    decreases n
  {
    if n > 0 {
      var s1 := s.Increment(key, 1).1;
      assert s1 == s.(cache := s.cache[key := Int(start + 1)]);
      IncrementTimesCounts(s1, key, start + 1, n - 1);
    }
  }
}
