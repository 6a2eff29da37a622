/**
 * MemcacheLoginLimitPlugin (src/Plugin/Limit/MemcacheLoginLimitPlugin.php):
 * two counters in a shared store, one per username and one per remote
 * address, each adjusted by increment/decrement with a fallback to `set`.
 */
module MemcacheLimit {
  import opened Wrappers
  import opened Php
  import opened ResultCodes
  import opened FakeMemcacheStore
  import opened Http

  /** Default maximum number of attempts per username. */
  const MAX_LOGIN: int := 3
  /** Default maximum number of attempts per address. */
  const MAX_ADDR: int := 10
  /** Default counter lifetime in seconds. */
  const TIMEOUT: int := 300

  /**
   * The limiter's own fields: the remote address override, the last
   * username passed to login (PHP's initial null behaves as ""), the last
   * counts read back, and how many "throttling may be broken" warnings it logged.
   * A warning goes to the logger the Auth shares, taken here to be absent,
   * falsy or a real logger, so that logging it never fails.
   */
  datatype Tracker = Tracker(addr: Value, username: string, attemptsLogin: Option<int>,
                             attemptsAddr: Option<int>, warnings: nat)

  const Fresh: Tracker := Tracker(Null, "", None, None, 0)

  /** The per-username key. */
  function LoginKey(username: string): string {
    "LoginLimit::login(" + username + ")"
  }

  /** The address: the override if truthy, else REMOTE_ADDR if set, else "localhost". */
  function AddrOf(addr: Value, remote: Option<string>): string {
    if Truthy(addr) then ToStr(addr) else remote.GetOr("localhost")
  }

  /** The per-address key. */
  function AddrKey(addr: Value, remote: Option<string>): string {
    "LoginLimit::addr(" + AddrOf(addr, remote) + ")"
  }

  /** What `setAttemptKey` leaves behind: the count it returns, the store, and whether it warned. */
  datatype Adjusted = Adjusted(count: int, store: Store, warned: bool)

  /** `setAttemptKey`: increment or decrement; when that fails, set 1 or 0 and return it even if the set fails. */
  function AdjustKey(s: Store, key: string, inc: bool): Adjusted {
    var (r, s1) := if inc then s.Increment(key, 1) else s.Decrement(key, 1);
    if r.Some? then Adjusted(r.value, s1, false)
    else
      var fallback := if inc then 1 else 0;
      var (ok, s2) := s1.Set(key, Int(fallback));
      Adjusted(fallback, s2, !ok)
  }

  function Warned(t: Tracker, a: Adjusted): nat {
    t.warnings + (if a.warned then 1 else 0)
  }

  /** `setLoginAttempts`: the login counter only for a non-empty username, the address counter always. */
  function Record(t: Tracker, s: Store, remote: Option<string>, username: string, inc: bool): (Tracker, Store) {
    var keyAddr := AddrKey(t.addr, remote);
    var (t1, s1) :=
      if EmptyString(username) then (t, s)
      else
        var a := AdjustKey(s, LoginKey(username), inc);
        (t.(attemptsLogin := Some(a.count), warnings := Warned(t, a)), a.store);
    var b := AdjustKey(s1, keyAddr, inc);
    (t1.(attemptsAddr := Some(b.count), warnings := Warned(t1, b)), b.store)
  }

  /** PHP's `$count > $max`; a count still null is never greater. */
  predicate Above(count: Option<int>, max: int) {
    count.Some? && count.value > max
  }

  /** `login`: remember the username, count one attempt on both keys, fail above either maximum. */
  function LoginStep(t: Tracker, s: Store, remote: Option<string>, maxLogin: int, maxAddr: int,
                     username: string): (Option<int>, Tracker, Store)
  {
    var (t1, s1) := Record(t.(username := username), s, remote, username, true);
    var vote := if Above(t1.attemptsLogin, maxLogin) || Above(t1.attemptsAddr, maxAddr) then FAILURE else NOOP;
    (vote, t1, s1)
  }

  /** `decrementAttempts`: forgive one attempt for the last username and the address. */
  function DecrementStep(t: Tracker, s: Store, remote: Option<string>): (Tracker, Store) {
    Record(t, s, remote, t.username, false)
  }

  class MemcacheLoginLimiter {
    const memcache: FakeMemcache
    /** Where `$_SERVER['REMOTE_ADDR']` lives. */
    const request: Request
    const maxAttemptsLogin: int
    const maxAttemptsAddr: int
    const timeout: int
    var addr: Value
    var username: string
    var attemptsLogin: Option<int>
    var attemptsAddr: Option<int>
    ghost var warnings: nat

    ghost function State(): Tracker
      reads this
    {
      Tracker(addr, username, attemptsLogin, attemptsAddr, warnings)
    }

    /**
     * PHP's defaults for the three numbers are MAX_LOGIN, MAX_ADDR and TIMEOUT;
     * here a caller that omits them passes those constants.
     */
    constructor (mc: FakeMemcache, login: int, addr: int, sec: int, request: Request)
      ensures memcache == mc && this.request == request
      ensures maxAttemptsLogin == login && maxAttemptsAddr == addr && timeout == sec
      ensures State() == Fresh
    {
      memcache := mc;
      this.request := request;
      maxAttemptsLogin := login;
      maxAttemptsAddr := addr;
      timeout := sec;
      this.addr := Null;
      username := "";
      attemptsLogin := None;
      attemptsAddr := None;
      warnings := 0;
    }

    method SetRemoteAddr(a: Value)
      modifies this
      ensures State() == old(State()).(addr := a)
    {
      addr := a;
    }

    method GetKeys(name: string) returns (keyLogin: string, keyAddr: string)
      ensures keyLogin == LoginKey(name) && keyAddr == AddrKey(addr, request.remoteAddr)
    {
      var fallback := if request.remoteAddr.Some? then request.remoteAddr.value else "localhost";
      keyLogin := "LoginLimit::login(" + name + ")";
      keyAddr := "LoginLimit::addr(" + (if Truthy(addr) then ToStr(addr) else fallback) + ")";
    }

    /** 0 before any attempt, then the last login count read back. */
    method GetLoginAttempts() returns (n: int)
      ensures n == attemptsLogin.GetOr(0)
    {
      n := if attemptsLogin.Some? then attemptsLogin.value else 0;
    }

    /** The per-username maximum; the per-address one is never published. */
    method GetMaxLoginAttempts() returns (m: int)
      ensures m == maxAttemptsLogin
    {
      m := maxAttemptsLogin;
    }

    method SetAttemptKey(key: string, inc: bool) returns (n: int)
      modifies this`warnings, memcache
      ensures var a := AdjustKey(old(memcache.Model()), key, inc);
              n == a.count && memcache.Model() == a.store && warnings == old(warnings) + (if a.warned then 1 else 0)
    {
      var r;
      if inc {
        r := memcache.Increment(key, 1);
      } else {
        r := memcache.Decrement(key, 1);
      }
      if r.Some? {
        n := r.value;
      } else {
        n := if inc then 1 else 0;
        var ok := memcache.Set(key, Int(n));
        if !ok {
          warnings := warnings + 1;  // "Login throttling may be broken."
        }
      }
    }

    method SetLoginAttempts(name: string, inc: bool) returns (login: Option<int>, address: int)
      modifies this, memcache
      ensures (State(), memcache.Model()) == Record(old(State()), old(memcache.Model()), request.remoteAddr, name, inc)
      ensures login == attemptsLogin && attemptsAddr == Some(address)
    {
      var keyLogin, keyAddr := GetKeys(name);
      if !EmptyString(name) {
        var n := SetAttemptKey(keyLogin, inc);
        attemptsLogin := Some(n);
      }
      address := SetAttemptKey(keyAddr, inc);
      attemptsAddr := Some(address);
      login := attemptsLogin;
    }

    method DecrementAttempts()
      modifies this, memcache
      ensures (State(), memcache.Model()) == DecrementStep(old(State()), old(memcache.Model()), request.remoteAddr)
    {
      var _, _ := SetLoginAttempts(username, false);
    }

    method Login(name: string, password: string) returns (r: Option<int>)
      modifies this, memcache
      ensures (r, State(), memcache.Model())
           == LoginStep(old(State()), old(memcache.Model()), request.remoteAddr, maxAttemptsLogin, maxAttemptsAddr, name)
    {
      username := name;
      var login, address := SetLoginAttempts(name, true);
      if (login.Some? && login.value > maxAttemptsLogin) || address > maxAttemptsAddr {
        return FAILURE;
      }
      r := NOOP;
    }
  }

  /** The per-username and per-address keys never collide. */
  lemma KeysDistinct(username: string, addr: Value, remote: Option<string>)
    ensures LoginKey(username) != AddrKey(addr, remote)
  {
    assert LoginKey(username)[12] == 'l';
    assert AddrKey(addr, remote)[12] == 'a';
  }

  /** Different usernames are counted under different keys. */
  lemma LoginKeyInjective(u1: string, u2: string)
    ensures LoginKey(u1) == LoginKey(u2) ==> u1 == u2
  {
    var k1, k2 := LoginKey(u1), LoginKey(u2);
    assert k1[18..|k1| - 1] == u1;
    assert k2[18..|k2| - 1] == u2;
  }

  /** The count a key's next increment or decrement starts from; None when `get` reads it as false. */
  function Counter(s: Store, key: string): Option<int> {
    var v := s.Get(key);
    if v == Bool(false) then None else Some(if IsNumeric(v) then NumericValue(v) else 0)
  }

  /** One adjustment of a counter: from an unreadable key to 1 (or 0), else by one. */
  function Bump(c: Option<int>, inc: bool): int {
    if c.None? then (if inc then 1 else 0) else if inc then c.value + 1 else c.value - 1
  }

  /** On a working store, adjusting a key stores and returns the bumped counter and touches nothing else. */
  lemma AdjustWorking(s: Store, key: string, inc: bool)
    requires !s.broken
    ensures AdjustKey(s, key, inc) == Adjusted(Bump(Counter(s, key), inc), s.(cache := s.cache[key := Int(Bump(Counter(s, key), inc))]), false)
  {
  }

  /** On a broken store the fallback value 1 or 0 is returned, nothing is stored, and a warning is logged. */
  lemma AdjustBroken(s: Store, key: string, inc: bool)
    requires s.broken
    ensures AdjustKey(s, key, inc) == Adjusted(if inc then 1 else 0, s, true)
  {
  }

  /**
   * Fail-open: with the store down and both maxima at least 1, a login is not
   * limited and the store is left as it was, as long as the username counter
   * is re-read (a non-empty username) or was not already above its maximum.
   */
  lemma FailOpen(t: Tracker, s: Store, remote: Option<string>, maxLogin: int, maxAddr: int, username: string)
    requires s.broken && maxLogin >= 1 && maxAddr >= 1
    requires !EmptyString(username) || !Above(t.attemptsLogin, maxLogin)
    ensures LoginStep(t, s, remote, maxLogin, maxAddr, username).0 == NOOP
    ensures LoginStep(t, s, remote, maxLogin, maxAddr, username).2 == s
    ensures LoginStep(t, s, remote, maxLogin, maxAddr, username).1.warnings > t.warnings
  {
    AdjustBroken(s, LoginKey(username), true);
    AdjustBroken(s, AddrKey(t.addr, remote), true);
  }

  /**
   * On a working store a login moves both counters up by one (the username
   * counter only for a non-empty username, which otherwise keeps its last
   * value) and fails exactly when a resulting count is above its maximum.
   */
  lemma LoginCounts(t: Tracker, s: Store, remote: Option<string>, maxLogin: int, maxAddr: int, username: string)
    requires !s.broken
    ensures var (vote, t1, s1) := LoginStep(t, s, remote, maxLogin, maxAddr, username);
      var keyLogin, keyAddr := LoginKey(username), AddrKey(t.addr, remote);
      && t1.username == username && t1.addr == t.addr
      && t1.attemptsLogin == (if EmptyString(username) then t.attemptsLogin else Some(Bump(Counter(s, keyLogin), true)))
      && t1.attemptsAddr == Some(Bump(Counter(s, keyAddr), true))
      && Counter(s1, keyAddr) == t1.attemptsAddr
      && (!EmptyString(username) ==> Counter(s1, keyLogin) == t1.attemptsLogin)
      && (EmptyString(username) ==> Counter(s1, keyLogin) == Counter(s, keyLogin))
      && (vote == FAILURE <==> Above(t1.attemptsLogin, maxLogin) || Above(t1.attemptsAddr, maxAddr))
      && (vote == NOOP <==> !(Above(t1.attemptsLogin, maxLogin) || Above(t1.attemptsAddr, maxAddr)))
      && t1.warnings == t.warnings && !s1.broken
      && (forall k :: k != keyLogin && k != keyAddr ==> Counter(s1, k) == Counter(s, k))
  {
    var keyLogin, keyAddr := LoginKey(username), AddrKey(t.addr, remote);
    KeysDistinct(username, t.addr, remote);
    AdjustWorking(s, keyLogin, true);
    var s1 := if EmptyString(username) then s else AdjustKey(s, keyLogin, true).store;
    AdjustWorking(s1, keyAddr, true);
  }

  /** On a working store a decrement moves the last username's counter and the address counter down by one. */
  lemma DecrementCounts(t: Tracker, s: Store, remote: Option<string>)
    requires !s.broken
    ensures var (t1, s1) := DecrementStep(t, s, remote);
      var keyLogin, keyAddr := LoginKey(t.username), AddrKey(t.addr, remote);
      && t1.attemptsAddr == Some(Bump(Counter(s, keyAddr), false))
      && Counter(s1, keyAddr) == t1.attemptsAddr
      && (!EmptyString(t.username) ==> t1.attemptsLogin == Some(Bump(Counter(s, keyLogin), false)) && Counter(s1, keyLogin) == t1.attemptsLogin)
      && (EmptyString(t.username) ==> t1.attemptsLogin == t.attemptsLogin && Counter(s1, keyLogin) == Counter(s, keyLogin))
      && t1.username == t.username && t1.addr == t.addr
      && t1.warnings == t.warnings && !s1.broken
      && (forall k :: k != keyLogin && k != keyAddr ==> Counter(s1, k) == Counter(s, k))
  {
    var keyLogin, keyAddr := LoginKey(t.username), AddrKey(t.addr, remote);
    KeysDistinct(t.username, t.addr, remote);
    AdjustWorking(s, keyLogin, false);
    var s1 := if EmptyString(t.username) then s else AdjustKey(s, keyLogin, false).store;
    AdjustWorking(s1, keyAddr, false);
  }
}
