/**
 * The login-limit scenarios of the repository's tests, replayed on the
 * model: a SuccessPlugin followed by a limiter of five attempts passes
 * five logins, fails the sixth, and after two forgiven attempts passes
 * one more and fails the next.
 */
module Scenarios {
  import opened Wrappers
  import opened Php
  import opened ResultCodes
  import opened Votes
  import opened FakeMemcacheStore
  import opened Http
  import opened CookieLimit
  import opened MemcacheLimit
  import opened Limits
  import opened HybridLimit
  import opened AuthChain

  /** Behind a SuccessPlugin, a login passes exactly when the limiter (or hybrid) does not vote FAILURE. */
  lemma GuardedLogin(w: World, k: Kind, username: string)
    requires Known(w, k) && (k.Limit? || k.Hybrid?)
    ensures var (o, w1) := PluginCall(w, k, OnLogin, username);
      RunFrom(w, [Success, k], OnLogin, username, false) == (Done(o == Voted(NOOP)), w1)
  {
    var ks := [Success, k];
    assert ks[1..] == [k];
    assert [k][1..] == [];
    LimitersFailOrAbstain(w, k, username);
    var (o, w1) := PluginCall(w, k, OnLogin, username);
    assert RunFrom(w, ks, OnLogin, username, false) == RunFrom(w, [k], OnLogin, username, true);
    if o == Voted(NOOP) {
      assert Continues(o);
      assert RunFrom(w, [k], OnLogin, username, true) == RunFrom(w1, [], OnLogin, username, true);
    } else {
      assert !Continues(o) && Decide(o) == Done(false);
    }
  }

  /** A chain of a SuccessPlugin and the cookie limiter `lim`, the limiter's objects being `fp`. */
  predicate CookieChain(auth: Auth, lim: CookieLoginLimiter, fp: Footprint)
    reads auth
  {
    auth.Kinds() == [Success, Limit(Cookie(lim))] && fp.Holds(Cookie(lim))
  }

  /** One `$auth->login('u', 'p')` on a cookie chain. */
  method CookieLogin(auth: Auth, lim: CookieLoginLimiter, ghost fp: Footprint) returns (r: ActionResult)
    requires CookieChain(auth, lim, fp) && auth.Within(fp)
    modifies fp.Objects()
    ensures lim.attempts == Some(Loaded(old(lim.attempts), old(lim.request.cookie)) + 1)
    ensures lim.request.cookie == lim.attempts
    ensures r == Done(lim.attempts.value <= lim.maxAttempts)
  {
    GuardedLogin(WorldOf(fp), Limit(Cookie(lim)), "u");
    r := auth.Login("u", "p", fp);
  }

  /** One `$auth->decrementAttempts()` on a cookie chain. */
  method CookieForgive(auth: Auth, lim: CookieLoginLimiter, ghost fp: Footprint)
    requires CookieChain(auth, lim, fp) && auth.Within(fp)
    modifies fp.Objects()
    ensures lim.attempts == Some(Loaded(old(lim.attempts), old(lim.request.cookie)) - 1)
    ensures lim.request.cookie == lim.attempts
  {
    assert Implementer(auth.Kinds(), "decrementAttempts") == Some(1);
    var _ := auth.Call("decrementAttempts", [], fp);
  }

  /** `$auth->getLoginAttempts()` and `$auth->getMaxLoginAttempts()` on a cookie chain; the first loads the cookie. */
  method CookieQueries(auth: Auth, lim: CookieLoginLimiter, ghost fp: Footprint) returns (attempts: CallResult, max: CallResult)
    requires CookieChain(auth, lim, fp) && auth.Within(fp)
    modifies fp.Objects()
    ensures attempts == Answered(Int(Loaded(old(lim.attempts), old(lim.request.cookie))))
    ensures max == Answered(Int(lim.maxAttempts))
    ensures lim.attempts == Some(Loaded(old(lim.attempts), old(lim.request.cookie)))
    ensures lim.request.cookie == old(lim.request.cookie)
  {
    assert Implementer(auth.Kinds(), "getLoginAttempts") == Some(1);
    attempts := auth.Call("getLoginAttempts", [], fp);
    assert Implementer(auth.Kinds(), "getMaxLoginAttempts") == Some(1);
    max := auth.Call("getMaxLoginAttempts", [], fp);
  }

  /** Builds the cookie chain of the test, with a limit of five attempts. */
  method CookieSetup() returns (auth: Auth, lim: CookieLoginLimiter, ghost fp: Footprint)
    ensures fresh(auth) && fresh(fp.Objects())
    ensures CookieChain(auth, lim, fp) && auth.Within(fp)
    ensures lim.maxAttempts == 5 && lim.attempts == None && lim.request.cookie == None
  {
    var request := new Request(None, None);
    var store := new FakeMemcache();
    lim := new CookieLoginLimiter(5, CookieLimit.TIMEOUT, request);
    var first := new Plugin(Success);
    var second := new Plugin(Limit(Cookie(lim)));
    auth := new Auth();
    var _ := auth.AddPlugin(Instance(first), map[], true);
    var _ := auth.AddPlugin(Instance(second), map[], true);
    fp := Footprint(request, store, {lim}, {});
  }

  method CookieScenario() returns (attempts: CallResult, max: CallResult, results: seq<ActionResult>)
    ensures attempts == Answered(Int(0)) && max == Answered(Int(5))
    ensures results == [Done(true), Done(true), Done(true), Done(true), Done(true), Done(false), Done(true), Done(false)]
  {
    var auth, lim, fp := CookieSetup();
    attempts, max := CookieQueries(auth, lim, fp);
    results := [];
    for i := 0 to 6
      invariant |results| == i && forall j :: 0 <= j < i ==> results[j] == Done(j < 5)
      invariant lim.attempts == Some(i)
      invariant CookieChain(auth, lim, fp) && auth.Within(fp)
    {
      var r := CookieLogin(auth, lim, fp);
      results := results + [r];
    }
    CookieForgive(auth, lim, fp);
    CookieForgive(auth, lim, fp);
    var r := CookieLogin(auth, lim, fp);
    var r' := CookieLogin(auth, lim, fp);
    results := results + [r, r'];
  }

  /** One step of a test: a login, a pass-through call, or the test breaking or mending the store. */
  datatype Op = LoginOp(username: string) | CallOp(name: string, args: seq<Value>) | BreakStore(broken: bool)

  /** What a step gives back. */
  datatype Answer = Acted(r: ActionResult) | Passed(c: CallResult) | Quiet

  predicate Callable(ops: seq<Op>) {
    forall i :: 0 <= i < |ops| ==> ops[i].CallOp? ==> ops[i].name !in AuthMethods
  }

  function Perform(w: World, ks: seq<Kind>, op: Op): (r: (Answer, World))
    requires AllKnown(w, ks) && (op.CallOp? ==> op.name !in AuthMethods)
    ensures SameKeys(w, r.1)
  {
    match op
    case LoginOp(username) => var (a, w1) := RunFrom(w, ks, OnLogin, username, false); (Acted(a), w1)
    // The tests share no logger, so the logger a plugin reads is null.
    case CallOp(name, args) => var (c, w1) := PassThrough(w, ks, name, args, Null); (Passed(c), w1)
    case BreakStore(b) => (Quiet, w.(store := w.store.(broken := b)))
  }

  /** A test run on a chain: the answers of the steps in order, and the world after them. */
  function Replay(w: World, ks: seq<Kind>, ops: seq<Op>): (r: (seq<Answer>, World))
    requires AllKnown(w, ks) && Callable(ops)
    ensures SameKeys(w, r.1) && |r.0| == |ops|
    decreases |ops|
  {
    if ops == [] then ([], w)
    else
      var (a, w1) := Perform(w, ks, ops[0]);
      KnownStays(w, w1, ks);
      var (rest, w2) := Replay(w1, ks, ops[1..]);
      ([a] + rest, w2)
  }

  /** `n` logins as user "u". */
  function Logins(n: nat): (ops: seq<Op>)
    ensures Callable(ops)
  {
    seq(n, _ => LoginOp("u"))
  }

  /** `k` logins that all pass. */
  function Passes(k: nat): (answers: seq<Answer>)
    ensures |answers| == k && forall j :: 0 <= j < k ==> answers[j] == Acted(Done(true))
  {
    seq(k, _ => Acted(Done(true)))
  }

  /** The answers of `k` logins from `n` earlier attempts: each passes while its count is within both maxima. */
  function LimitAnswers(n: int, k: nat, max1: int, max2: int): (answers: seq<Answer>)
    ensures |answers| == k
    ensures forall j :: 0 <= j < k ==> answers[j] == Acted(Done(n + j + 1 <= max1 && n + j + 1 <= max2))
    decreases k
  {
    if k == 0 then [] else [Acted(Done(n + 1 <= max1 && n + 1 <= max2))] + LimitAnswers(n + 1, k - 1, max1, max2)
  }

  /** A SuccessPlugin followed by the memcache limiter `m`. */
  function MemcacheChain(m: MemcacheLoginLimiter): seq<Kind> {
    [Success, Limit(Memcache(m))]
  }

  /** The test's keys: user "u" from address "localhost". */
  const UserKey: string := LoginKey("u")
  const HostKey: string := AddrKey(Str("localhost"), None)

  /** The memcache limiter `m` works for user "u" at "localhost", and both of its counters stand at `n`. */
  predicate Stands(w: World, m: MemcacheLoginLimiter, n: int) {
    && m in w.trackers && AllKnown(w, MemcacheChain(m)) && !w.store.broken && m.request.remoteAddr == None
    && w.trackers[m].addr == Str("localhost") && w.trackers[m].username == "u"
    && Counter(w.store, UserKey) == Some(n) && Counter(w.store, HostKey) == Some(n)
  }

  /** The memcache limiter `m` has its address set to "localhost", and neither counter is in the working store yet. */
  predicate Begins(w: World, m: MemcacheLoginLimiter) {
    && m in w.trackers && AllKnown(w, MemcacheChain(m)) && !w.store.broken && m.request.remoteAddr == None
    && w.trackers[m].addr == Str("localhost")
    && Counter(w.store, UserKey) == None && Counter(w.store, HostKey) == None
  }

  /** Both counters read as `n`: they stand at `n`, or are both unset and `n` is 0. */
  predicate Counts(w: World, m: MemcacheLoginLimiter, n: int) {
    Stands(w, m, n) || (n == 0 && Begins(w, m))
  }

  /** Behind a SuccessPlugin, a login is the memcache limiter's login step, and passes when that step does not vote FAILURE. */
  lemma MemcacheChainLogin(w: World, m: MemcacheLoginLimiter, username: string)
    requires m in w.trackers
    ensures var (vote, t, s) := LoginStep(w.trackers[m], w.store, m.request.remoteAddr, m.maxAttemptsLogin, m.maxAttemptsAddr, username);
      RunFrom(w, MemcacheChain(m), OnLogin, username, false)
        == (Done(vote == NOOP), w.(store := s, trackers := w.trackers[m := t]))
  {
    GuardedLogin(w, Limit(Memcache(m)), username);
  }

  /** From counters reading `n`, a login moves both to `n + 1` and passes while both maxima allow it. */
  lemma MemcacheLoginStep(w: World, m: MemcacheLoginLimiter, n: int)
    requires Counts(w, m, n)
    ensures AllKnown(w, MemcacheChain(m))
    ensures var (a, w1) := Perform(w, MemcacheChain(m), LoginOp("u"));
      a == Acted(Done(n + 1 <= m.maxAttemptsLogin && n + 1 <= m.maxAttemptsAddr)) && Stands(w1, m, n + 1)
  {
    MemcacheChainLogin(w, m, "u");
    LoginCounts(w.trackers[m].(username := "u"), w.store, None, m.maxAttemptsLogin, m.maxAttemptsAddr, "u");
    KnownStays(w, Perform(w, MemcacheChain(m), LoginOp("u")).1, MemcacheChain(m));
  }

  /** From counters standing at `n`, forgiving an attempt moves both to `n - 1`. */
  lemma MemcacheForgiveStep(w: World, m: MemcacheLoginLimiter, n: int)
    requires Stands(w, m, n)
    ensures AllKnown(w, MemcacheChain(m))
    ensures var (a, w1) := Perform(w, MemcacheChain(m), CallOp("decrementAttempts", []));
      a == Passed(Answered(Null)) && Stands(w1, m, n - 1)
  {
    assert Implementer(MemcacheChain(m), "decrementAttempts") == Some(1);
    DecrementCounts(w.trackers[m], w.store, None);
    KnownStays(w, Perform(w, MemcacheChain(m), CallOp("decrementAttempts", [])).1, MemcacheChain(m));
  }

  /** `k` logins from counters reading `n`: the j-th passes exactly while n + j + 1 is within both maxima. */
  lemma {:induction false} MemcacheLoginRun(w: World, m: MemcacheLoginLimiter, n: int, k: nat)
    requires Counts(w, m, n)
    ensures AllKnown(w, MemcacheChain(m))
    ensures var (answers, w1) := Replay(w, MemcacheChain(m), Logins(k));
      && answers == LimitAnswers(n, k, m.maxAttemptsLogin, m.maxAttemptsAddr)
      && Counts(w1, m, n + k)
    decreases k
  {
    if k > 0 {
      var (a, w1) := Perform(w, MemcacheChain(m), LoginOp("u"));
      MemcacheLoginStep(w, m, n);
      MemcacheLoginRun(w1, m, n + 1, k - 1);
      assert Logins(k)[0] == LoginOp("u") && Logins(k)[1..] == Logins(k - 1);
    }
  }

  /** `k` logins from counters reading `n` all pass when `n + k` is within both maxima. */
  lemma MemcacheLoginsPass(w: World, m: MemcacheLoginLimiter, n: int, k: nat)
    requires Counts(w, m, n) && n + k <= m.maxAttemptsLogin && n + k <= m.maxAttemptsAddr
    ensures AllKnown(w, MemcacheChain(m))
    ensures Replay(w, MemcacheChain(m), Logins(k)).0 == Passes(k) && Counts(Replay(w, MemcacheChain(m), Logins(k)).1, m, n + k)
  {
    MemcacheLoginRun(w, m, n, k);
  }

  /** The memcache test's first queries: on a fresh limiter of five logins, nothing attempted out of five. */
  lemma MemcacheQueries(w: World, m: MemcacheLoginLimiter)
    requires m in w.trackers && w.trackers[m].attemptsLogin == None
    requires m.maxAttemptsLogin == 5
    ensures AllKnown(w, MemcacheChain(m))
    ensures Perform(w, MemcacheChain(m), CallOp("getLoginAttempts", [])) == (Passed(Answered(Int(0))), w)
    ensures Perform(w, MemcacheChain(m), CallOp("getMaxLoginAttempts", [])) == (Passed(Answered(Int(5))), w)
  {
    var ks := MemcacheChain(m);
    assert Implementer(ks, "getLoginAttempts") == Some(1);
    assert Implementer(ks, "getMaxLoginAttempts") == Some(1);
  }

  /**
   * The memcache test's loop: at "localhost" with an empty working store and
   * a limit of five logins, five logins pass and the sixth fails.
   */
  lemma MemcacheFirstFailure(w: World, m: MemcacheLoginLimiter) returns (w1: World, w2: World)
    requires Begins(w, m) && m.maxAttemptsLogin == 5 && m.maxAttemptsAddr == MAX_ADDR
    ensures AllKnown(w, MemcacheChain(m))
    ensures Replay(w, MemcacheChain(m), Logins(5)) == (Passes(5), w1) && AllKnown(w1, MemcacheChain(m))
    ensures Perform(w1, MemcacheChain(m), LoginOp("u")) == (Acted(Done(false)), w2)
    ensures Stands(w2, m, 6)
  {
    MemcacheLoginsPass(w, m, 0, 5);
    w1 := Replay(w, MemcacheChain(m), Logins(5)).1;
    MemcacheLoginStep(w1, m, 5);
    w2 := Perform(w1, MemcacheChain(m), LoginOp("u")).1;
  }

  /** The memcache test's two forgiven attempts bring both counters from 6 back to 4. */
  lemma MemcacheRewind(w2: World, m: MemcacheLoginLimiter) returns (w3: World, w4: World)
    requires Stands(w2, m, 6)
    ensures AllKnown(w2, MemcacheChain(m))
    ensures Perform(w2, MemcacheChain(m), CallOp("decrementAttempts", [])) == (Passed(Answered(Null)), w3) && AllKnown(w3, MemcacheChain(m))
    ensures Perform(w3, MemcacheChain(m), CallOp("decrementAttempts", [])) == (Passed(Answered(Null)), w4)
    ensures Stands(w4, m, 4)
  {
    MemcacheForgiveStep(w2, m, 6);
    w3 := Perform(w2, MemcacheChain(m), CallOp("decrementAttempts", [])).1;
    MemcacheForgiveStep(w3, m, 5);
    w4 := Perform(w3, MemcacheChain(m), CallOp("decrementAttempts", [])).1;
  }

  /**
   * The end of the memcache test, counters at 4: a pass and a failure; then,
   * once the store is broken, a pass.
   */
  lemma MemcacheRetry(w4: World, m: MemcacheLoginLimiter) returns (w5: World, w6: World, w7: World)
    requires Stands(w4, m, 4) && m.maxAttemptsLogin == 5 && m.maxAttemptsAddr == MAX_ADDR
    ensures AllKnown(w4, MemcacheChain(m))
    ensures Perform(w4, MemcacheChain(m), LoginOp("u")) == (Acted(Done(true)), w5) && AllKnown(w5, MemcacheChain(m))
    ensures Perform(w5, MemcacheChain(m), LoginOp("u")) == (Acted(Done(false)), w6) && AllKnown(w6, MemcacheChain(m))
    ensures Perform(w6, MemcacheChain(m), BreakStore(true)) == (Quiet, w7) && AllKnown(w7, MemcacheChain(m))
    ensures Perform(w7, MemcacheChain(m), LoginOp("u")).0 == Acted(Done(true))
  {
    var ks := MemcacheChain(m);
    MemcacheLoginStep(w4, m, 4);
    w5 := Perform(w4, ks, LoginOp("u")).1;
    MemcacheLoginStep(w5, m, 5);
    w6 := Perform(w5, ks, LoginOp("u")).1;
    w7 := w6.(store := w6.store.(broken := true));
    assert AllKnown(w7, ks);
    FailOpen(w7.trackers[m], w7.store, None, m.maxAttemptsLogin, m.maxAttemptsAddr, "u");
    MemcacheChainLogin(w7, m, "u");
  }

  /** A SuccessPlugin followed by the hybrid limiter `h`. */
  function HybridChain(h: HybridLoginLimiter): seq<Kind> {
    [Success, Hybrid(h)]
  }

  /** The hybrid `h` holds two distinct cookie limiters, whose counts stand at `a` and `b`. */
  predicate Pair(w: World, h: HybridLoginLimiter, c1: CookieLoginLimiter, c2: CookieLoginLimiter, a: int, b: int) {
    && h.limiters == [Cookie(c1), Cookie(c2)] && c1 != c2
    && c1 in w.counts && c2 in w.counts && AllKnown(w, HybridChain(h))
    && w.counts[c1] == Some(a) && w.counts[c2] == Some(b)
  }

  /** The hybrid `h` holds two distinct cookie limiters, neither has read the cookie, and no cookie was sent. */
  predicate Unread(w: World, h: HybridLoginLimiter, c1: CookieLoginLimiter, c2: CookieLoginLimiter) {
    && h.limiters == [Cookie(c1), Cookie(c2)] && c1 != c2
    && c1 in w.counts && c2 in w.counts && AllKnown(w, HybridChain(h))
    && w.counts[c1] == None && w.counts[c2] == None && w.cookie == None
  }
  /**
   * One login through the hybrid: the first child counts the attempt and,
   * over its maximum, fails the login before the second child is asked;
   * otherwise the second child counts it too and decides.
   */
  lemma HybridLoginStep(w: World, h: HybridLoginLimiter, c1: CookieLoginLimiter, c2: CookieLoginLimiter, a: int, b: int)
    requires Pair(w, h, c1, c2, a, b)
    ensures AllKnown(w, HybridChain(h))
    ensures var (answer, w1) := Perform(w, HybridChain(h), LoginOp("u"));
      if a + 1 > c1.maxAttempts then answer == Acted(Done(false)) && Pair(w1, h, c1, c2, a + 1, b)
      else answer == Acted(Done(b + 1 <= c2.maxAttempts)) && Pair(w1, h, c1, c2, a + 1, b + 1)
  {
    GuardedLogin(w, Hybrid(h), "u");
    var ls := h.limiters;
    var (v1, w1) := LimiterLogin(w, ls[0], "u");
    assert v1 == Verdict(a + 1, c1.maxAttempts) && w1.counts == w.counts[c1 := Some(a + 1)];
    assert ls[1..] == [Cookie(c2)];
    if !Decisive(v1) {
      assert [Cookie(c2)][1..] == [];
      var (v2, w2) := LimiterLogin(w1, Cookie(c2), "u");
      assert v2 == Verdict(b + 1, c2.maxAttempts) && w2.counts == w1.counts[c2 := Some(b + 1)];
      assert LoginFrom(w, ls, "u", NOOP) == LoginFrom(w1, [Cookie(c2)], "u", NOOP);
      assert LoginFrom(w1, [Cookie(c2)], "u", NOOP) == (v2, w2);
    }
    KnownStays(w, Perform(w, HybridChain(h), LoginOp("u")).1, HybridChain(h));
  }

  /** `k` logins through the hybrid while the first child stays within its maximum: the second child decides each. */
  lemma {:induction false} HybridLoginRun(w: World, h: HybridLoginLimiter, c1: CookieLoginLimiter, c2: CookieLoginLimiter,
                                          a: int, b: int, k: nat)
    requires Pair(w, h, c1, c2, a, b) && a + k <= c1.maxAttempts
    ensures AllKnown(w, HybridChain(h))
    ensures var (answers, w1) := Replay(w, HybridChain(h), Logins(k));
      answers == seq(k, j => Acted(Done(b + j + 1 <= c2.maxAttempts))) && Pair(w1, h, c1, c2, a + k, b + k)
    decreases k
  {
    if k > 0 {
      var (_, w1) := Perform(w, HybridChain(h), LoginOp("u"));
      HybridLoginStep(w, h, c1, c2, a, b);
      HybridLoginRun(w1, h, c1, c2, a + 1, b + 1, k - 1);
      assert Logins(k)[0] == LoginOp("u") && Logins(k)[1..] == Logins(k - 1);
    }
  }

  /** `k` logins through the hybrid all pass while both children stay within their maxima. */
  lemma HybridLoginsPass(w: World, h: HybridLoginLimiter, c1: CookieLoginLimiter, c2: CookieLoginLimiter,
                         a: int, b: int, k: nat)
    requires Pair(w, h, c1, c2, a, b) && a + k <= c1.maxAttempts && b + k <= c2.maxAttempts
    ensures AllKnown(w, HybridChain(h))
    ensures Replay(w, HybridChain(h), Logins(k)).0 == Passes(k) && Pair(Replay(w, HybridChain(h), Logins(k)).1, h, c1, c2, a + k, b + k)
  {
    HybridLoginRun(w, h, c1, c2, a, b, k);
  }

  /** Forgiving an attempt through the hybrid takes one off each child's count. */
  lemma HybridForgiveStep(w: World, h: HybridLoginLimiter, c1: CookieLoginLimiter, c2: CookieLoginLimiter, a: int, b: int)
    requires Pair(w, h, c1, c2, a, b)
    ensures AllKnown(w, HybridChain(h))
    ensures var (answer, w1) := Perform(w, HybridChain(h), CallOp("decrementAttempts", []));
      answer == Passed(Answered(Null)) && Pair(w1, h, c1, c2, a - 1, b - 1)
  {
    assert Implementer(HybridChain(h), "decrementAttempts") == Some(1);
    var ls := h.limiters;
    assert ls[1..] == [Cookie(c2)] && [Cookie(c2)][1..] == [];
    var w1 := LimiterDecrement(w, Cookie(c1));
    assert w1.counts == w.counts[c1 := Some(a - 1)];
    var w2 := LimiterDecrement(w1, Cookie(c2));
    assert w2.counts == w1.counts[c2 := Some(b - 1)];
    assert DecrementFrom(w, ls) == DecrementFrom(w1, [Cookie(c2)]) == w2;
    KnownStays(w, Perform(w, HybridChain(h), CallOp("decrementAttempts", [])).1, HybridChain(h));
  }

  /** Reading the attempts through the hybrid loads both children from the absent cookie, at 0. */
  lemma HybridReadAttempts(w: World, h: HybridLoginLimiter, c1: CookieLoginLimiter, c2: CookieLoginLimiter)
    requires Unread(w, h, c1, c2)
    ensures AllKnown(w, HybridChain(h))
    ensures var (answer, w1) := Perform(w, HybridChain(h), CallOp("getLoginAttempts", []));
      answer == Passed(Answered(Int(0))) && Pair(w1, h, c1, c2, 0, 0)
  {
    var ks := HybridChain(h);
    var ls := h.limiters;
    assert ls[1..] == [Cookie(c2)] && [Cookie(c2)][1..] == [];
    assert Implementer(ks, "getLoginAttempts") == Some(1);
    var (n1, v1) := LimiterAttempts(w, Cookie(c1));
    assert n1 == 0 && v1.counts == w.counts[c1 := Some(0)] && v1.cookie == None;
    var (n2, v2) := LimiterAttempts(v1, Cookie(c2));
    assert n2 == 0 && v2.counts == v1.counts[c2 := Some(0)];
    assert AttemptsFrom(w, ls, 0) == AttemptsFrom(v1, [Cookie(c2)], 0) == (0, v2);
    KnownStays(w, v2, ks);
  }

  /**
   * The hybrid test's first queries, two cookie limiters of five sharing one
   * request: nothing attempted out of five; reading the attempts loads both
   * children at 0.
   */
  lemma HybridQueries(w: World, h: HybridLoginLimiter, c1: CookieLoginLimiter, c2: CookieLoginLimiter) returns (w1: World)
    requires Unread(w, h, c1, c2) && c1.maxAttempts == 5 && c2.maxAttempts == 5
    ensures AllKnown(w, HybridChain(h))
    ensures Perform(w, HybridChain(h), CallOp("getLoginAttempts", [])) == (Passed(Answered(Int(0))), w1) && AllKnown(w1, HybridChain(h))
    ensures Perform(w1, HybridChain(h), CallOp("getMaxLoginAttempts", [])) == (Passed(Answered(Int(5))), w1)
    ensures Pair(w1, h, c1, c2, 0, 0)
  {
    HybridReadAttempts(w, h, c1, c2);
    w1 := Perform(w, HybridChain(h), CallOp("getLoginAttempts", [])).1;
    assert Implementer(HybridChain(h), "getMaxLoginAttempts") == Some(1);
    assert Smallest(h.limiters, PHP_INT_MAX) == 5;
  }

  /** The hybrid test's loop: from both children at 0, five logins pass and the first child fails the sixth. */
  lemma HybridFirstFailure(w1: World, h: HybridLoginLimiter, c1: CookieLoginLimiter, c2: CookieLoginLimiter)
    returns (w2: World, w3: World)
    requires Pair(w1, h, c1, c2, 0, 0) && c1.maxAttempts == 5 && c2.maxAttempts == 5
    ensures AllKnown(w1, HybridChain(h))
    ensures Replay(w1, HybridChain(h), Logins(5)) == (Passes(5), w2) && AllKnown(w2, HybridChain(h))
    ensures Perform(w2, HybridChain(h), LoginOp("u")) == (Acted(Done(false)), w3)
    ensures Pair(w3, h, c1, c2, 6, 5)
  {
    HybridLoginsPass(w1, h, c1, c2, 0, 0, 5);
    w2 := Replay(w1, HybridChain(h), Logins(5)).1;
    HybridLoginStep(w2, h, c1, c2, 5, 5);
    w3 := Perform(w2, HybridChain(h), LoginOp("u")).1;
  }

  /**
   * The rest of the hybrid test: two forgiven attempts bring the children
   * to 4 and 3, after which one login passes and the next fails.
   */
  lemma HybridRewind(w3: World, h: HybridLoginLimiter, c1: CookieLoginLimiter, c2: CookieLoginLimiter)
    returns (w4: World, w5: World, w6: World)
    requires Pair(w3, h, c1, c2, 6, 5) && c1.maxAttempts == 5 && c2.maxAttempts == 5
    ensures AllKnown(w3, HybridChain(h))
    ensures Perform(w3, HybridChain(h), CallOp("decrementAttempts", [])) == (Passed(Answered(Null)), w4) && AllKnown(w4, HybridChain(h))
    ensures Perform(w4, HybridChain(h), CallOp("decrementAttempts", [])) == (Passed(Answered(Null)), w5) && AllKnown(w5, HybridChain(h))
    ensures Perform(w5, HybridChain(h), LoginOp("u")) == (Acted(Done(true)), w6) && AllKnown(w6, HybridChain(h))
    ensures Perform(w6, HybridChain(h), LoginOp("u")).0 == Acted(Done(false))
  {
    var ks := HybridChain(h);
    HybridForgiveStep(w3, h, c1, c2, 6, 5);
    w4 := Perform(w3, ks, CallOp("decrementAttempts", [])).1;
    HybridForgiveStep(w4, h, c1, c2, 5, 4);
    w5 := Perform(w4, ks, CallOp("decrementAttempts", [])).1;
    HybridLoginStep(w5, h, c1, c2, 4, 3);
    w6 := Perform(w5, ks, LoginOp("u")).1;
    HybridLoginStep(w6, h, c1, c2, 5, 4);
  }

  /**
   * Without the first `getLoginAttempts`, the children share the cookie
   * unloaded: the first login loads 0 into the first child and writes 1,
   * which the second child then loads, so the second runs one ahead.
   */
  lemma HybridFreshLogin(w: World, h: HybridLoginLimiter, c1: CookieLoginLimiter, c2: CookieLoginLimiter)
    requires Unread(w, h, c1, c2) && c1.maxAttempts >= 1
    ensures AllKnown(w, HybridChain(h))
    ensures var (answer, w1) := Perform(w, HybridChain(h), LoginOp("u"));
      answer == Acted(Done(2 <= c2.maxAttempts)) && Pair(w1, h, c1, c2, 1, 2)
  {
    GuardedLogin(w, Hybrid(h), "u");
    var ls := h.limiters;
    var (v1, w1) := LimiterLogin(w, ls[0], "u");
    assert v1 == NOOP && w1.counts == w.counts[c1 := Some(1)] && w1.cookie == Some(1);
    assert ls[1..] == [Cookie(c2)] && [Cookie(c2)][1..] == [];
    var (v2, w2) := LimiterLogin(w1, Cookie(c2), "u");
    assert v2 == Verdict(2, c2.maxAttempts) && w2.counts == w1.counts[c2 := Some(2)];
    assert LoginFrom(w, ls, "u", NOOP) == LoginFrom(w1, [Cookie(c2)], "u", NOOP);
    assert LoginFrom(w1, [Cookie(c2)], "u", NOOP) == (v2, w2);
    KnownStays(w, w2, HybridChain(h));
  }

  /**
   * The hybrid test without its first `getLoginAttempts`: with both
   * children at five, only four logins pass and the fifth fails.
   */
  lemma HybridWithoutQuery(w: World, h: HybridLoginLimiter, c1: CookieLoginLimiter, c2: CookieLoginLimiter)
    returns (w1: World, w2: World)
    requires Unread(w, h, c1, c2) && c1.maxAttempts == 5 && c2.maxAttempts == 5
    ensures AllKnown(w, HybridChain(h))
    ensures Perform(w, HybridChain(h), LoginOp("u")) == (Acted(Done(true)), w1) && AllKnown(w1, HybridChain(h))
    ensures Replay(w1, HybridChain(h), Logins(3)) == (Passes(3), w2) && AllKnown(w2, HybridChain(h))
    ensures Perform(w2, HybridChain(h), LoginOp("u")).0 == Acted(Done(false))
  {
    var ks := HybridChain(h);
    HybridFreshLogin(w, h, c1, c2);
    w1 := Perform(w, ks, LoginOp("u")).1;
    HybridLoginsPass(w1, h, c1, c2, 1, 2, 3);
    w2 := Replay(w1, ks, Logins(3)).1;
    HybridLoginStep(w2, h, c1, c2, 4, 5);
  }
}
