/**
 * The login limiters as one family (LoginLimitPluginInterface), and the
 * state they share. Several limiter objects may read and write the same
 * cookie slot and the same store, and one object may sit in a chain more
 * than once, so their state is described as one `World`: the request's
 * cookie, the store, and each limiter object's own fields.
 */
module Limits {
  import opened Wrappers
  import opened Php
  import opened ResultCodes
  import opened FakeMemcacheStore
  import opened Http
  import opened CookieLimit
  import opened MemcacheLimit

  /** A cookie or memcache limiter object. */
  datatype Limiter = Cookie(c: CookieLoginLimiter) | Memcache(m: MemcacheLoginLimiter)

  /** The state every limiter reads or writes. */
  datatype World = World(cookie: Option<int>, store: Store,
                         counts: map<CookieLoginLimiter, Option<int>>,
                         trackers: map<MemcacheLoginLimiter, Tracker>)

  /** The world describes limiter `l`. */
  predicate Has(w: World, l: Limiter) {
    match l
    case Cookie(c) => c in w.counts
    case Memcache(m) => m in w.trackers
  }

  /** Both worlds describe the same limiter objects. */
  predicate SameKeys(w: World, w1: World) {
    w1.counts.Keys == w.counts.Keys && w1.trackers.Keys == w.trackers.Keys
  }

  /** The objects making up a world: the one request, the one store, and some limiters using them. */
  datatype Footprint = Footprint(request: Request, store: FakeMemcache,
                                 cookies: set<CookieLoginLimiter>,
                                 memcaches: set<MemcacheLoginLimiter>)
  {
    ghost function Objects(): set<object> {
      {request as object, store as object} + cookies + memcaches
    }

    /** Limiter `l` is one of these objects and uses this request and store. */
    predicate Holds(l: Limiter) {
      match l
      case Cookie(c) => c in cookies && c.request == request
      case Memcache(m) => m in memcaches && m.request == request && m.memcache == store
    }
  }

  /** The current world of a footprint. */
  ghost function WorldOf(fp: Footprint): (w: World)
    reads fp.Objects()
    ensures w.counts.Keys == fp.cookies && w.trackers.Keys == fp.memcaches
  {
    World(fp.request.cookie, fp.store.Model(),
          map c | c in fp.cookies :: c.attempts,
          map m | m in fp.memcaches :: m.State())
  }

  lemma HoldsHas(fp: Footprint, w: World, l: Limiter)
    requires fp.Holds(l) && w.counts.Keys == fp.cookies && w.trackers.Keys == fp.memcaches
    ensures Has(w, l)
  {
  }

  /** What `getLoginAttempts` reports, without the side effect of loading the cookie. */
  function Report(w: World, l: Limiter): int
    requires Has(w, l)
  {
    match l
    case Cookie(c) => Loaded(w.counts[c], w.cookie)
    case Memcache(m) => w.trackers[m].attemptsLogin.GetOr(0)
  }

  /** `getMaxLoginAttempts`: fixed at construction. */
  function MaxAttempts(l: Limiter): int {
    match l
    case Cookie(c) => c.maxAttempts
    case Memcache(m) => m.maxAttemptsLogin
  }

  /** `login` on one limiter. */
  function LimiterLogin(w: World, l: Limiter, username: string): (r: (Option<int>, World))
    requires Has(w, l)
    ensures SameKeys(w, r.1)
  {
    match l
    case Cookie(c) =>
      var n := Loaded(w.counts[c], w.cookie) + 1;
      (Verdict(n, c.maxAttempts), w.(cookie := Some(n), counts := w.counts[c := Some(n)]))
    case Memcache(m) =>
      var (vote, t, s) := LoginStep(w.trackers[m], w.store, m.request.remoteAddr,
                                    m.maxAttemptsLogin, m.maxAttemptsAddr, username);
      (vote, w.(store := s, trackers := w.trackers[m := t]))
  }

  /** `decrementAttempts` on one limiter. */
  function LimiterDecrement(w: World, l: Limiter): (w1: World)
    requires Has(w, l)
    ensures SameKeys(w, w1)
  {
    match l
    case Cookie(c) =>
      var n := Loaded(w.counts[c], w.cookie) - 1;
      w.(cookie := Some(n), counts := w.counts[c := Some(n)])
    case Memcache(m) =>
      var (t, s) := DecrementStep(w.trackers[m], w.store, m.request.remoteAddr);
      w.(store := s, trackers := w.trackers[m := t])
  }

  /** `getLoginAttempts` on one limiter: a cookie limiter caches what it read. */
  function LimiterAttempts(w: World, l: Limiter): (r: (int, World))
    requires Has(w, l)
    ensures SameKeys(w, r.1)
  {
    match l
    case Cookie(c) =>
      var n := Loaded(w.counts[c], w.cookie);
      (n, w.(counts := w.counts[c := Some(n)]))
    case Memcache(m) => (w.trackers[m].attemptsLogin.GetOr(0), w)
  }

  /** A limiter login casts FAILURE or NOOP, never SUCCESS or FORCE. */
  lemma LimiterLoginVotes(w: World, l: Limiter, username: string)
    requires Has(w, l)
    ensures LimiterLogin(w, l, username).0 in {FAILURE, NOOP}
  {
  }

  /**
   * Reading the attempts reports them and changes no limiter's report,
   * so reading them again, on any limiter, gives the same answers.
   */
  lemma AttemptsKeepReports(w: World, l: Limiter, other: Limiter)
    requires Has(w, l) && Has(w, other)
    ensures LimiterAttempts(w, l).0 == Report(w, l)
    ensures Has(LimiterAttempts(w, l).1, other)
    ensures Report(LimiterAttempts(w, l).1, other) == Report(w, other)
  {
  }

  /** After a login, a limiter reports the count that login reached. */
  lemma LoginThenReport(w: World, l: Limiter, username: string)
    requires Has(w, l)
    requires l.Memcache? ==> !EmptyString(username)
    ensures Has(LimiterLogin(w, l, username).1, l)
    ensures l.Cookie? ==> Report(LimiterLogin(w, l, username).1, l) == Report(w, l) + 1
    ensures l.Memcache? && !w.store.broken ==>
      Report(LimiterLogin(w, l, username).1, l) == Bump(Counter(w.store, LoginKey(username)), true)
  {
    if l.Memcache? && !w.store.broken {
      LoginCounts(w.trackers[l.m], w.store, l.m.request.remoteAddr, l.m.maxAttemptsLogin, l.m.maxAttemptsAddr, username);
    }
  }

  /** `login` on a limiter object. */
  method Login(l: Limiter, username: string, password: string, ghost fp: Footprint) returns (r: Option<int>)
    requires fp.Holds(l)
    modifies fp.Objects()
    ensures (r, WorldOf(fp)) == LimiterLogin(old(WorldOf(fp)), l, username)
  {
    ghost var w := WorldOf(fp);
    match l
    case Cookie(c) =>
      r := c.Login(username, password);
      assert WorldOf(fp).counts == w.counts[c := c.attempts];
      assert WorldOf(fp).store == w.store;
      assert WorldOf(fp).trackers == w.trackers;
      assert WorldOf(fp).cookie == c.attempts;
    case Memcache(m) =>
      r := m.Login(username, password);
      assert WorldOf(fp).trackers == w.trackers[m := m.State()];
      assert WorldOf(fp).counts == w.counts;
      assert WorldOf(fp).cookie == w.cookie;
  }

  /** `decrementAttempts` on a limiter object. */
  method Decrement(l: Limiter, ghost fp: Footprint)
    requires fp.Holds(l)
    modifies fp.Objects()
    ensures WorldOf(fp) == LimiterDecrement(old(WorldOf(fp)), l)
  {
    ghost var w := WorldOf(fp);
    match l
    case Cookie(c) =>
      c.DecrementAttempts();
      assert WorldOf(fp).counts == w.counts[c := c.attempts];
    case Memcache(m) =>
      m.DecrementAttempts();
      assert WorldOf(fp).trackers == w.trackers[m := m.State()];
  }

  /** `getLoginAttempts` on a limiter object. */
  method Attempts(l: Limiter, ghost fp: Footprint) returns (n: int)
    requires fp.Holds(l)
    modifies fp.Objects()
    ensures (n, WorldOf(fp)) == LimiterAttempts(old(WorldOf(fp)), l)
  {
    ghost var w := WorldOf(fp);
    match l
    case Cookie(c) =>
      n := c.GetLoginAttempts();
      assert WorldOf(fp).counts == w.counts[c := c.attempts];
      assert WorldOf(fp).store == w.store;
      assert WorldOf(fp).trackers == w.trackers;
      assert WorldOf(fp).cookie == w.cookie;
    case Memcache(m) =>
      n := m.GetLoginAttempts();
  }

  /** `getMaxLoginAttempts` on a limiter object. */
  method Max(l: Limiter) returns (n: int)
    ensures n == MaxAttempts(l)
  {
    match l
    case Cookie(c) => n := c.GetMaxLoginAttempts();
    case Memcache(m) => n := m.GetMaxLoginAttempts();
  }
}
