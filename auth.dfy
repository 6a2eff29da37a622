/**
 * The Auth class (src/Auth.php) and the plugin base class
 * (src/BaseAuthPlugin.php): an append-only chain of plugins that vote on
 * login, logout and verify, a pass-through for any other plugin method,
 * and a shared key/value map for plugins.
 */
module AuthChain {
  import opened Wrappers
  import opened Php
  import opened ResultCodes
  import opened Votes
  import opened Limits
  import opened HybridLimit
  import opened MemcacheLimit

  /** The three lifecycle actions, by the plugin method each calls. */
  datatype Hook = OnLogin | OnLogout | OnVerify

  /**
   * The class of a plugin object, as far as the chain can tell. `Scripted`
   * stands for a plugin whose code is not part of this model: each
   * lifecycle method has the outcome `answer`, and `extras` lists its
   * other public methods with their outcomes.
   */
  datatype Kind =
    | Defaults                       // keeps BaseAuthPlugin's login/logout/verify
    | Success                        // SuccessPlugin
    | Limit(l: Limiter)              // CookieLoginLimitPlugin or MemcacheLoginLimitPlugin
    | Hybrid(h: HybridLoginLimiter)  // HybridLoginLimitPlugin
    | Scripted(answer: Outcome, extras: map<string, Outcome>)

  /** The objects behind a kind are in the footprint. */
  predicate Serves(fp: Footprint, k: Kind) {
    match k
    case Limit(l) => fp.Holds(l)
    case Hybrid(h) => h.Within(fp)
    case _ => true
  }

  /** The world describes the objects behind a kind. */
  predicate Known(w: World, k: Kind) {
    match k
    case Limit(l) => Has(w, l)
    case Hybrid(h) => AllHeld(w, h.limiters)
    case _ => true
  }

  lemma ServesKnown(fp: Footprint, w: World, k: Kind)
    requires Serves(fp, k) && w.counts.Keys == fp.cookies && w.trackers.Keys == fp.memcaches
    ensures Known(w, k)
  {
    if k.Hybrid? {
      k.h.WithinHeld(fp, w);
      assert k.h.limiters[0..] == k.h.limiters;
    }
  }

  /** A limiter's vote as the PHP method returns it. */
  function Voted(v: Option<int>): Outcome {
    Returned(AsValue(v))
  }

  /** One plugin's lifecycle method: its outcome and the world after it. */
  function PluginCall(w: World, k: Kind, act: Hook, username: string): (r: (Outcome, World))
    requires Known(w, k)
    ensures SameKeys(w, r.1)
  {
    match k
    case Defaults => (Returned(Null), w)
    case Success => (Returned(Int(0)), w)
    case Limit(l) =>
      if act == OnLogin then var (v, w1) := LimiterLogin(w, l, username); (Voted(v), w1)
      else (Returned(Null), w)
    case Hybrid(h) =>
      if act == OnLogin then var (v, w1) := LoginFrom(w, h.limiters, username, NOOP); (Voted(v), w1)
      else (Returned(Null), w)
    case Scripted(answer, _) => (answer, w)
  }

  /** Every plugin in the list is described by the world. */
  predicate AllKnown(w: World, ks: seq<Kind>) {
    forall i :: 0 <= i < |ks| ==> Known(w, ks[i])
  }

  lemma KnownStays(w: World, w1: World, ks: seq<Kind>)
    requires AllKnown(w, ks) && SameKeys(w, w1)
    ensures AllKnown(w1, ks)
  {
    forall i | 0 <= i < |ks| ensures Known(w1, ks[i]) {
      if ks[i].Hybrid? {
        assert AllHeld(w, ks[i].h.limiters);
      }
    }
  }

  /** The loop of `action` from some plugin on, with the running `$success` flag. */
  function RunFrom(w: World, ks: seq<Kind>, act: Hook, username: string, success: bool): (r: (ActionResult, World))
    requires AllKnown(w, ks)
    ensures SameKeys(w, r.1)
    decreases |ks|
  {
    if ks == [] then (Done(success), w)
    else
      var (o, w1) := PluginCall(w, ks[0], act, username);
      KnownStays(w, w1, ks[1..]);
      if Continues(o) then RunFrom(w1, ks[1..], act, username, success || Check(o) == Vote(SUCCESS))
      else (Decide(o), w1)
  }

  /** The outcomes of the plugins an action calls, in order. */
  function Trace(w: World, ks: seq<Kind>, act: Hook, username: string): (os: seq<Outcome>)
    requires AllKnown(w, ks)
    ensures |os| <= |ks|
    decreases |ks|
  {
    if ks == [] then []
    else
      var (o, w1) := PluginCall(w, ks[0], act, username);
      KnownStays(w, w1, ks[1..]);
      if Continues(o) then [o] + Trace(w1, ks[1..], act, username) else [o]
  }

  /**
   * The chain's answer is the vote fold over the outcomes of the plugins
   * it called, and those are exactly the plugins up to the first one that
   * stops the fold: each earlier plugin is called once, later ones never.
   */
  lemma {:induction false} ChainIsFold(w: World, ks: seq<Kind>, act: Hook, username: string, success: bool)
    requires AllKnown(w, ks)
    ensures RunFrom(w, ks, act, username, success).0 == FoldFrom(Trace(w, ks, act, username), success)
    ensures Called(Trace(w, ks, act, username)) == |Trace(w, ks, act, username)|
    ensures |Trace(w, ks, act, username)| < |ks| ==> !Continues(Trace(w, ks, act, username)[|Trace(w, ks, act, username)| - 1])
    decreases |ks|
  {
    if ks != [] {
      var (o, w1) := PluginCall(w, ks[0], act, username);
      KnownStays(w, w1, ks[1..]);
      if Continues(o) {
        ChainIsFold(w1, ks[1..], act, username, success || Check(o) == Vote(SUCCESS));
        var rest := Trace(w1, ks[1..], act, username);
        assert Trace(w, ks, act, username) == [o] + rest;
        assert ([o] + rest)[1..] == rest;
        if |rest| > 0 {
          assert ([o] + rest)[|rest|] == rest[|rest| - 1];
        }
      }
    }
  }

  /** A plugin that keeps BaseAuthPlugin's methods abstains; SuccessPlugin votes SUCCESS; neither touches any state. */
  lemma LifecycleConstants(w: World, act: Hook, username: string)
    ensures PluginCall(w, Defaults, act, username) == (Returned(Null), w)
    ensures PluginCall(w, Success, act, username) == (Returned(Int(0)), w)
  {
  }

  /** Limiters only count logins: their logout and verify abstain and change nothing. */
  lemma LimitersIgnoreLogoutVerify(w: World, k: Kind, act: Hook, username: string)
    requires Known(w, k) && (k.Limit? || k.Hybrid?) && act != OnLogin
    ensures PluginCall(w, k, act, username) == (Returned(Null), w)
  {
  }

  /** A limiter or hybrid in the chain votes FAILURE or NOOP on login. */
  lemma LimitersFailOrAbstain(w: World, k: Kind, username: string)
    requires Known(w, k) && (k.Limit? || k.Hybrid?)
    ensures PluginCall(w, k, OnLogin, username).0 in {Voted(FAILURE), Voted(NOOP)}
  {
    match k
    case Limit(l) => LimiterLoginVotes(w, l, username);
    case Hybrid(h) => LoginFailsOrAbstains(w, h.limiters, username);
  }

  /** A chain of plugins that all abstain, or no plugin at all, answers false and changes nothing. */
  lemma {:induction false} AbstainersFail(w: World, n: nat, act: Hook, username: string)
    ensures RunFrom(w, seq(n, _ => Defaults), act, username, false) == (Done(false), w)
    decreases n
  {
    if n > 0 {
      var ks := seq(n, _ => Defaults);
      assert ks[1..] == seq(n - 1, _ => Defaults);
      AbstainersFail(w, n - 1, act, username);
    }
  }

  /** A SuccessPlugin alone makes login, logout and verify all answer true. */
  lemma SuccessAlonePasses(w: World, act: Hook, username: string)
    ensures RunFrom(w, [Success], act, username, false) == (Done(true), w)
  {
    assert [Success][1..] == [];
  }

  /** FORCE before FAILURE passes and FAILURE before FORCE fails; the second plugin is not called. */
  lemma ForceBeforeFailure(w: World, act: Hook, username: string)
    ensures var force, fail := Scripted(Voted(FORCE), map[]), Scripted(Voted(FAILURE), map[]);
      && RunFrom(w, [force, fail], act, username, false).0 == Done(true)
      && RunFrom(w, [fail, force], act, username, false).0 == Done(false)
      && |Trace(w, [force, fail], act, username)| == 1
  {
  }

  /** A result neither int nor null raises AuthException, after any number of abstentions and successes. */
  lemma InvalidResultRaises(w: World, ks: seq<Kind>, bad: Value, act: Hook, username: string)
    requires AllKnown(w, ks) && !bad.Int? && !bad.Null?
    requires forall i :: 0 <= i < |ks| ==> ks[i] == Defaults || ks[i] == Success
    ensures RunFrom(w, ks + [Scripted(Returned(bad), map[])], act, username, false).0 == Raised
  {
    var all := ks + [Scripted(Returned(bad), map[])];
    assert AllKnown(w, all);
    assert AllKnown(w, [Scripted(Returned(bad), map[])]);
    ChainIsFold(w, all, act, username, false);
    var tr := Trace(w, all, act, username);
    TraceOfConstants(w, ks, [Scripted(Returned(bad), map[])], act, username);
    assert tr == seq(|ks|, i requires 0 <= i < |ks| => PluginCall(w, ks[i], act, username).0) + [Returned(bad)];
    FoldFirstStop(tr, |ks|);
  }

  /** Plugins of the two constant kinds are all called, with their constant outcomes, before the rest of the chain runs. */
  lemma {:induction false} TraceOfConstants(w: World, ks: seq<Kind>, tail: seq<Kind>, act: Hook, username: string)
    requires AllKnown(w, ks + tail) && AllKnown(w, tail)
    requires forall i :: 0 <= i < |ks| ==> ks[i] == Defaults || ks[i] == Success
    ensures Trace(w, ks + tail, act, username)
         == seq(|ks|, i requires 0 <= i < |ks| => PluginCall(w, ks[i], act, username).0) + Trace(w, tail, act, username)
    decreases |ks|
  {
    if ks != [] {
      var rest := ks[1..];
      assert (ks + tail)[0] == ks[0];
      assert (ks + tail)[1..] == rest + tail;
      assert AllKnown(w, rest + tail) by {
        forall i | 0 <= i < |rest + tail| ensures Known(w, (rest + tail)[i]) {
          assert (rest + tail)[i] == (ks + tail)[i + 1];
        }
      }
      TraceOfConstants(w, rest, tail, act, username);
      var o0 := PluginCall(w, ks[0], act, username).0;
      assert PluginCall(w, ks[0], act, username).1 == w && Continues(o0);
      assert Trace(w, ks + tail, act, username) == [o0] + Trace(w, rest + tail, act, username);
      var head := seq(|ks|, i requires 0 <= i < |ks| => PluginCall(w, ks[i], act, username).0);
      var tailHead := seq(|rest|, i requires 0 <= i < |rest| => PluginCall(w, rest[i], act, username).0);
      assert head == [PluginCall(w, ks[0], act, username).0] + tailHead;
    } else {
      assert ks + tail == tail;
    }
  }

  /** What `__call` gives back: a value, the AuthException passed on, or a PHP Error that is not caught. */
  datatype CallResult = Answered(v: Value) | AuthRaised | Crashed

  /** Public methods of Auth itself; PHP never routes these through `__call`. */
  const AuthMethods: set<string> :=
    {"addPlugin", "login", "logout", "verify", "offsetExists", "offsetGet", "offsetSet", "offsetUnset",
     "getLogger", "setLogger", "__call"}

  /** Public methods of LoginLimitPluginInterface. */
  const LimiterMethods: set<string> := {"decrementAttempts", "getLoginAttempts", "getMaxLoginAttempts"}

  /** Public methods SharedLoggerTrait gives a plugin: PSR-3's `log` and its eight level shorthands. */
  const LoggerMethods: set<string> :=
    {"log", "emergency", "alert", "critical", "error", "warning", "notice", "info", "debug"}

  /** How many arguments a logger method takes when no context array is passed: `log` a level and a message, the others a message. */
  function LoggerArity(name: string): nat {
    if name == "log" then 2 else 1
  }

  /** A limiter's public methods beyond LoginLimitPluginInterface's: the memcache limiter's address override and its logger methods. */
  function LimiterExtras(l: Limiter): set<string> {
    if l.Memcache? then {"setRemoteAddr"} + LoggerMethods else {}
  }

  /** The methods `is_callable` finds on a plugin of this kind. */
  function Methods(k: Kind): set<string> {
    {"setAuth", "login", "logout", "verify"} +
    match k
    case Defaults => {}
    case Success => {}
    case Limit(l) => LimiterMethods + LimiterExtras(l)
    case Hybrid(_) => LimiterMethods
    case Scripted(_, extras) => extras.Keys
  }

  /** The first plugin implementing `name`, if any. */
  function Implementer(ks: seq<Kind>, name: string): (r: Option<nat>)
    ensures r.Some? ==> r.value < |ks| && name in Methods(ks[r.value])
    ensures r.Some? ==> forall j :: 0 <= j < r.value ==> name !in Methods(ks[j])
    ensures r.None? ==> forall j :: 0 <= j < |ks| ==> name !in Methods(ks[j])
    decreases |ks|
  {
    if ks == [] then None
    else if name in Methods(ks[0]) then Some(0)
    else match Implementer(ks[1..], name)
      case None => None
      case Some(i) => Some(i + 1)
  }

  /** What a pass-through call of a limiter method does. */
  function LimiterCall(w: World, l: Limiter, name: string, args: seq<Value>, logger: Value): (r: (CallResult, World))
    requires Has(w, l) && name in LimiterMethods + LimiterExtras(l)
    ensures SameKeys(w, r.1)
  {
    if name == "decrementAttempts" then (Answered(Null), LimiterDecrement(w, l))
    else if name == "getLoginAttempts" then var (n, w1) := LimiterAttempts(w, l); (Answered(Int(n)), w1)
    else if name == "getMaxLoginAttempts" then (Answered(Int(MaxAttempts(l))), w)
    else if name in LoggerMethods then
      // `logger` is what the Auth shares under "logger". A falsy one means nothing is logged, and the
      // call answers null; a truthy one has its `log` method called, which no modelled value has: an Error.
      // A missing argument, or a context that is not an array, is an ArgumentCountError or TypeError.
      (if |args| == LoggerArity(name) && !Truthy(logger) then Answered(Null) else Crashed, w)
    else if args == [] then (Crashed, w)  // ArgumentCountError
    else (Answered(Null), w.(trackers := w.trackers[l.m := w.trackers[l.m].(addr := args[0])]))
  }

  /** What a pass-through call of a hybrid limiter's method does. */
  function HybridCall(w: World, h: HybridLoginLimiter, name: string): (r: (CallResult, World))
    requires AllHeld(w, h.limiters) && name in LimiterMethods
    ensures SameKeys(w, r.1)
  {
    if name == "decrementAttempts" then (Answered(Null), DecrementFrom(w, h.limiters))
    else if name == "getLoginAttempts" then var (n, w1) := AttemptsFrom(w, h.limiters, 0); (Answered(Int(n)), w1)
    else (Answered(Int(Smallest(h.limiters, PHP_INT_MAX))), w)
  }

  /**
   * The call `__call` forwards to a plugin implementing `name`. `setAuth`
   * takes an Auth, which no argument here is, so it ends in a PHP Error;
   * an exception other than AuthException is logged and gives null.
   * `logger` is the value the plugin's Auth shares under "logger".
   */
  function Forwarded(w: World, k: Kind, name: string, args: seq<Value>, logger: Value): (r: (CallResult, World))
    requires Known(w, k) && name in Methods(k) && name !in AuthMethods
    ensures SameKeys(w, r.1)
  {
    if k.Scripted? && name in k.extras then
      match k.extras[name]
      case Returned(v) => (Answered(v), w)
      case ThrewAuth => (AuthRaised, w)
      case ThrewOther => (Answered(Null), w)
    else if name == "setAuth" then (Crashed, w)
    else
      match k
      case Limit(l) => LimiterCall(w, l, name, args, logger)
      case Hybrid(h) => HybridCall(w, h, name)
      case _ => (Answered(Null), w)
  }

  /** `__call`: the first implementer runs, alone; with none, null and nothing changes. */
  function PassThrough(w: World, ks: seq<Kind>, name: string, args: seq<Value>, logger: Value): (r: (CallResult, World))
    requires AllKnown(w, ks) && name !in AuthMethods
    ensures Implementer(ks, name).None? ==> r == (Answered(Null), w)
  {
    match Implementer(ks, name)
    case None => (Answered(Null), w)
    case Some(i) => Forwarded(w, ks[i], name, args, logger)
  }

  /** Every plugin has `setAuth`, so a pass-through call of it ends in an Error, or runs a scripted override. */
  lemma SetAuthNotForwardable(w: World, ks: seq<Kind>, args: seq<Value>, logger: Value)
    requires AllKnown(w, ks) && ks != [] && !(ks[0].Scripted? && "setAuth" in ks[0].extras)
    ensures PassThrough(w, ks, "setAuth", args, logger) == (Crashed, w)
  {
  }
  /**
   * A memcache limiter's logger method, given just a message, changes
   * nothing. It answers null when the shared logger is falsy, and ends in an
   * Error when it is any other modelled value.
   */
  lemma MemcacheLogs(w: World, m: MemcacheLoginLimiter, name: string, message: Value, logger: Value)
    requires m in w.trackers && name in LoggerMethods && name != "log"
    ensures Known(w, Limit(Memcache(m))) && name in Methods(Limit(Memcache(m))) && name !in AuthMethods
    ensures Forwarded(w, Limit(Memcache(m)), name, [message], logger) == (if Truthy(logger) then Crashed else Answered(Null), w)
  {
    assert name !in LimiterMethods && name in LimiterExtras(Memcache(m));
    assert LimiterCall(w, Memcache(m), name, [message], logger) == (if Truthy(logger) then Crashed else Answered(Null), w);
  }

  /**
   * A memcache limiter has the logger methods itself, so `__call` of one of
   * them stops there, whatever plugins follow the limiter: it answers null,
   * or ends in an Error when the shared logger is a truthy non-logger.
   */
  lemma LoggerStopsAtMemcache(w: World, m: MemcacheLoginLimiter, ks: seq<Kind>, name: string, message: Value, logger: Value)
    requires AllKnown(w, ks) && ks != [] && ks[0] == Limit(Memcache(m)) && name in LoggerMethods && name != "log"
    ensures Implementer(ks, name) == Some(0)
    ensures PassThrough(w, ks, name, [message], logger) == (if Truthy(logger) then Crashed else Answered(Null), w)
  {
    assert Known(w, ks[0]);
    MemcacheLogs(w, m, name, message, logger);
  }




  /** `isset($auth[k])`: the key is present and not null. */
  predicate Isset(shared: map<string, Value>, key: string) {
    key in shared && shared[key] != Null
  }

  /** `$auth[k]`: the stored value, or null. */
  function Lookup(shared: map<string, Value>, key: string): (v: Value)
    ensures key in shared ==> v == shared[key]
    ensures key !in shared ==> v == Null
  {
    if key in shared then shared[key] else Null
  }

  /** A key reads as set exactly when its value is not null. */
  lemma IssetIsNotNull(shared: map<string, Value>, key: string)
    ensures Isset(shared, key) <==> Lookup(shared, key) != Null
  {
  }

  /** After a write the key reads the value written, and every other key reads as before. */
  lemma WriteThenRead(shared: map<string, Value>, key: string, value: Value, other: string)
    ensures Lookup(shared[key := value], key) == value
    ensures Isset(shared[key := value], key) <==> value != Null
    ensures other != key ==> Lookup(shared[key := value], other) == Lookup(shared, other)
    ensures other != key ==> (Isset(shared[key := value], other) <==> Isset(shared, other))
  {
  }

  /** After an unset the key reads null and is not set; every other key reads as before. */
  lemma UnsetThenRead(shared: map<string, Value>, key: string, other: string)
    ensures Lookup(shared - {key}, key) == Null && !Isset(shared - {key}, key)
    ensures other != key ==> Lookup(shared - {key}, other) == Lookup(shared, other)
    ensures other != key ==> (Isset(shared - {key}, other) <==> Isset(shared, other))
  {
  }

  /**
   * A concrete plugin class `addPlugin` can instantiate by name with no
   * constructor arguments: one keeping BaseAuthPlugin's hooks (as the
   * tests' NullPlugin does), or SuccessPlugin.
   */
  datatype Blueprint = NullClass | SuccessClass

  function Instantiated(b: Blueprint): Kind {
    match b
    case NullClass => Defaults
    case SuccessClass => Success
  }

  /** What PHP knows of a loaded class whose name is passed to `addPlugin`. */
  datatype ClassEntry =
    | Concrete(b: Blueprint)  // a plugin class `new` can build
    | Abstract                // implements AuthPluginInterface, but `new` on it is an Error (BaseAuthPlugin)
    | Foreign                 // does not implement AuthPluginInterface

  /** What `addPlugin` gives back: true, false, or a PHP Error it does not catch. */
  datatype AddResult = Appended | Refused | Errored

  /** The argument of `addPlugin`: a plugin object, or any other value. */
  datatype PluginArg = Instance(p: Plugin) | Other(v: Value) {
    /** `is_string`: every string is taken for a class name. */
    predicate Names() { Other? && v.Str? }
  }

  /** A plugin object, with BaseAuthPlugin's back-reference to the Auth it was added to. */
  class Plugin {
    var auth: Auth?
    const kind: Kind

    constructor (kind: Kind)
      ensures this.kind == kind && auth == null
    {
      this.kind := kind;
      auth := null;
    }

    method SetAuth(a: Auth)
      modifies this
      ensures auth == a
    {
      auth := a;
    }

    method GetAuth() returns (a: Auth?)
      ensures a == auth
    {
      a := auth;
    }
  }

  class Auth {
    var plugins: seq<Plugin>
    var shared: map<string, Value>

    constructor ()
      ensures plugins == [] && shared == map[]
    {
      plugins := [];
      shared := map[];
    }

    /** The kinds of the plugins, in registration order. */
    function Kinds(): (ks: seq<Kind>)
      reads this
      ensures |ks| == |plugins| && forall i :: 0 <= i < |ks| ==> ks[i] == plugins[i].kind
    {
      seq(|plugins|, i requires 0 <= i < |plugins| reads this => plugins[i].kind)
    }

    /** Every plugin's objects are in the footprint. */
    predicate Within(fp: Footprint)
      reads this
    {
      forall i :: 0 <= i < |plugins| ==> Serves(fp, plugins[i].kind)
    }

    lemma WithinKnown(fp: Footprint, w: World)
      requires Within(fp) && w.counts.Keys == fp.cookies && w.trackers.Keys == fp.memcaches
      ensures AllKnown(w, Kinds())
    {
      forall i | 0 <= i < |plugins| ensures Known(w, Kinds()[i]) {
        ServesKnown(fp, w, plugins[i].kind);
      }
    }

    /**
     * Appends a plugin object, or a new instance of a concrete plugin class
     * named by a string, and points its back-reference at this Auth.
     * `classes` holds the loaded classes. Any other value, or the name of a
     * class that is not a plugin, is refused. Naming an abstract plugin class
     * is an Error from `new`. Naming no loaded class makes
     * `class_implements` give false: PHP 7's `in_array` then refuses it, PHP 8's throws
     * a TypeError. Whenever no plugin is appended the chain is left as it was.
     */
    method AddPlugin(arg: PluginArg, classes: map<string, ClassEntry>, php8: bool) returns (r: AddResult)
      modifies this, if arg.Instance? then {arg.p} else {}
      ensures r == Appended <==> arg.Instance? || (arg.Names() && arg.v.s in classes && classes[arg.v.s].Concrete?)
      ensures r == Errored <==> arg.Names() && (if arg.v.s in classes then classes[arg.v.s] == Abstract else php8)
      ensures r != Appended ==> plugins == old(plugins)
      ensures r == Appended ==> |plugins| == |old(plugins)| + 1 && plugins[..|old(plugins)|] == old(plugins)
      ensures r == Appended ==> plugins[|plugins| - 1].auth == this
      ensures r == Appended && arg.Instance? ==> plugins[|plugins| - 1] == arg.p
      ensures r == Appended && arg.Names() ==>
        fresh(plugins[|plugins| - 1]) && plugins[|plugins| - 1].kind == Instantiated(classes[arg.v.s].b)
      ensures shared == old(shared)
    {
      var p: Plugin;
      match arg {
        case Other(v) =>
          if !v.Str? {
            return Refused;
          }
          var name := v.s;
          if name !in classes {
            return if php8 then Errored else Refused;
          }
          match classes[name] {
            case Foreign => return Refused;
            case Abstract => return Errored;
            case Concrete(b) => p := new Plugin(Instantiated(b));
          }
        case Instance(q) =>
          p := q;
      }
      p.SetAuth(this);
      plugins := plugins + [p];
      r := Appended;
    }

    /** `callPlugin`: one plugin's lifecycle method. */
    method CallPlugin(k: Kind, act: Hook, username: string, password: string, ghost fp: Footprint) returns (o: Outcome)
      requires Serves(fp, k)
      modifies fp.Objects()
      ensures Known(old(WorldOf(fp)), k)
      ensures (o, WorldOf(fp)) == PluginCall(old(WorldOf(fp)), k, act, username)
    {
      ServesKnown(fp, WorldOf(fp), k);
      match k
      case Defaults => o := Returned(Null);
      case Success => o := Returned(Int(0));
      case Limit(l) =>
        if act == OnLogin {
          var v := Limits.Login(l, username, password, fp);
          o := Voted(v);
        } else {
          o := Returned(Null);
        }
      case Hybrid(h) =>
        if act == OnLogin {
          var v := h.Login(username, password, fp);
          o := Voted(v);
        } else {
          o := Returned(Null);
        }
      case Scripted(answer, _) => o := answer;
    }

    /** `action`: the plugins in order, the vote fold deciding when to stop and what to answer. */
    method Action(act: Hook, username: string, password: string, ghost fp: Footprint) returns (r: ActionResult)
      requires Within(fp)
      modifies fp.Objects()
      ensures AllKnown(old(WorldOf(fp)), Kinds())
      ensures (r, WorldOf(fp)) == RunFrom(old(WorldOf(fp)), Kinds(), act, username, false)
    {
      var ks := Kinds();
      WithinKnown(fp, WorldOf(fp));
      var success := false;
      for i := 0 to |plugins|
        invariant AllKnown(WorldOf(fp), ks[i..])
        invariant RunFrom(old(WorldOf(fp)), ks, act, username, false) == RunFrom(WorldOf(fp), ks[i..], act, username, success)
      {
        assert ks[i..][1..] == ks[i + 1..];
        ghost var w := WorldOf(fp);
        var o := CallPlugin(plugins[i].kind, act, username, password, fp);
        KnownStays(w, WorldOf(fp), ks[i + 1..]);
        if !Continues(o) {
          return Decide(o);
        }
        success := success || Check(o) == Vote(SUCCESS);
      }
      r := Done(success);
    }

    method Login(username: string, password: string, ghost fp: Footprint) returns (r: ActionResult)
      requires Within(fp)
      modifies fp.Objects()
      ensures AllKnown(old(WorldOf(fp)), Kinds())
      ensures (r, WorldOf(fp)) == RunFrom(old(WorldOf(fp)), Kinds(), OnLogin, username, false)
    {
      r := Action(OnLogin, username, password, fp);
    }

    method Logout(ghost fp: Footprint) returns (r: ActionResult)
      requires Within(fp)
      modifies fp.Objects()
      ensures AllKnown(old(WorldOf(fp)), Kinds())
      ensures (r, WorldOf(fp)) == RunFrom(old(WorldOf(fp)), Kinds(), OnLogout, "", false)
    {
      r := Action(OnLogout, "", "", fp);
    }

    method Verify(ghost fp: Footprint) returns (r: ActionResult)
      requires Within(fp)
      modifies fp.Objects()
      ensures AllKnown(old(WorldOf(fp)), Kinds())
      ensures (r, WorldOf(fp)) == RunFrom(old(WorldOf(fp)), Kinds(), OnVerify, "", false)
    {
      r := Action(OnVerify, "", "", fp);
    }

    /** Runs one forwarded method on a plugin of kind `k`. */
    method Forward(k: Kind, name: string, args: seq<Value>, logger: Value, ghost fp: Footprint) returns (r: CallResult)
      requires Serves(fp, k) && name in Methods(k) && name !in AuthMethods
      modifies fp.Objects()
      ensures Known(old(WorldOf(fp)), k)
      ensures (r, WorldOf(fp)) == Forwarded(old(WorldOf(fp)), k, name, args, logger)
    {
      ServesKnown(fp, WorldOf(fp), k);
      ghost var w := WorldOf(fp);
      if k.Scripted? && name in k.extras {
        match k.extras[name]
        case Returned(v) => r := Answered(v);
        case ThrewAuth => r := AuthRaised;
        case ThrewOther => r := Answered(Null);
      } else if name == "setAuth" {
        r := Crashed;
      } else {
        match k
        case Limit(l) => r := ForwardLimiter(l, name, args, logger, fp);
        case Hybrid(h) => r := ForwardHybrid(h, name, fp);
        case _ => r := Answered(Null);
      }
    }

    /** A forwarded call of one of a limiter's own methods. */
    method ForwardLimiter(l: Limiter, name: string, args: seq<Value>, logger: Value, ghost fp: Footprint) returns (r: CallResult)
      requires fp.Holds(l) && name in LimiterMethods + LimiterExtras(l)
      modifies fp.Objects()
      ensures Has(old(WorldOf(fp)), l)
      ensures (r, WorldOf(fp)) == LimiterCall(old(WorldOf(fp)), l, name, args, logger)
    {
      ghost var w := WorldOf(fp);
      HoldsHas(fp, w, l);
      if name == "decrementAttempts" {
        Decrement(l, fp);
        r := Answered(Null);
      } else if name == "getLoginAttempts" {
        var n := Attempts(l, fp);
        r := Answered(Int(n));
      } else if name == "getMaxLoginAttempts" {
        var n := Max(l);
        r := Answered(Int(n));
      } else if name in LoggerMethods {
        r := if |args| == LoggerArity(name) && !Truthy(logger) then Answered(Null) else Crashed;
      } else if args == [] {
        r := Crashed;
      } else {
        l.m.SetRemoteAddr(args[0]);
        assert WorldOf(fp).trackers == w.trackers[l.m := l.m.State()];
        assert WorldOf(fp).counts == w.counts;
        r := Answered(Null);
      }
    }

    /** A forwarded call of one of a hybrid limiter's own methods. */
    method ForwardHybrid(h: HybridLoginLimiter, name: string, ghost fp: Footprint) returns (r: CallResult)
      requires h.Within(fp) && name in LimiterMethods
      modifies fp.Objects()
      ensures AllHeld(old(WorldOf(fp)), h.limiters)
      ensures (r, WorldOf(fp)) == HybridCall(old(WorldOf(fp)), h, name)
    {
      ServesKnown(fp, WorldOf(fp), Hybrid(h));
      if name == "decrementAttempts" {
        h.DecrementAttempts(fp);
        r := Answered(Null);
      } else if name == "getLoginAttempts" {
        var n := h.GetLoginAttempts(fp);
        r := Answered(Int(n));
      } else {
        var n := h.GetMaxLoginAttempts();
        r := Answered(Int(n));
      }
    }

    /**
     * `__call`: forwards to the first plugin implementing `name`. That plugin
     * reads the logger through its own Auth, which is this one.
     */
    method Call(name: string, args: seq<Value>, ghost fp: Footprint) returns (r: CallResult)
      requires Within(fp) && name !in AuthMethods
      modifies fp.Objects()
      ensures AllKnown(old(WorldOf(fp)), Kinds())
      ensures (r, WorldOf(fp)) == PassThrough(old(WorldOf(fp)), Kinds(), name, args, Lookup(shared, "logger"))
    {
      WithinKnown(fp, WorldOf(fp));
      for i := 0 to |plugins|
        invariant forall j :: 0 <= j < i ==> name !in Methods(plugins[j].kind)
        invariant WorldOf(fp) == old(WorldOf(fp))
      {
        if name in Methods(plugins[i].kind) {
          assert Implementer(Kinds(), name) == Some(i);
          r := Forward(plugins[i].kind, name, args, Lookup(shared, "logger"), fp);
          return;
        }
      }
      r := Answered(Null);
    }

    /** `offsetExists`. */
    method OffsetExists(key: string) returns (b: bool)
      ensures b == Isset(shared, key)
    {
      b := key in shared && shared[key] != Null;
    }

    /** `offsetGet`. */
    method OffsetGet(key: string) returns (v: Value)
      ensures v == Lookup(shared, key)
    {
      v := if key in shared then shared[key] else Null;
    }

    /** `offsetSet`. */
    method OffsetSet(key: string, value: Value)
      modifies this
      ensures shared == old(shared)[key := value] && plugins == old(plugins)
    {
      shared := shared[key := value];
    }

    /** `offsetUnset`. */
    method OffsetUnset(key: string)
      modifies this
      ensures shared == old(shared) - {key} && plugins == old(plugins)
    {
      shared := shared - {key};
    }
  }
}
