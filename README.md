# Vectorface Auth — a verified model of the plugin chain and login limiters

Vectorface Auth is a PHP authentication front end. It owns no credentials.
An `Auth` object holds an ordered chain of plugins. Each of `login`, `logout`
and `verify` asks every plugin in turn for a vote:

- `null` abstains.
- `0` is a provisional success.
- Any positive integer forces an immediate success.
- Any negative integer fails at once.

Any other method called on `Auth` is forwarded to the first plugin that has
it. `Auth` also carries a key/value map that plugins may share.

The login limiters are plugins that count attempts and vote FAILURE past a
maximum:

- **cookie limiter:** keeps the count in the client's `AuthCLLP` cookie.
- **memcache limiter:** keeps one count per username and one per client
  address in a memcache store. It fails open when the store is down.
- **hybrid limiter:** combines several limiters.

The test helper `FakeMemcache` is modelled too. It is an in-memory store that
can be switched to "broken".

The project is organised as follows:

| file | module | what it models |
|---|---|---|
| `wrappers.dfy` | `Wrappers` | `Option` |
| `php.dfy` | `Php` | the PHP values the plugins exchange (`null`, bools, ints, strings), truthiness, `empty()`, `sprintf('%s')`, integer strings and `is_numeric` |
| `results.dfy` | `ResultCodes` | `Auth::RESULT_*` |
| `votes.dfy` | `Votes` | the vote-folding rule of `Auth::action` as a pure function over the plugins' outcomes |
| `fakememcache.dfy` | `FakeMemcacheStore` | the fake store: a value `Store` with one function per operation, and the class `FakeMemcache` whose methods update it in place |
| `request.dfy` | `Http` | `$_COOKIE['AuthCLLP']` and `$_SERVER['REMOTE_ADDR']`, as one `Request` object |
| `cookielimit.dfy`, `memcachelimit.dfy` | `CookieLimit`, `MemcacheLimit` | the two limiter classes, with their fields updated in place |
| `limits.dfy` | `Limits` | the limiters as one family |
| `hybridlimit.dfy` | `HybridLimit` | the hybrid limiter |
| `auth.dfy` | `AuthChain` | `Auth` and the plugin base class |
| `scenarios.dfy` | `Scenarios` | the repository's login-limit tests, replayed on the model |

Several limiters may share one cookie slot and one store, and one limiter
object may appear more than once in a chain. Their joint state is therefore
described as a `World`:

- the request's cookie;
- the store;
- each limiter object's own fields.

Every state-changing method is specified as "its result and the new `World`
are what a pure step function computes from the old `World`". The properties
are proved about those step functions.

The hybrid limiter's `login` (`HybridLoginLimitPlugin.php:98-99`) returns
at the first child that votes FAILURE or FORCE, so later children do not
count that attempt.
`HybridLimit.VotesStopAtDecisive` and `Scenarios.HybridLoginStep` state this
behaviour.

The hybrid test builds two cookie limiters over the same cookie. It passes
only because its first `getLoginAttempts` call loads both children's counts
(both 0) before any login. `Scenarios.HybridWithoutQuery` shows that without
that call only four of five logins pass: each child reads the cookie the
other has just written.

## Model

| member | source | states |
|---|---|---|
| ResultCodes.NamedVotes | src/Auth.php:42-57 | NOOP, SUCCESS, FORCE and FAILURE are the PHP values `null`, `0`, `1` and `-1` |
| ResultCodes.AsValueInjective | src/Auth.php:42-57 | distinct votes are distinct PHP values |
| Php.NatToStringRoundTrip | src/Plugin/Limit/MemcacheLoginLimitPlugin.php:149-150 | the decimal digits `sprintf('%s')` writes for a natural number read back as that number |
| Php.IntToStringRoundTrip | src/Plugin/Limit/MemcacheLoginLimitPlugin.php:149-150 | a formatted integer, sign included, is an integer string denoting the same integer |
| Php.IntToStrIsNumeric | tests/Helpers/FakeMemcachePHP80.php:147-154 | the string form of an integer passes `is_numeric` and adds as that integer |
| Votes.VoteRoundTrip | src/Auth.php:151-157 | a plugin returning a vote's PHP value yields that vote, and every vote comes from exactly that return value |
| Votes.Check | src/Auth.php:151-157 | a plugin call yields a vote exactly when it returned an int or null; any other Exception aborts the action; anything else propagates as an AuthException |
| Votes.Called | src/Auth.php:176-192 | the loop calls at most as many plugins as there are |
| Votes.FoldFromNoStop | src/Auth.php:186-193 | when no plugin stops the loop, every plugin is called and the result is whether some plugin (or the running flag) voted SUCCESS |
| Votes.FoldNoStop | src/Auth.php:174-193 | when no plugin stops the loop, the action succeeds iff some plugin voted SUCCESS; all plugins are called |
| Votes.FoldFromFirstStop | src/Auth.php:186-190 | the first stopping outcome alone decides the action, whatever the running flag, and exactly the plugins up to it are called |
| Votes.FoldFirstStop | src/Auth.php:176-190 | the first stopping outcome decides the action, and exactly k+1 plugins are called |
| Votes.FoldIgnoresUncalled | src/Auth.php:176-192 | plugins after the one that stops the loop neither change the result nor are called |
| Votes.FirstStop | src/Auth.php:176-192 | when the loop stops early, the index where it stops is the first non-continuing outcome |
| Votes.AllAbstainFails | tests/AuthTest.php:18-26 | a chain where every plugin abstains fails |
| Votes.OrderDecides | tests/AuthTest.php:48-59 | FORCE before FAILURE succeeds after one call; FAILURE before FORCE fails |
| Votes.InvalidResultRaises | src/Auth.php:151-157 | a non-int, non-null result reached by the loop raises an AuthException |
| Votes.ExceptionsReached | src/Auth.php:177-184 | an AuthException reached by the loop propagates, any other exception fails the action, and no later plugin is called |
| FakeMemcacheStore.FakeMemcache.constructor | tests/Helpers/FakeMemcachePHP80.php:16-23 | a new store is empty and working |
| FakeMemcacheStore.FakeMemcache.SetBroken | tests/Helpers/FakeMemcachePHP80.php:23 | only the broken flag changes |
| FakeMemcacheStore.FakeMemcache.Get | tests/Helpers/FakeMemcachePHP80.php:34-49 | returns the value the store model gives for the key |
| FakeMemcacheStore.FakeMemcache.Add | tests/Helpers/FakeMemcachePHP80.php:61-74 | result and new contents are the store model's `add` |
| FakeMemcacheStore.FakeMemcache.Set | tests/Helpers/FakeMemcachePHP80.php:86-94 | result and new contents are the store model's `set` |
| FakeMemcacheStore.FakeMemcache.Flush | tests/Helpers/FakeMemcachePHP80.php:101-108 | result and new contents are the store model's `flush` |
| FakeMemcacheStore.FakeMemcache.Replace | tests/Helpers/FakeMemcachePHP80.php:120-131 | result and new contents are the store model's `replace` |
| FakeMemcacheStore.FakeMemcache.Increment | tests/Helpers/FakeMemcachePHP80.php:141-155 | result and new contents are the store model's `increment` |
| FakeMemcacheStore.FakeMemcache.Decrement | tests/Helpers/FakeMemcachePHP80.php:165-168 | result and new contents are the store model's `decrement` |
| FakeMemcacheStore.FakeMemcache.Delete | tests/Helpers/FakeMemcachePHP80.php:178-185 | result and new contents are the store model's `delete` |
| FakeMemcacheStore.BrokenStoreIsInert | tests/Helpers/FakeMemcachePHP80.php:36-38 | a broken store reads `false`, refuses every write and changes nothing |
| FakeMemcacheStore.SetThenGet | tests/Helpers/FakeMemcachePHP80.php:86-94 | after a set, the key reads back the value and every other key is unchanged |
| FakeMemcacheStore.GetAbsent | tests/Helpers/FakeMemcachePHP80.php:48 | an absent key reads `false` |
| FakeMemcacheStore.AddOnlyWhenUnset | tests/Helpers/FakeMemcachePHP80.php:67-73 | `add` fails on a set key and acts as `set` otherwise: the key then reads back the value (`null` reads as false) and every other key reads as before |
| FakeMemcacheStore.ReplaceOnlyWhenReadable | tests/Helpers/FakeMemcachePHP80.php:125-130 | `replace` fails on an unreadable key and acts as `set` otherwise: the key then reads back the value and every other key reads as before |
| FakeMemcacheStore.IncrementAdds | tests/Helpers/FakeMemcachePHP80.php:147-154 | `increment` fails on an unreadable key; otherwise it stores and returns the numeric value (non-numeric counts as 0) plus delta, which the key then reads back; every other key reads as before |
| FakeMemcacheStore.DecrementBelowZero | tests/Helpers/FakeMemcachePHP80.php:165-168 | decrementing 0 gives -1: the fake has no floor at zero |
| FakeMemcacheStore.DeleteAndFlush | tests/Helpers/FakeMemcachePHP80.php:178-185 | after delete the key reads `false` and other keys are unchanged; after flush every key reads `false` |
| FakeMemcacheStore.IncrementTimesCounts | tests/Helpers/FakeMemcachePHP80.php:141-155 | n increments of a counter at `start` leave it at `start + n` and touch no other key |
| CookieLimit.Verdict | src/Plugin/Limit/CookieLoginLimitPlugin.php:130-134 | FAILURE exactly when the count is above the maximum, NOOP otherwise |
| CookieLimit.CookieLoginLimiter.constructor | src/Plugin/Limit/CookieLoginLimitPlugin.php:57-61 | stores the maximum and timeout; no count is loaded yet |
| CookieLimit.CookieLoginLimiter.GetLoginAttempts | src/Plugin/Limit/CookieLoginLimitPlugin.php:83-89 | answers the cached count, else the cookie, else 0, and caches it |
| CookieLimit.CookieLoginLimiter.GetMaxLoginAttempts | src/Plugin/Limit/CookieLoginLimitPlugin.php:98-101 | answers the configured maximum |
| CookieLimit.CookieLoginLimiter.SetLoginAttempts | src/Plugin/Limit/CookieLoginLimitPlugin.php:109-117 | the loaded count plus diff becomes both the cached count and the cookie, and is returned |
| CookieLimit.CookieLoginLimiter.DecrementAttempts | src/Plugin/Limit/CookieLoginLimitPlugin.php:68-71 | the loaded count minus one becomes the cached count and the cookie; there is no floor |
| CookieLimit.CookieLoginLimiter.Login | src/Plugin/Limit/CookieLoginLimitPlugin.php:126-135 | counts one attempt in cache and cookie, and votes FAILURE exactly when the new count is above the maximum |
| CookieLimit.LoginVotesThreshold | src/Plugin/Limit/CookieLoginLimitPlugin.php:126-135 | of k consecutive logins from count `start`, the j-th fails exactly when `start + j + 1` exceeds the maximum |
| MemcacheLimit.MemcacheLoginLimiter.constructor | src/Plugin/Limit/MemcacheLoginLimitPlugin.php:109-115 | stores the store, both maxima and the timeout; no address, username or counts yet |
| MemcacheLimit.MemcacheLoginLimiter.SetRemoteAddr | src/Plugin/Limit/MemcacheLoginLimitPlugin.php:124-127 | only the address override changes |
| MemcacheLimit.MemcacheLoginLimiter.GetKeys | src/Plugin/Limit/MemcacheLoginLimitPlugin.php:145-152 | the login key names the username; the address key names the truthy override, else REMOTE_ADDR, else "localhost" |
| MemcacheLimit.MemcacheLoginLimiter.GetLoginAttempts | src/Plugin/Limit/MemcacheLoginLimitPlugin.php:164-167 | the last per-username count, or 0 before any |
| MemcacheLimit.MemcacheLoginLimiter.GetMaxLoginAttempts | src/Plugin/Limit/MemcacheLoginLimitPlugin.php:176-179 | the per-username maximum |
| MemcacheLimit.MemcacheLoginLimiter.SetAttemptKey | src/Plugin/Limit/MemcacheLoginLimitPlugin.php:188-202 | the count, store and warning count are those of the adjust step: increment/decrement, else set 1/0 and warn if that set fails |
| MemcacheLimit.MemcacheLoginLimiter.SetLoginAttempts | src/Plugin/Limit/MemcacheLoginLimitPlugin.php:211-221 | adjusts the login key only for a non-empty username, the address key always, and returns both counts |
| MemcacheLimit.MemcacheLoginLimiter.DecrementAttempts | src/Plugin/Limit/MemcacheLoginLimitPlugin.php:134-137 | adjusts both counts down for the last username used |
| MemcacheLimit.MemcacheLoginLimiter.Login | src/Plugin/Limit/MemcacheLoginLimitPlugin.php:230-241 | remembers the username, counts the attempt on both keys, and votes as the login step does |
| MemcacheLimit.KeysDistinct | src/Plugin/Limit/MemcacheLoginLimitPlugin.php:148-151 | a login key never collides with an address key |
| MemcacheLimit.LoginKeyInjective | src/Plugin/Limit/MemcacheLoginLimitPlugin.php:149 | distinct usernames have distinct login keys |
| MemcacheLimit.AdjustWorking | src/Plugin/Limit/MemcacheLoginLimitPlugin.php:188-202 | on a working store the key's counter moves by one (an unreadable key starts at 1 or 0), is returned, and nothing else changes and nothing is logged |
| MemcacheLimit.AdjustBroken | src/Plugin/Limit/MemcacheLoginLimitPlugin.php:194-198 | on a broken store the result is 1 or 0, the store is unchanged, and a warning is logged |
| MemcacheLimit.FailOpen | tests/MemcacheLoginLimitPluginTest.php:57-59 | with a broken store a login votes NOOP, leaves the store alone and warns |
| MemcacheLimit.LoginCounts | src/Plugin/Limit/MemcacheLoginLimitPlugin.php:230-241 | on a working store both stored counters go up by one (login only for a non-empty name), the fields equal them, and FAILURE iff either is above its maximum; every other key, the broken flag and the warnings are unchanged |
| MemcacheLimit.DecrementCounts | src/Plugin/Limit/MemcacheLoginLimitPlugin.php:134-137 | on a working store both counters go down by one, the login one only for a non-empty remembered username; every other key, the broken flag and the warnings are unchanged |
| Limits.LimiterLoginVotes | src/Plugin/Limit/MemcacheLoginLimitPlugin.php:236-240 | a cookie or memcache limiter's login votes only FAILURE or NOOP |
| Limits.AttemptsKeepReports | src/Plugin/Limit/LoginLimitPluginInterface.php:27 | `getLoginAttempts` answers the limiter's reported count and changes no limiter's report |
| Limits.LoginThenReport | src/Plugin/Limit/CookieLoginLimitPlugin.php:126-135 | after a login a cookie limiter reports one more; a memcache limiter on a working store reports the bumped stored counter |
| Limits.Login | src/Plugin/Limit/LoginLimitPluginInterface.php:8-35 | dispatching `login` to a limiter object has the effect of that limiter's login step on the World |
| Limits.Decrement | src/Plugin/Limit/LoginLimitPluginInterface.php:15 | dispatching `decrementAttempts` has the effect of that limiter's decrement step on the World |
| Limits.Attempts | src/Plugin/Limit/LoginLimitPluginInterface.php:27 | dispatching `getLoginAttempts` has the effect of that limiter's attempts step on the World |
| Limits.Max | src/Plugin/Limit/LoginLimitPluginInterface.php:34 | dispatching `getMaxLoginAttempts` answers that limiter's maximum |
| HybridLimit.Accept | src/Plugin/Limit/HybridLoginLimitPlugin.php:28-36 | the children are accepted iff every one is a limiter, and are then kept in order |
| HybridLimit.New | src/Plugin/Limit/HybridLoginLimitPlugin.php:28-36 | a hybrid is built iff every child is a limiter (otherwise InvalidArgumentException), holding them in order |
| HybridLimit.HybridLoginLimiter.constructor | src/Plugin/Limit/HybridLoginLimitPlugin.php:28-36 | holds the given limiters in order |
| HybridLimit.CombineFromFirstDecisive | src/Plugin/Limit/HybridLoginLimitPlugin.php:94-106 | the first FAILURE or FORCE is the result, whatever the running result |
| HybridLimit.CombineFromNoDecisive | src/Plugin/Limit/HybridLoginLimitPlugin.php:94-106 | without FAILURE or FORCE, the result is SUCCESS iff the running result or some vote is SUCCESS, else NOOP |
| HybridLimit.CombineFirstDecisive | src/Plugin/Limit/HybridLoginLimitPlugin.php:92-106 | the first FAILURE or FORCE among the children's votes is the hybrid's vote |
| HybridLimit.CombineNoDecisive | src/Plugin/Limit/HybridLoginLimitPlugin.php:92-106 | without FAILURE or FORCE the hybrid votes SUCCESS iff some child did, else NOOP |
| HybridLimit.CombineOddVotes | tests/HybridLoginLimitPluginTest.php:37-43 | a single SUCCESS child gives SUCCESS; other positive votes are ignored; FAILURE before FORCE gives FAILURE |
| HybridLimit.LoginIsCombine | src/Plugin/Limit/HybridLoginLimitPlugin.php:92-106 | the hybrid's login vote is the combining rule applied to the votes its children cast |
| HybridLimit.VotesStopAtDecisive | src/Plugin/Limit/HybridLoginLimitPlugin.php:95-99 | every child votes unless one votes FAILURE or FORCE, and then that one is the last to vote |
| HybridLimit.LoginFailsOrAbstains | src/Plugin/Limit/HybridLoginLimitPlugin.php:92-106 | over cookie and memcache children the hybrid votes FAILURE or NOOP, FAILURE iff some child voted FAILURE |
| HybridLimit.Largest | src/Plugin/Limit/HybridLoginLimitPlugin.php:60-67 | the largest of the starting value and the children's reports, and one of them |
| HybridLimit.AttemptsIsLargest | src/Plugin/Limit/HybridLoginLimitPlugin.php:60-67 | `getLoginAttempts` answers the largest count the children report |
| HybridLimit.LargestSameReports | src/Plugin/Limit/HybridLoginLimitPlugin.php:60-67 | the answer depends only on the children's reports |
| HybridLimit.Smallest | src/Plugin/Limit/HybridLoginLimitPlugin.php:76-83 | the smallest of the starting value and the children's maxima, and one of them |
| HybridLimit.HybridLoginLimiter.DecrementAttempts | src/Plugin/Limit/HybridLoginLimitPlugin.php:43-48 | decrements every child in order |
| HybridLimit.HybridLoginLimiter.GetLoginAttempts | src/Plugin/Limit/HybridLoginLimitPlugin.php:60-67 | answers the largest count the children report (0 with no children), loading each child in order |
| HybridLimit.HybridLoginLimiter.GetMaxLoginAttempts | src/Plugin/Limit/HybridLoginLimitPlugin.php:76-83 | answers the smallest child maximum, PHP_INT_MAX with no children |
| HybridLimit.HybridLoginLimiter.Login | src/Plugin/Limit/HybridLoginLimitPlugin.php:92-106 | runs the children's logins in order up to the first FAILURE/FORCE, with the combined vote |
| AuthChain.ChainIsFold | src/Auth.php:172-194 | running the chain gives the vote fold of the outcomes of exactly the plugins called, stopping only at a stopping outcome |
| AuthChain.LifecycleConstants | src/BaseAuthPlugin.php:44-67 | a base plugin abstains and SuccessPlugin votes SUCCESS on every action, changing nothing |
| AuthChain.LimitersIgnoreLogoutVerify | src/BaseAuthPlugin.php:54-67 | limiters abstain on logout and verify and change nothing |
| AuthChain.LimitersFailOrAbstain | src/Plugin/Limit/CookieLoginLimitPlugin.php:126-135 | a limiter or hybrid in the chain votes FAILURE or NOOP on login |
| AuthChain.AbstainersFail | tests/AuthTest.php:18-26 | any number of abstaining plugins fail every action and change nothing |
| AuthChain.SuccessAlonePasses | tests/AuthTest.php:28-37 | a lone SuccessPlugin passes every action |
| AuthChain.ForceBeforeFailure | tests/AuthTest.php:48-59 | FORCE then FAILURE passes after one call; FAILURE then FORCE fails |
| AuthChain.InvalidResultRaises | tests/AuthTest.php:92-104 | after abstaining or succeeding plugins, an invalid result raises an AuthException |
| AuthChain.TraceOfConstants | src/Auth.php:176-192 | abstaining and succeeding plugins are all called, in order, before the rest of the chain |
| AuthChain.Implementer | src/Auth.php:207-208 | the first plugin having the method, or none has it; a memcache limiter's methods include the PSR-3 logger methods of its trait |
| AuthChain.MemcacheLogs | src/Plugin/SharedLoggerTrait.php:26-30 | a memcache limiter's logger method called with a message changes nothing; it answers null when the shared "logger" is falsy, and ends in an Error when it is any other (non-logger) value |
| AuthChain.LoggerStopsAtMemcache | src/Auth.php:205-210 | `__call` of a logger method (other than `log`) stops at a leading memcache limiter, whatever plugins follow: null with a falsy shared logger, an Error with a truthy non-logger |
| AuthChain.PassThrough | src/Auth.php:219-222 | with no implementer, `__call` answers null and changes nothing |
| AuthChain.SetAuthNotForwardable | src/BaseAuthPlugin.php:22-25 | forwarding `setAuth` without an Auth argument ends in an Error and changes nothing |
| AuthChain.Lookup | src/Auth.php:242-245 | the stored value, or null for an absent key |
| AuthChain.IssetIsNotNull | src/Auth.php:231-234 | `isset` holds iff the read value is not null |
| AuthChain.WriteThenRead | src/Auth.php:253-256 | a written key reads back its value, and is set iff that value is not null; other keys are unchanged |
| AuthChain.UnsetThenRead | src/Auth.php:264-267 | an unset key reads null and is not set; other keys are unchanged |
| AuthChain.Plugin.constructor | src/BaseAuthPlugin.php:22-35 | a new plugin has its kind, and no Auth until one is set |
| AuthChain.Plugin.SetAuth | src/BaseAuthPlugin.php:22-25 | records the Auth |
| AuthChain.Plugin.GetAuth | src/BaseAuthPlugin.php:32-35 | answers the recorded Auth |
| AuthChain.Auth.constructor | src/Auth.php:59-71 | a new Auth has no plugins and an empty shared map |
| AuthChain.Auth.AddPlugin | src/Auth.php:80-94 | appends iff given a plugin or a string naming a concrete plugin class (every string takes the class-name path), then sets its Auth and keeps the rest; an abstract plugin class, or an unknown class name under PHP 8, is an Error; anything else is refused and changes nothing |
| AuthChain.Auth.CallPlugin | src/Auth.php:139-161 | one lifecycle call of one plugin has the plugin step's outcome and effect |
| AuthChain.Auth.Action | src/Auth.php:172-194 | the result and new World are those of running the chain, which by ChainIsFold is the vote fold |
| AuthChain.Auth.Login | src/Auth.php:104-107 | is the login action |
| AuthChain.Auth.Logout | src/Auth.php:114-117 | is the logout action |
| AuthChain.Auth.Verify | src/Auth.php:125-128 | is the verify action |
| AuthChain.Auth.Forward | src/Auth.php:209-215 | a forwarded call has the effect of that plugin's method, an AuthException propagating and other exceptions giving null |
| AuthChain.Auth.ForwardLimiter | src/Auth.php:210 | a forwarded limiter method has the effect of that limiter's step |
| AuthChain.Auth.ForwardHybrid | src/Auth.php:210 | a forwarded hybrid method has the effect of that hybrid's step |
| AuthChain.Auth.Call | src/Auth.php:205-223 | `__call` runs only the first plugin implementing the method, which reads this Auth's shared logger, or answers null |
| AuthChain.Auth.OffsetExists | src/Auth.php:231-234 | whether the key holds a non-null value |
| AuthChain.Auth.OffsetGet | src/Auth.php:242-245 | the stored value or null |
| AuthChain.Auth.OffsetSet | src/Auth.php:253-256 | stores the value under the key; the plugins are unchanged |
| AuthChain.Auth.OffsetUnset | src/Auth.php:264-267 | removes the key; the plugins are unchanged |
| Scenarios.GuardedLogin | tests/CookieLoginLimitPluginTest.php:18-28 | behind a SuccessPlugin, a login passes exactly when the limiter votes NOOP |
| Scenarios.CookieLogin | tests/LoginLimitPluginTest.php:35 | through the chain, a login counts one attempt and passes iff the new count is within the maximum |
| Scenarios.CookieForgive | tests/LoginLimitPluginTest.php:41-42 | `decrementAttempts` through the chain takes one attempt back |
| Scenarios.CookieQueries | tests/LoginLimitPluginTest.php:31-32 | through the chain, the attempts query loads the count and the max query answers the maximum |
| Scenarios.CookieSetup | tests/CookieLoginLimitPluginTest.php:18-28 | a SuccessPlugin then a fresh cookie limiter of 5 attempts, with no cookie sent |
| Scenarios.CookieScenario | tests/LoginLimitPluginTest.php:27-46 | answers 0 and 5; five logins pass, the sixth fails, and after two decrements one passes and the next fails |
| Scenarios.MemcacheChainLogin | tests/MemcacheLoginLimitPluginTest.php:38-39 | behind a SuccessPlugin, a login is the memcache login step and passes iff it votes NOOP |
| Scenarios.MemcacheLoginStep | tests/MemcacheLoginLimitPluginTest.php:44-48 | a login with both counters at n passes iff n+1 is within both maxima, and both counters reach n+1 |
| Scenarios.MemcacheForgiveStep | tests/MemcacheLoginLimitPluginTest.php:51-52 | a decrement answers null and takes both counters from n to n-1 |
| Scenarios.MemcacheLoginRun | tests/MemcacheLoginLimitPluginTest.php:44-46 | k logins from n answer, one by one, whether n+j+1 is within both maxima, and leave both counters at n+k |
| Scenarios.MemcacheLoginsPass | tests/MemcacheLoginLimitPluginTest.php:44-46 | k logins within both maxima all pass |
| Scenarios.MemcacheQueries | tests/MemcacheLoginLimitPluginTest.php:41-42 | before any login the queries answer 0 and 5 and change nothing |
| Scenarios.MemcacheFirstFailure | tests/MemcacheLoginLimitPluginTest.php:44-48 | from an empty store five logins pass and the sixth fails, both counters at 6 |
| Scenarios.MemcacheRewind | tests/MemcacheLoginLimitPluginTest.php:51-52 | two decrements answer null and leave both counters at 4 |
| Scenarios.MemcacheRetry | tests/MemcacheLoginLimitPluginTest.php:54-59 | one login passes, the next fails, and with the store broken the next passes |
| Scenarios.HybridLoginStep | src/Plugin/Limit/HybridLoginLimitPlugin.php:92-106 | with two cookie children at a and b: past the first's maximum the login fails and the second is not counted; otherwise both count and the second decides |
| Scenarios.HybridLoginRun | tests/LoginLimitPluginTest.php:34-36 | k hybrid logins within the first child's maximum answer whether b+j+1 is within the second's, and both counts rise by k |
| Scenarios.HybridLoginsPass | tests/LoginLimitPluginTest.php:34-36 | k hybrid logins within both maxima all pass |
| Scenarios.HybridForgiveStep | src/Plugin/Limit/HybridLoginLimitPlugin.php:43-48 | a decrement answers null and takes both children's counts down by one |
| Scenarios.HybridReadAttempts | tests/LoginLimitPluginTest.php:31 | with no cookie sent, the attempts query answers 0 and loads both children at 0 |
| Scenarios.HybridQueries | tests/LoginLimitPluginTest.php:31-32 | the test's queries answer 0 and 5 and leave both children at 0 |
| Scenarios.HybridFirstFailure | tests/LoginLimitPluginTest.php:34-38 | five hybrid logins pass and the sixth fails, the children at 6 and 5 |
| Scenarios.HybridRewind | tests/LoginLimitPluginTest.php:41-45 | two decrements answer null, then one login passes and the next fails |
| Scenarios.HybridFreshLogin | tests/HybridLoginLimitPluginTest.php:12-24 | a first login with nothing loaded leaves the children at 1 and 2, since the second reads the cookie the first wrote |
| Scenarios.HybridWithoutQuery | tests/LoginLimitPluginTest.php:31-38 | without the initial attempts query only four logins pass: the fifth fails |

## Left out

- Logging: `logException`, the logger accessors (`getLogger`, `setLogger`) and the message sent to an attached logger are not modelled. The memcache limiter's own `warning` calls appear only as a ghost counter. Its public PSR-3 methods are modelled as callable through `__call`: they answer null when the shared "logger" is falsy; a truthy one is called as a logger, which no modelled value is, so the call is an Error; a missing argument or a non-array context is an Error too.
- MemcacheLimit.FailOpen: the memcache limiter's own `warning` (src/Plugin/Limit/MemcacheLoginLimitPlugin.php:197) goes through the same `log`. A login or decrement on a broken store is modelled as if the shared "logger" were absent, falsy or a real logger. With any other truthy value there, PHP ends that login in an Error instead of the NOOP that `FailOpen` and `Scenarios.MemcacheRetry` state.
- AuthChain.Auth.Call: a forwarded logger method reads the logger shared by the plugin's own Auth. The model takes that to be the Auth making the call, which `AddPlugin` arranges. A plugin added to a second Auth afterwards would read that Auth's logger instead.
- `class_implements` and `new $plugin()`: the loaded classes are a parameter of `AddPlugin`, each concrete (with what it builds), abstract (such as `BaseAuthPlugin`, whose `new` is an Error) or not a plugin.
- AuthChain.Auth.AddPlugin: a class name instantiates only a plugin without state of its own (one like `BaseAuthPlugin`, or `SuccessPlugin`). Building a `CookieLoginLimitPlugin` or `HybridLoginLimitPlugin` from its name is not modelled, because the new limiter's state would lie outside the modelled world; such limiters are added as instances.
- Plugins whose code is not in this model (test plugins, user plugins) are `Scripted`. They have fixed outcomes and no state, and their username/password are ignored.
- The password argument is passed along but unused: no modelled plugin reads it.
- `setcookie`, `headers_sent`, `time()` and cookie expiry are left out. The cookie limiter's write to `$_COOKIE` is modelled; the response header is not.
- The store's TTLs, the real `Memcache` client, and the fake's multi-key `get` (an array of keys) are left out.
- The fake's `broken` flag is a property of each instance. In the model it belongs to the one store object that all instances share. `Scenarios.MemcacheRetry` replays what the memcache test intends, a store broken for the third login. The test's own line (`tests/MemcacheLoginLimitPluginTest.php:58`) assigns an undeclared static property and cannot run as written, and its `FakeMemcache` import names a namespace other than the helper's.
- Numeric strings are only optionally-signed decimal digits. Floats, whitespace, exponents and hex are not modelled, so `is_numeric` and `+` are exact only on those.
- The cookie value is an integer. A non-numeric cookie string and PHP's string-to-int juggling are left out.
- The `(int)` casts in the limiter constructors are left out: their arguments are already integers.
- PHP method names are case-insensitive. The model compares them exactly.
- HybridLimit.New: the children of a hybrid are cookie or memcache limiters, so a hybrid within a hybrid and custom limiter classes are not children here. Their vote combination is stated over arbitrary votes by the `Combine*` lemmas.
- `callPlugin`'s unknown-action check (`src/Auth.php:143-145`) cannot be reached: the action is one of three constructors of `Hook`.
- AuthChain.PassThrough: states only the no-implementer case. The rest is `Implementer` plus `Forwarded`, which `Auth.Call` and `Auth.Forward` state.
- Integer width is not modelled: counts are unbounded integers. PHP would turn an `int` overflow into a float, which nothing here approaches. `PHP_INT_MAX` is 2^63-1 only as the starting value of the hybrid's minimum.
