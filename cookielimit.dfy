/**
 * CookieLoginLimitPlugin (src/Plugin/Limit/CookieLoginLimitPlugin.php):
 * one attempt counter per browser, read lazily from the request cookie
 * and written back to it on every change.
 */
module CookieLimit {
  import opened Wrappers
  import opened ResultCodes
  import opened Http

  /** Default maximum number of login attempts. */
  const MAX_ATTEMPTS: int := 3
  /** Default cookie lifetime in seconds. */
  const TIMEOUT: int := 900

  /** What `getLoginAttempts` answers: the cached count, else the cookie, else 0. */
  function Loaded(attempts: Option<int>, cookie: Option<int>): int {
    if attempts.Some? then attempts.value else cookie.GetOr(0)
  }

  /** The login vote for a new count: FAILURE above the maximum, NOOP otherwise. */
  function Verdict(count: int, maxAttempts: int): (r: Option<int>)
    ensures r == FAILURE <==> count > maxAttempts
    ensures r == NOOP <==> count <= maxAttempts
  {
    if count > maxAttempts then FAILURE else NOOP
  }

  class CookieLoginLimiter {
    const maxAttempts: int
    const timeout: int
    /** Where `$_COOKIE` lives. */
    const request: Request
    /** The cached count; `null` until first read. */
    var attempts: Option<int>

    /**
     * PHP's defaults for the two numbers are MAX_ATTEMPTS and TIMEOUT; here
     * a caller that omits them passes those constants.
     */
    constructor (attempts: int, sec: int, request: Request)
      ensures maxAttempts == attempts && timeout == sec
      ensures this.request == request && this.attempts == None
    {
      maxAttempts := attempts;
      timeout := sec;
      this.request := request;
      this.attempts := None;
    }

    /** Reads the cookie the first time only; afterwards the cached count. */
    method GetLoginAttempts() returns (n: int)
      modifies this
      ensures n == Loaded(old(attempts), request.cookie)
      ensures attempts == Some(n)
    {
      if attempts.None? {
        attempts := Some(if request.cookie.Some? then request.cookie.value else 0);
      }
      n := attempts.value;
    }

    method GetMaxLoginAttempts() returns (m: int)
      ensures m == maxAttempts
    {
      m := maxAttempts;
    }

    /** Adds `diff` to the count and writes the new count to the cookie. */
    method SetLoginAttempts(diff: int) returns (n: int)
      modifies this, request
      ensures n == Loaded(old(attempts), old(request.cookie)) + diff
      ensures attempts == Some(n) && request.cookie == Some(n)
    {
      var current := GetLoginAttempts();
      attempts := Some(current + diff);
      request.cookie := attempts;
      n := current + diff;
    }

    /** Forgives one attempt; there is no lower bound. */
    method DecrementAttempts()
      modifies this, request
      ensures attempts == Some(Loaded(old(attempts), old(request.cookie)) - 1)
      ensures request.cookie == attempts
    {
      var _ := SetLoginAttempts(-1);
    }

    /** Counts one attempt and fails once the count is above the maximum. */
    method Login(username: string, password: string) returns (r: Option<int>)
      modifies this, request
      ensures attempts == Some(Loaded(old(attempts), old(request.cookie)) + 1)
      ensures request.cookie == attempts
      ensures r == Verdict(attempts.value, maxAttempts)
    {
      var count := SetLoginAttempts(1);
      if count > maxAttempts {
        return FAILURE;
      }
      r := NOOP;
    }
  }

  /** The votes of `k` logins in a row starting from a loaded count of `start`. */
  function LoginVotes(start: int, maxAttempts: int, k: nat): seq<Option<int>>
    decreases k
  {
    if k == 0 then [] else [Verdict(start + 1, maxAttempts)] + LoginVotes(start + 1, maxAttempts, k - 1)
  }

  /** The j-th of those logins fails exactly when its count, start + j + 1, is above the maximum. */
  lemma {:induction false} LoginVotesThreshold(start: int, maxAttempts: int, k: nat, j: nat)
    requires j < k
    ensures |LoginVotes(start, maxAttempts, k)| == k
    ensures LoginVotes(start, maxAttempts, k)[j] == (if start + j + 1 > maxAttempts then FAILURE else NOOP)
    decreases k
  {
    if j > 0 {
      LoginVotesThreshold(start + 1, maxAttempts, k - 1, j - 1);
    } else if k > 1 {
      LoginVotesThreshold(start + 1, maxAttempts, k - 1, 0);
    }
  }
}
