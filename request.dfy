/**
 * The ambient HTTP state the limiters read: the `AuthCLLP` entry of
 * `$_COOKIE` (written back by the cookie limiter) and `$_SERVER['REMOTE_ADDR']`.
 * A PHP process has exactly one of each; so does a chain in this model.
 */
module Http {
  import opened Wrappers

  class Request {
    /** `$_COOKIE['AuthCLLP']`, absent until the client sends it or a limiter writes it. */
    var cookie: Option<int>
    /** `$_SERVER['REMOTE_ADDR']`, absent outside a web request. */
    const remoteAddr: Option<string>

    constructor (cookie: Option<int>, remoteAddr: Option<string>)
      ensures this.cookie == cookie && this.remoteAddr == remoteAddr
    {
      this.cookie := cookie;
      this.remoteAddr := remoteAddr;
    }
  }
}
