/** The `add_security_headers` middleware of backend/main.py (lines 70-84):
    after the inner handler has produced a response, five headers are set on
    it in place. */
module SecurityHeaders {

  const CONTENT_TYPE_OPTIONS := "X-Content-Type-Options"
  const FRAME_OPTIONS := "X-Frame-Options"
  const XSS_PROTECTION := "X-XSS-Protection"
  const REFERRER_POLICY := "Referrer-Policy"
  const CONTENT_SECURITY_POLICY := "Content-Security-Policy"

  /** The policy string, the concatenation of the five literal pieces. */
  const CSP_VALUE :=
    "default-src 'self'; "
    + "script-src 'self' 'unsafe-inline' 'unsafe-eval'; "
    + "style-src 'self' 'unsafe-inline'; "
    + "img-src 'self' data: https:; "
    + "connect-src *;"

  /** The five headers and the values the middleware gives them. */
  const SECURITY_HEADERS: map<string, string> := map[
    CONTENT_TYPE_OPTIONS := "nosniff",
    FRAME_OPTIONS := "DENY",
    XSS_PROTECTION := "1; mode=block",
    REFERRER_POLICY := "strict-origin-when-cross-origin",
    CONTENT_SECURITY_POLICY := CSP_VALUE
  ]

  /** There are exactly five security headers. */
  lemma FiveSecurityHeaders()
    ensures |SECURITY_HEADERS.Keys| == 5
    ensures SECURITY_HEADERS.Keys ==
      {CONTENT_TYPE_OPTIONS, FRAME_OPTIONS, XSS_PROTECTION, REFERRER_POLICY, CONTENT_SECURITY_POLICY}
  {
    assert CONTENT_TYPE_OPTIONS[2] == 'C' && FRAME_OPTIONS[2] == 'F' && XSS_PROTECTION[2] == 'X';
    assert REFERRER_POLICY[0] == 'R' && CONTENT_SECURITY_POLICY[0] == 'C' && CONTENT_SECURITY_POLICY[8] == 'S';
    assert CONTENT_TYPE_OPTIONS != CONTENT_SECURITY_POLICY by {
      assert CONTENT_TYPE_OPTIONS[0] == 'X';
    }
    assert FRAME_OPTIONS != XSS_PROTECTION;
  }

  /** The response the inner handler returned, with its header map. */
  class Response {
    var headers: map<string, string>

    constructor (headers: map<string, string>)
      ensures this.headers == headers
    {
      this.headers := headers;
    }

    /** Sets the five security headers, replacing any value they had, and
        leaves every other header as it was. */
    method AddSecurityHeaders()
      modifies this
      ensures headers.Keys == old(headers).Keys + SECURITY_HEADERS.Keys
      ensures forall name :: name in SECURITY_HEADERS ==> headers[name] == SECURITY_HEADERS[name]
      ensures forall name :: name in old(headers) && name !in SECURITY_HEADERS ==>
        headers[name] == old(headers)[name]
    {
      headers := headers[CONTENT_TYPE_OPTIONS := "nosniff"];
      headers := headers[FRAME_OPTIONS := "DENY"];
      headers := headers[XSS_PROTECTION := "1; mode=block"];
      headers := headers[REFERRER_POLICY := "strict-origin-when-cross-origin"];
      headers := headers[CONTENT_SECURITY_POLICY := CSP_VALUE];
    }
  }

  /** Running the middleware twice leaves the same headers as running it once. */
  method AddSecurityHeadersIdempotent(headers: map<string, string>) returns (once: map<string, string>, twice: map<string, string>)
    ensures once == twice
    ensures forall name :: name in SECURITY_HEADERS ==> name in once && once[name] == SECURITY_HEADERS[name]
  {
    var r := new Response(headers);
    r.AddSecurityHeaders();
    once := r.headers;
    r.AddSecurityHeaders();
    twice := r.headers;
  }
}
