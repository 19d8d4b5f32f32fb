/**
 * Credentials for the terminal's API server: an optional session cookie and
 * an optional key, fixed when the authenticator is built (the environment
 * reads that supply them are outside the model).
 */
module Auth {
  import opened Wrappers
  import opened Text

  const CookieHeaderPrefix := "iTerm2-Auth-Cookie: "
  const KeyHeaderPrefix := "iTerm2-Auth-Key: "

  datatype Authenticator = Authenticator(cookie: Option<string>, key: Option<string>) {

    predicate HasCredentials() {
      cookie.Some? || key.Some?
    }

    /** The authorization header line; the cookie takes precedence over the key. */
    function GetAuthHeader(): (r: Option<string>)
      ensures r.Some? <==> HasCredentials()
      ensures cookie.Some? ==> r == Some(CookieHeaderPrefix + cookie.value)
      ensures cookie.None? && key.Some? ==> r == Some(KeyHeaderPrefix + key.value)
    {
      match cookie
      case Some(c) => Some(CookieHeaderPrefix + c)
      case None =>
        match key
        case Some(k) => Some(KeyHeaderPrefix + k)
        case None => None
    }
  }

  /** Whether a key is present makes no difference once a cookie is. */
  lemma CookieTakesPrecedence(cookie: string, key1: Option<string>, key2: Option<string>)
    ensures Authenticator(Some(cookie), key1).GetAuthHeader() == Authenticator(Some(cookie), key2).GetAuthHeader()
  {
  }

  /**
   * A header says which kind of credential it carries and carries it whole:
   * a cookie header and a key header are never equal, and each is its
   * prefix followed by the credential.
   */
  lemma {:induction false} HeaderIdentifiesCredential(a: Authenticator, b: Authenticator)
    requires a.GetAuthHeader().Some? && a.GetAuthHeader() == b.GetAuthHeader()
    ensures a.cookie.Some? <==> b.cookie.Some?
    ensures a.cookie.Some? ==> a.cookie == b.cookie
    ensures a.cookie.None? ==> a.key == b.key
  {
    var h := a.GetAuthHeader().value;
    assert a.cookie.Some? ==> h[12] == CookieHeaderPrefix[12];
    assert a.cookie.None? ==> h[12] == KeyHeaderPrefix[12];
    assert b.cookie.Some? ==> h[12] == CookieHeaderPrefix[12];
    assert b.cookie.None? ==> h[12] == KeyHeaderPrefix[12];
    assert CookieHeaderPrefix[12] != KeyHeaderPrefix[12];
    if a.cookie.Some? {
      assert a.cookie.value == h[|CookieHeaderPrefix|..] == b.cookie.value;
    } else {
      assert a.key.value == h[|KeyHeaderPrefix|..] == b.key.value;
    }
  }
}
