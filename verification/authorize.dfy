/** The authorize URL the entry point opens in the browser to start the
    Authorization Code grant (section 4.1.1 of RFC 6749). */
module Authorize {
  import opened Results
  import opened Query

  const AuthorizeEndpoint: string := "https://accounts.spotify.com/authorize"
  const ResponseType: string := "code"
  const RedirectUri: string := "http://localhost:5000/callback"
  const Scope: string := "playlist-read-private playlist-read-collaborative"
  /** The username hint is the literal text `USER_ID`, not the variable. */
  const UsernameHint: string := "USER_ID"

  /** The URL exactly as the entry point formats it: every value is pasted
      in verbatim, with no percent-encoding. */
  function AuthorizeUrl(appId: string): string {
    AuthorizeEndpoint + "?"
    + ("client_id" + "=" + appId + "&" + "response_type" + "=" + ResponseType + "&"
       + "redirect_uri" + "=" + RedirectUri + "&" + "scope" + "=" + Scope + "&"
       + "username" + "=" + UsernameHint)
  }

  /** The parameters the URL is meant to carry, in order. */
  function AuthorizeParams(appId: string): seq<Param> {
    [ ("client_id", appId), ("response_type", ResponseType), ("redirect_uri", RedirectUri),
      ("scope", Scope), ("username", UsernameHint) ]
  }

  /** The query part of the URL: everything after the endpoint and `?`. */
  function QueryOf(url: string): string
    requires |url| > |AuthorizeEndpoint|
  {
    url[|AuthorizeEndpoint| + 1..]
  }

  /** The URL is the endpoint, `?`, and the five parameters joined by `&`. */
  lemma AuthorizeUrlShape(appId: string)
    ensures AuthorizeUrl(appId) == AuthorizeEndpoint + "?" + JoinQuery(AuthorizeParams(appId))
  {
    var ps := AuthorizeParams(appId);
    JoinQueryFive(ps);
  }

  lemma ScopeClean()
    ensures '&' !in Scope && '=' !in Scope
  {
    var left, right := "playlist-read-private", "playlist-read-collaborative";
    assert Scope == left + " " + right;
    assert '&' !in left && '=' !in left;
    assert '&' !in right && '=' !in right;
  }

  lemma RedirectUriClean()
    ensures '&' !in RedirectUri && '=' !in RedirectUri
  {
  }

  lemma FixedParamsClean(appId: string)
    ensures forall i :: 1 <= i < 5 ==> Clean(AuthorizeParams(appId)[i])
  {
    ScopeClean();
    RedirectUriClean();
  }

  lemma ClientIdClean(appId: string)
    ensures Clean(AuthorizeParams(appId)[0]) <==> '&' !in appId
  {
    assert '&' !in "client_id" && '=' !in "client_id";
  }

  lemma QueryOfAuthorizeUrl(appId: string)
    ensures QueryOf(AuthorizeUrl(appId)) == JoinQuery(AuthorizeParams(appId))
  {
    AuthorizeUrlShape(appId);
    var prefix := AuthorizeEndpoint + "?";
    var q := JoinQuery(AuthorizeParams(appId));
    assert |prefix| == |AuthorizeEndpoint| + 1;
    assert (prefix + q)[|prefix|..] == q;
  }

  /** A reader that splits at `&` and then at each piece's first `=` gets
      back exactly the intended parameters, the redirect URI among them, if
      and only if the application id contains no `&`: nothing is escaped.
      The reader does no percent-decoding, so this is relative to the raw
      text; a decoding reader would also alter an id holding `%` or `+`. */
  lemma AuthorizeUrlReadsBack(appId: string)
    ensures ParseQuery(QueryOf(AuthorizeUrl(appId))) == Some(AuthorizeParams(appId))
            <==> '&' !in appId
  {
    var ps := AuthorizeParams(appId);
    QueryOfAuthorizeUrl(appId);
    FixedParamsClean(appId);
    ParseJoinQueryFirst(ps);
    ClientIdClean(appId);
  }

  /** The scope's space reaches the URL raw, so the URL is not in the
      form-urlencoded shape section 4.1.1 of RFC 6749 asks for. */
  lemma AuthorizeUrlHasRawSpace(appId: string)
    ensures ' ' in AuthorizeUrl(appId)
  {
    assert Scope[21] == ' ';
  }
}
