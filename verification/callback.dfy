/** The GET handler of the local redirect endpoint: it reacts only to the
    OAuth callback path, pulls the authorization code out of it, posts the
    token request of section 4.1.3 of RFC 6749, answers the browser and
    starts the export with whatever token came back. */
module Callback {
  import opened Results
  import opened Text
  import opened Config
  import Authorize
  import Headers

  const CallbackPrefix: string := "/callback?code="
  const TokenEndpoint: string := "https://accounts.spotify.com/api/token"
  const GrantType: string := "authorization_code"
  /** The redirect URI the token request names, written out a second time. */
  const TokenRedirectUri: string := "http://localhost:5000/callback"
  const AccessTokenField: string := "access_token"
  const HtmlType: string := "text/html"
  const ConfirmationPage: string :=
    "<html><body><h1>hi!</h1>" + "<script>alert('You can now close this page')</script></body></html>"
  /** Scheme and authority of the redirect URI; the handler sees what follows. */
  const CallbackOrigin: string := "http://localhost:5000"

  /** The form fields of the token request, in the order they are sent. */
  datatype TokenForm = TokenForm(
    grantType: string,
    redirectUri: string,
    code: string,
    clientId: string,
    clientSecret: string)

  datatype Reply = Reply(status: nat, contentType: string, body: string)

  /** A form POST: for the URL posted to and the form, the decoded JSON
      object of the answer, or the message of the exception the request or
      the decoding raised. */
  type TokenPost = (string, TokenForm) -> Result<map<string, string>, string>

  /** What one GET does: nothing at all (not even a reply); or the token
      request raised, so no reply and no export; or the page was served and
      an export thread was started with the token, present or not. */
  datatype GetOutcome =
    | NoAction
    | ExchangeRaised(form: TokenForm, error: string)
    | Exchanged(form: TokenForm, reply: Reply, pipelineToken: Option<string>)

  /** The handler's dispatch test: a plain prefix test on the raw path. */
  predicate IsCallback(path: string) {
    StartsWith(path, CallbackPrefix)
  }

  lemma CallbackPrefixSplits()
    ensures CallbackPrefix == "/callback?code" + "="
    ensures '=' !in "/callback?code"
  {
  }

  /** `path.split("=")[1]`: the text between the path's first and second
      `=`, or up to its end. Since the first `=` ends the prefix, that is the
      longest `=`-free run right after the prefix; `&` does not stop it. */
  function ExtractCode(path: string): (code: string)
    requires IsCallback(path)
    ensures '=' !in code
    ensures StartsWith(path[|CallbackPrefix|..], code)
    ensures |CallbackPrefix| + |code| == |path| || path[|CallbackPrefix| + |code|] == '='
  {
    var rest := path[|CallbackPrefix|..];
    CallbackPrefixSplits();
    assert path == "/callback?code" + ['='] + rest;
    SplitAfterFirst("/callback?code", '=', rest);
    Split(path, '=')[1]
  }

  /** The code read back from a callback path carrying `code` is `code`
      exactly when `code` holds no `=`. */
  lemma ExtractCodeRoundTrip(code: string)
    ensures IsCallback(CallbackPrefix + code)
    ensures ExtractCode(CallbackPrefix + code) == code <==> '=' !in code
  {
    var path := CallbackPrefix + code;
    assert path[..|CallbackPrefix|] == CallbackPrefix;
    assert path[|CallbackPrefix|..] == code;
  }

  /** Whatever follows the code's first `=` is dropped. */
  lemma ExtractCodeStopsAtEquals(code: string, tail: string)
    requires '=' !in code
    ensures IsCallback(CallbackPrefix + code + "=" + tail)
    ensures ExtractCode(CallbackPrefix + code + "=" + tail) == code
  {
    var path := CallbackPrefix + code + "=" + tail;
    assert path[..|CallbackPrefix|] == CallbackPrefix;
    assert path[|CallbackPrefix|..] == code + "=" + tail;
    var c := ExtractCode(path);
    assert path[|CallbackPrefix| + |code|] == '=';
  }

  /** A bare callback yields the empty code. */
  lemma ExtractCodeEmpty()
    ensures ExtractCode(CallbackPrefix) == ""
  {
    assert CallbackPrefix + "" == CallbackPrefix;
    ExtractCodeRoundTrip("");
  }

  /** A further query parameter stays glued to the code up to its own `=`. */
  lemma ExtractCodeKeepsAmpersand()
    ensures ExtractCode("/callback?code=abc&state=xyz") == "abc&state"
  {
    var a, t := "abc&state", "xyz";
    assert '=' !in a;
    assert "/callback?code=abc&state=xyz" == CallbackPrefix + a + "=" + t;
    ExtractCodeStopsAtEquals(a, t);
  }

  /** The token request for a code. */
  function TokenRequest(creds: Credentials, code: string): TokenForm {
    TokenForm(GrantType, TokenRedirectUri, code, creds.appId, creds.appSecret)
  }

  /** The handler for one GET request. */
  function HandleGet(creds: Credentials, path: string, post: TokenPost): (o: GetOutcome)
    ensures o.NoAction? <==> !IsCallback(path)
    ensures !o.NoAction? ==>
      && o.form.grantType == "authorization_code"
      && o.form.code == ExtractCode(path)
      && o.form.redirectUri == Authorize.RedirectUri
      && o.form.clientId == creds.appId
      && o.form.clientSecret == creds.appSecret
    ensures o.ExchangeRaised? ==> post(TokenEndpoint, o.form) == Failure(o.error)
    ensures IsCallback(path) ==> (o.Exchanged? <==> post(TokenEndpoint, o.form).Success?)
    ensures o.Exchanged? ==>
      && o.reply == Reply(200, HtmlType, ConfirmationPage)
      && (o.pipelineToken.Some? <==> AccessTokenField in post(TokenEndpoint, o.form).value)
      && (o.pipelineToken.Some? ==> o.pipelineToken.value == post(TokenEndpoint, o.form).value[AccessTokenField])
  {
    if !IsCallback(path) then NoAction
    else
      var form := TokenRequest(creds, ExtractCode(path));
      match post(TokenEndpoint, form)
      case Failure(e) => ExchangeRaised(form, e)
      case Success(body) =>
        var token := if AccessTokenField in body then Some(body[AccessTokenField]) else None;
        Exchanged(form, Reply(200, HtmlType, ConfirmationPage), token)
  }

  /** A token answer without `access_token` still starts the export, with
      no token, and the export's first step, building the headers, raises. */
  lemma TokenlessExchangeAbortsExport(creds: Credentials, path: string, post: TokenPost)
    requires IsCallback(path)
    requires post(TokenEndpoint, TokenRequest(creds, ExtractCode(path))).Success?
    requires AccessTokenField !in post(TokenEndpoint, TokenRequest(creds, ExtractCode(path))).value
    ensures HandleGet(creds, path, post).Exchanged?
    ensures HandleGet(creds, path, post).pipelineToken.None?
    ensures Headers.GetHeaders(HandleGet(creds, path, post).pipelineToken).Failure?
  {
  }

  /** A request for any other path does nothing: no token request, no export. */
  lemma UnrelatedPathIgnored(creds: Credentials, post: TokenPost)
    ensures HandleGet(creds, "/unrelated", post) == NoAction
  {
    assert "/unrelated"[1] != CallbackPrefix[1];
  }

  /** Where the provider sends the browser after approval. */
  function RedirectTarget(code: string): string {
    Authorize.RedirectUri + "?code=" + code
  }

  lemma RedirectTargetSplits(code: string)
    ensures RedirectTarget(code) == CallbackOrigin + (CallbackPrefix + code)
  {
    assert Authorize.RedirectUri + "?code=" == CallbackOrigin + CallbackPrefix;
  }

  /** The redirect named in the authorize URL arrives at the handler as a
      callback path, and the handler reads back the provider's code exactly
      when that code holds no `=`. */
  lemma RedirectReachesHandler(code: string)
    ensures StartsWith(RedirectTarget(code), CallbackOrigin)
    ensures IsCallback(RedirectTarget(code)[|CallbackOrigin|..])
    ensures ExtractCode(RedirectTarget(code)[|CallbackOrigin|..]) == code <==> '=' !in code
  {
    RedirectTargetSplits(code);
    var url := RedirectTarget(code);
    assert url[..|CallbackOrigin|] == CallbackOrigin;
    assert url[|CallbackOrigin|..] == CallbackPrefix + code;
    ExtractCodeRoundTrip(code);
  }
}
