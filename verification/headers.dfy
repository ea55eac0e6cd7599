/** The request headers every call to the music API carries. */
module Headers {
  import opened Results
  import opened Text

  datatype Headers = Headers(accept: string, contentType: string, authorization: string)

  const JsonMediaType: string := "application/json"
  const BearerPrefix: string := "Bearer "
  const NotAString: string := "can only concatenate str (not \"NoneType\") to str"

  /** The credential carried by an `Authorization` value: the inverse of
      the concatenation `"Bearer " + token` that builds the header, so the
      value must start with `Bearer` and one space. */
  function BearerCredential(authorization: string): (t: Option<string>)
    ensures t.Some? <==> StartsWith(authorization, BearerPrefix)
    ensures t.Some? ==> authorization == BearerPrefix + t.value
  {
    if StartsWith(authorization, BearerPrefix) then
      assert authorization == authorization[..|BearerPrefix|] + authorization[|BearerPrefix|..];
      Some(authorization[|BearerPrefix|..])
    else None
  }

  /** The headers for a token. A token that the exchange did not produce
      (`None`) makes the string concatenation raise. */
  function GetHeaders(token: Option<string>): (r: Result<Headers, string>)
    ensures r.Success? <==> token.Some?
    ensures r.Success? ==> BearerCredential(r.value.authorization) == Some(token.value)
    ensures r.Success? ==> r.value.accept == JsonMediaType && r.value.contentType == JsonMediaType
    ensures r.Failure? ==> r.error == NotAString
  {
    match token
    case None => Failure(NotAString)
    case Some(t) =>
      var h := Headers(JsonMediaType, JsonMediaType, BearerPrefix + t);
      assert (BearerPrefix + t)[..|BearerPrefix|] == BearerPrefix;
      assert (BearerPrefix + t)[|BearerPrefix|..] == t;
      Success(h)
  }
}
