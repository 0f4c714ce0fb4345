/** Credential extraction from the `Authorization` header
    (backend/internal/auth/get_bearer_token.go and get_api_key.go).
    A missing header is the empty string, as `http.Header.Get` returns it. */
module Auth {
  import opened Wrappers
  import opened Text

  datatype AuthError = HeaderNotFound

  /** The shared shape of both extractors: reject an empty header, otherwise drop
      one leading `scheme` and trim. */
  function HeaderCredential(header: string, scheme: string): (r: Result<string, AuthError>)
    ensures r.Failure? <==> header == ""
    ensures r.Success? ==> Trimmed(r.value)
    ensures r.Success? && !HasPrefix(header, scheme) ==> r.value == TrimSpace(header)
    ensures r.Success? && HasPrefix(header, scheme) ==> r.value == TrimSpace(header[|scheme|..])
  {
    if header == "" then Failure(HeaderNotFound)
    else Success(TrimSpace(TrimPrefix(header, scheme)))
  }

  function GetBearerToken(header: string): (r: Result<string, AuthError>)
    ensures r.Failure? <==> header == ""
    ensures r.Success? ==> Trimmed(r.value) && |r.value| <= |header|
  {
    HeaderCredential(header, "Bearer")
  }

  function GetApiKey(header: string): (r: Result<string, AuthError>)
    ensures r.Failure? <==> header == ""
    ensures r.Success? ==> Trimmed(r.value) && |r.value| <= |header|
  {
    HeaderCredential(header, "ApiKey")
  }

  /** Whatever a client puts after `scheme` and one blank comes back unchanged,
      provided it has no white space at its ends. */
  lemma HeaderCredentialRoundTrip(scheme: string, token: string)
    requires Trimmed(token)
    ensures HeaderCredential(scheme + " " + token, scheme) == Success(token)
  {
    var h := scheme + " " + token;
    assert h[..|scheme|] == scheme;
    assert h[|scheme|..] == " " + token;
    TrimSpaceSkipsBlank(" ", token);
    TrimSpaceOfTrimmed(token);
  }

  /** The header the frontend sends (`Bearer ${accessToken}`) yields the access token. */
  lemma BearerRoundTrip(token: string)
    requires Trimmed(token)
    ensures GetBearerToken("Bearer" + " " + token) == Success(token)
  {
    HeaderCredentialRoundTrip("Bearer", token);
  }

  lemma ApiKeyRoundTrip(key: string)
    requires Trimmed(key)
    ensures GetApiKey("ApiKey" + " " + key) == Success(key)
  {
    HeaderCredentialRoundTrip("ApiKey", key);
  }

  /** The scheme word alone yields the empty token, not an error. */
  lemma BearerAloneIsEmpty()
    ensures GetBearerToken("Bearer") == Success("")
  {
    assert "Bearer"[6..] == "";
  }

  /** Only one leading scheme word is removed. */
  lemma BearerRemovedOnce(token: string)
    requires Trimmed(token) && token != ""
    ensures GetBearerToken("BearerBearer " + token) == Success("Bearer " + token)
  {
    var h := "BearerBearer " + token;
    assert h[..6] == "Bearer";
    assert h[6..] == "Bearer " + token;
    var t := "Bearer " + token;
    assert t[0] == 'B' && t[|t| - 1] == token[|token| - 1];
    TrimSpaceOfTrimmed(t);
  }

  /** A header without the scheme word is only trimmed: an `ApiKey` header given to the
      bearer extractor comes back whole. */
  lemma OtherSchemeOnlyTrimmed(header: string)
    requires header != "" && !HasPrefix(header, "Bearer")
    ensures GetBearerToken(header) == Success(TrimSpace(header))
  {
  }
}
