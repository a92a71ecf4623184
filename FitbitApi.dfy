/**
  The provider calls of fitbit/fitbit.go: the sleep request of `getSleep`, the
  token refresh request of `refreshToken`, and the update of the client's
  token fields that `refreshToken` commits only after a successful exchange.

  HTTP itself is not modelled. A request is the value the code builds; the
  answer is a parameter: a transport failure, or a status code and the body
  as it decoded from JSON (`None` when it did not decode).
 */
module FitbitApi {
  import opened Wrappers
  import opened Utf8
  import opened Base64
  import opened SleepSummary

  datatype HttpRequest = HttpRequest(verb: string, url: string, headers: seq<(string, string)>, body: string)

  datatype Reply<T> = TransportError | Response(status: int, decoded: Option<T>)

  datatype ApiError = Transport | BadStatus(status: int) | Undecodable | PersistFailure

  const StatusOK := 200
  const SleepUrlPrefix := "https://api.fitbit.com/1.2/user/"
  const SleepUrlMiddle := "/sleep/date/"
  const SleepUrlSuffix := ".json"
  const TokenUrl := "https://api.fitbit.com/oauth2/token"

  /** The long-lived client credentials and the PKCE pair of the setup session. */
  datatype SecretClient = SecretClient(clientId: string, secret: string, codeVerifier: string,
                                       codeChallenge: string, callbackUrl: string)

  /** The token endpoint's answer, and the record kept in tokens.json. */
  datatype TokenResponse = TokenResponse(accessToken: string, refreshToken: string, expiresIn: int,
                                         tokenType: string, userId: string)

  // ---- getSleep ----

  /** The date-scoped sleep resource of a user. */
  function SleepUrl(userId: string, date: string): (url: string)
    ensures |url| == |SleepUrlPrefix| + |userId| + |SleepUrlMiddle| + |date| + |SleepUrlSuffix|
  {
    SleepUrlPrefix + userId + SleepUrlMiddle + date + SleepUrlSuffix
  }

  /** A URL names one user and one date: the fixed parts around them let both be read back. */
  lemma SleepUrlInjective(u1: string, d1: string, u2: string, d2: string)
    requires SleepUrl(u1, d1) == SleepUrl(u2, d2)
    requires |d1| == |d2|
    ensures u1 == u2 && d1 == d2
  {
    var url := SleepUrl(u1, d1);
    var p, m := |SleepUrlPrefix|, |SleepUrlMiddle|;
    assert url[p..p + |u1|] == u1;
    assert SleepUrl(u2, d2)[p..p + |u2|] == u2;
    assert url[p + |u1| + m..p + |u1| + m + |d1|] == d1;
    assert SleepUrl(u2, d2)[p + |u2| + m..p + |u2| + m + |d2|] == d2;
  }

  /** The Authorization value of section 2.1 of RFC 6750. */
  function BearerAuthorization(token: string): (value: string)
    ensures |value| >= 7 && value[..7] == "Bearer " && value[7..] == token
  {
    "Bearer " + token
  }

  /** The request `getSleep` sends. */
  function SleepRequest(userId: string, accessToken: string, date: string): (req: HttpRequest)
    ensures req.verb == "GET" && req.body == ""
    ensures req.url == SleepUrl(userId, date)
    ensures req.headers == [("Authorization", BearerAuthorization(accessToken))]
  {
    HttpRequest("GET", SleepUrl(userId, date), [("Authorization", "Bearer " + accessToken)], "")
  }

  /**
    What `getSleep` returns for an answer: the decoded entries on status 200,
    an error for a transport failure, any other status, or a body that does
    not decode.
   */
  function SleepResult(reply: Reply<seq<SleepEntry>>): (r: Result<seq<SleepEntry>, ApiError>)
    ensures r.Success? <==> reply.Response? && reply.status == StatusOK && reply.decoded.Some?
    ensures r.Success? ==> r.value == reply.decoded.value
    ensures reply.Response? && reply.status != StatusOK ==> r == Failure(BadStatus(reply.status))
  {
    match reply
    case TransportError => Failure(Transport)
    case Response(status, decoded) =>
      if status != StatusOK then Failure(BadStatus(status))
      else if decoded.None? then Failure(Undecodable)
      else Success(decoded.value)
  }

  // ---- refreshToken ----

  /**
    The form body of the refresh grant (section 6 of RFC 6749), written with
    `Sprintf` and without percent-encoding.
   */
  function RefreshBody(clientId: string, refreshToken: string): string {
    "client_id=" + clientId + "&" + "grant_type=refresh_token" + "&" + "refresh_token=" + refreshToken
  }

  /** The parts of `s` between occurrences of `sep`. */
  function Split(s: string, sep: char): (parts: seq<string>)
    ensures |parts| >= 1
    decreases |s|
  {
    if sep !in s then [s]
    else
      var i := FirstIndex(s, sep);
      [s[..i]] + Split(s[i + 1..], sep)
  }

  function FirstIndex(s: string, c: char): (i: nat)
    requires c in s
    ensures i < |s| && s[i] == c
    ensures forall k :: 0 <= k < i ==> s[k] != c
  {
    if s[0] == c then 0 else 1 + FirstIndex(s[1..], c)
  }

  lemma SplitAfter(a: string, b: string, sep: char)
    requires sep !in a
    ensures Split(a + [sep] + b, sep) == [a] + Split(b, sep)
  {
    var s := a + [sep] + b;
    assert s[|a|] == sep;
    assert forall k :: 0 <= k < |a| ==> s[k] == a[k];
    var i := FirstIndex(s, sep);
    assert i == |a|;
    assert s[..i] == a && s[i + 1..] == b;
  }

  lemma GrantTypeUnseparated()
    ensures '&' !in "grant_type=refresh_token"
  {
    var g := "grant_type=refresh_token";
    assert forall k :: 0 <= k < |g| ==> g[k] != '&';
  }

  lemma NoSeparatorInJoin(a: string, b: string, sep: char)
    requires sep !in a && sep !in b
    ensures sep !in a + b
  {
  }

  /**
    When neither the client id nor the refresh token contains `&`, the body
    splits into exactly the three fields of the grant, in order. With an `&`
    in either value the fields would run into each other: nothing escapes them.
   */
  lemma RefreshBodyFields(clientId: string, refreshToken: string)
    requires '&' !in clientId && '&' !in refreshToken
    ensures Split(RefreshBody(clientId, refreshToken), '&') ==
      ["client_id=" + clientId, "grant_type=refresh_token", "refresh_token=" + refreshToken]
  {
    var f1, f2, f3 := "client_id=" + clientId, "grant_type=refresh_token", "refresh_token=" + refreshToken;
    var body := RefreshBody(clientId, refreshToken);
    assert body == f1 + "&" + (f2 + "&" + f3);
    NoSeparatorInJoin("client_id=", clientId, '&');
    NoSeparatorInJoin("refresh_token=", refreshToken, '&');
    GrantTypeUnseparated();
    assert Split(f3, '&') == [f3];
    SplitAfter(f2, f3, '&');
    SplitAfter(f1, f2 + "&" + f3, '&');
  }

  /**
    The Basic credentials of section 2 of RFC 7617: the UTF-8 bytes of
    `client-id ":" secret` in the padded standard base64 of section 4 of
    RFC 4648. Decoding the credentials gives the pair back.
   */
  function BasicAuthorization(clientId: string, secret: string): (value: string)
    ensures |value| >= 6 && value[..6] == "Basic "
    ensures Decode(Standard, true, value[6..]) == Some(Utf8.Encode(clientId + ":" + secret))
  {
    var credentials := Utf8.Encode(clientId + ":" + secret);
    RoundTrip(Standard, true, credentials);
    "Basic " + StdEncode(credentials)
  }

  /** The credentials in the header are the one text that decodes to `client-id ":" secret`. */
  lemma CredentialsAreTheEncoding(clientId: string, secret: string, s: string)
    ensures Decode(Standard, true, s) == Some(Utf8.Encode(clientId + ":" + secret))
        <==> "Basic " + s == BasicAuthorization(clientId, secret)
  {
    var credentials := Utf8.Encode(clientId + ":" + secret);
    DecodeIsInverse(Standard, true, s, credentials);
    assert ("Basic " + s)[6..] == s;
  }

  /** The request `refreshToken` sends to the token endpoint. */
  function RefreshRequest(secrets: SecretClient, refreshToken: string): (req: HttpRequest)
    ensures req.verb == "POST" && req.url == TokenUrl
    ensures req.body == RefreshBody(secrets.clientId, refreshToken)
    ensures req.headers == [("Authorization", BasicAuthorization(secrets.clientId, secrets.secret)),
                            ("Content-Type", "application/x-www-form-urlencoded")]
  {
    HttpRequest("POST", TokenUrl,
                [("Authorization", BasicAuthorization(secrets.clientId, secrets.secret)),
                 ("Content-Type", "application/x-www-form-urlencoded")],
                RefreshBody(secrets.clientId, refreshToken))
  }

  /** The token record `refreshToken` copies into the client: present only after a 200 that decoded. */
  function RefreshedTokens(reply: Reply<TokenResponse>): (r: Option<TokenResponse>)
    ensures r.Some? <==> reply.Response? && reply.status == StatusOK && reply.decoded.Some?
    ensures r.Some? ==> r.value == reply.decoded.value
  {
    if reply.Response? && reply.status == StatusOK then reply.decoded else None
  }

  /** The error `refreshToken` returns, if any; `persisted` says whether writing tokens.json succeeded. */
  function RefreshError(reply: Reply<TokenResponse>, persisted: bool): (err: Option<ApiError>)
    ensures err.None? <==> RefreshedTokens(reply).Some? && persisted
    ensures RefreshedTokens(reply).Some? && !persisted ==> err == Some(PersistFailure)
  {
    match reply
    case TransportError => Some(Transport)
    case Response(status, decoded) =>
      if status != StatusOK then Some(BadStatus(status))
      else if decoded.None? then Some(Undecodable)
      else if !persisted then Some(PersistFailure)
      else None
  }

  /** The client state of fitbit/main.go: the token record, the credentials and the sleep goal. */
  class FitbitClient {
    var accessToken: string
    var refreshToken: string
    var expiresIn: int
    var tokenType: string
    var userId: string
    var secretClient: SecretClient
    /** The nightly goal in hours; a float in Go, an exact number here. */
    var goalHours: real

    /** A copy of the five token fields, taken at one instant. */
    function Tokens(): TokenResponse
      reads this
    {
      TokenResponse(accessToken, refreshToken, expiresIn, tokenType, userId)
    }

    /**
      newFitbitClientFromJSON for a record that decoded: the token fields come
      from the record, the credentials are empty and the goal is 8 hours.
     */
    constructor FromTokens(t: TokenResponse)
      ensures Tokens() == t
      ensures secretClient == SecretClient("", "", "", "", "")
      ensures goalHours == 8.0
    {
      accessToken, refreshToken, expiresIn, tokenType, userId := t.accessToken, t.refreshToken, t.expiresIn, t.tokenType, t.userId;
      secretClient := SecretClient("", "", "", "", "");
      goalHours := 8.0;
    }

    /** getSleep: the request built from the current tokens, and what the answer yields. */
    method GetSleep(date: string, reply: Reply<seq<SleepEntry>>)
      returns (req: HttpRequest, result: Result<seq<SleepEntry>, ApiError>)
      ensures req == SleepRequest(userId, accessToken, date)
      ensures result.Success? <==> reply.Response? && reply.status == StatusOK && reply.decoded.Some?
      ensures result.Success? ==> result.value == reply.decoded.value
    {
      req := SleepRequest(userId, accessToken, date);
      result := SleepResult(reply);
    }

    /**
      refreshToken: send the refresh grant; on a 200 whose body decodes,
      overwrite the five token fields, then persist. A failure before that
      point leaves every field as it was; a failure to persist is reported
      after the fields have been replaced.
     */
    method RefreshToken(reply: Reply<TokenResponse>, persisted: bool)
      returns (req: HttpRequest, err: Option<ApiError>)
      modifies this
      ensures req == RefreshRequest(old(secretClient), old(refreshToken))
      ensures err == RefreshError(reply, persisted)
      ensures RefreshedTokens(reply).Some? ==> Tokens() == RefreshedTokens(reply).value
      ensures RefreshedTokens(reply).None? ==> Tokens() == old(Tokens())
      ensures secretClient == old(secretClient) && goalHours == old(goalHours)
    {
      req := RefreshRequest(secretClient, refreshToken);
      if reply.TransportError? {
        return req, Some(Transport);
      }
      if reply.status != StatusOK {
        return req, Some(BadStatus(reply.status));
      }
      if reply.decoded.None? {
        return req, Some(Undecodable);
      }
      var t := reply.decoded.value;
      accessToken := t.accessToken;
      refreshToken := t.refreshToken;
      expiresIn := t.expiresIn;
      tokenType := t.tokenType;
      userId := t.userId;
      err := if persisted then None else Some(PersistFailure);
    }
  }

  /** newFitbitClientFromJSON: no client when the record does not decode. */
  method NewFitbitClientFromJson(decoded: Option<TokenResponse>) returns (client: FitbitClient?)
    ensures decoded.None? <==> client == null
    ensures client != null ==> fresh(client) && client.Tokens() == decoded.value && client.goalHours == 8.0
  {
    if decoded.None? {
      return null;
    }
    client := new FitbitClient.FromTokens(decoded.value);
  }

  /** After a failed refresh the access token used by the next fetch is the old one. */
  lemma FailedRefreshKeepsTokens(reply: Reply<TokenResponse>, persisted: bool)
    requires RefreshError(reply, persisted).Some?
    requires RefreshError(reply, persisted) != Some(PersistFailure)
    ensures RefreshedTokens(reply).None?
  {
  }
}
