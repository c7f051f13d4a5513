/**
 * Token handling of the authenticated Gradio app (gradio_app/auth_msal.py):
 * configuration checks, the claim mapping of an ID token, the expiry test
 * with its five-minute margin, and the refresh-or-clear decision over the
 * session dictionary. Refresh follows section 6 of RFC 6749; the identity
 * provider's answers, token decoding and the clock are parameters.
 */
module MsalAuth {
  import opened Wrappers
  import opened PyValues

  const DefaultRedirectUri: string := "http://localhost:8000/auth/callback"
  const AuthorityBase: string := "https://login.microsoftonline.com/"

  /** Seconds before the recorded expiry from which a token already counts as expired. */
  const ExpiryMargin: int := 300

  /** The message of the ValueError raised for an incomplete configuration. */
  const MissingConfig: string := "Missing required Azure AD configuration. Please set AAD_CLIENT_ID, AAD_CLIENT_SECRET, and AAD_TENANT_ID"

  datatype Config = Config(clientId: string, clientSecret: string, tenantId: string, redirectUri: string, authority: string)

  /** The constructor: the three identifiers must be set and non-empty; the redirect URI has a default. */
  function MakeConfig(clientId: Option<string>, clientSecret: Option<string>, tenantId: Option<string>,
                      redirectUri: Option<string>): (r: Result<Config, PyError>)
    ensures r.Ok? <==> TruthyStr(clientId) && TruthyStr(clientSecret) && TruthyStr(tenantId)
    ensures r.Err? ==> r.error.ValueError?
    ensures r.Ok? ==> && r.value.clientId == clientId.value && r.value.tenantId == tenantId.value
                      && r.value.authority == AuthorityBase + tenantId.value
                      && r.value.redirectUri == (if redirectUri.Some? then redirectUri.value else DefaultRedirectUri)
  {
    if TruthyStr(clientId) && TruthyStr(clientSecret) && TruthyStr(tenantId) then
      Ok(Config(clientId.value, clientSecret.value, tenantId.value,
                if redirectUri.Some? then redirectUri.value else DefaultRedirectUri,
                AuthorityBase + tenantId.value))
    else Err(ValueError(MissingConfig))
  }

  /** Python's `a or b`. */
  function JsonOr(a: Json, b: Json): Json {
    if Truthy(a) then a else b
  }

  /**
   * `get_user_from_token` on the decoded claims (None when decoding failed).
   * The e-mail is the `email` claim, or `preferred_username` (section 5.1 of
   * OpenID Connect Core 1.0) when that is missing or empty.
   */
  function UserFromClaims(decoded: Option<map<string, Json>>): (r: Option<map<string, Json>>)
    ensures decoded.None? <==> r.None?
    ensures r.Some? ==>
              var c := decoded.value;
              && r.value.Keys == {"id", "name", "email", "tenant_id", "roles", "groups"}
              && r.value["id"] == GetField(c, "oid", JNone)
              && r.value["name"] == GetField(c, "name", JNone)
              && r.value["tenant_id"] == GetField(c, "tid", JNone)
              && (Truthy(GetField(c, "email", JNone)) ==> r.value["email"] == c["email"])
              && (!Truthy(GetField(c, "email", JNone)) ==> r.value["email"] == GetField(c, "preferred_username", JNone))
              && r.value["roles"] == (if "roles" in c then c["roles"] else JList([]))
              && r.value["groups"] == (if "groups" in c then c["groups"] else JList([]))
  {
    match decoded
    case None => None
    case Some(c) =>
      Some(map[
        "id" := GetField(c, "oid", JNone),
        "name" := GetField(c, "name", JNone),
        "email" := JsonOr(GetField(c, "email", JNone), GetField(c, "preferred_username", JNone)),
        "tenant_id" := GetField(c, "tid", JNone),
        "roles" := GetField(c, "roles", JList([])),
        "groups" := GetField(c, "groups", JList([]))])
  }

  /** None, or the dictionary as a value. */
  function UserValue(user: Option<map<string, Json>>): Json {
    if user.Some? then JDict(user.value) else JNone
  }

  /**
   * `refresh_token` on the provider's answer: None when the call raised, and
   * None when the answer carries an "error" key.
   */
  function RefreshToken(answer: Option<map<string, Json>>): (r: Option<map<string, Json>>)
    ensures r.Some? <==> answer.Some? && "error" !in answer.value
    ensures r.Some? ==> r.value == answer.value
  {
    if answer.Some? && "error" !in answer.value then answer else None
  }

  /** `x == 0` in Python for the values modelled: 0 and False. */
  predicate IsZero(v: Json) {
    v == JInt(0) || v == JBool(false)
  }

  predicate IsNumber(v: Json) {
    v.JInt? || v.JBool?
  }

  function NumberOf(v: Json): int
    requires IsNumber(v)
  {
    match v
    case JInt(i) => i
    case JBool(b) => if b then 1 else 0
  }

  /** Python's `a + b` on the values modelled. */
  function Add(a: Json, b: Json): (r: Result<Json, PyError>)
    ensures IsNumber(a) && IsNumber(b) ==> r == Ok(JInt(NumberOf(a) + NumberOf(b)))
  {
    if IsNumber(a) && IsNumber(b) then Ok(JInt(NumberOf(a) + NumberOf(b)))
    else if a.JStr? && b.JStr? then Ok(JStr(a.s + b.s))
    else if a.JList? && b.JList? then Ok(JList(a.items + b.items))
    else Err(TypeError("+"))
  }

  /** The expiry verdict and the token data as it is afterwards. */
  datatype Expiry = Expiry(expired: Result<bool, PyError>, tokenData: map<string, Json>)

  /**
   * `is_token_expired`. Missing or empty data, or data without "expires_in",
   * count as expired. A missing or zero "expires_at" is computed from
   * "issued_at" (default: now) and "expires_in" and written back.
   */
  function IsTokenExpired(tokenData: map<string, Json>, now: int): (r: Expiry)
    ensures |tokenData| == 0 || "expires_in" !in tokenData ==> r == Expiry(Ok(true), tokenData)
    ensures !IsZero(GetField(tokenData, "expires_at", JInt(0))) ==> r.tokenData == tokenData
    ensures r.tokenData.Keys == tokenData.Keys || r.tokenData.Keys == tokenData.Keys + {"expires_at"}
    ensures forall k | k in tokenData && k != "expires_at" :: r.tokenData[k] == tokenData[k]
  {
    if |tokenData| == 0 || "expires_in" !in tokenData then Expiry(Ok(true), tokenData)
    else
      var expiresAt := GetField(tokenData, "expires_at", JInt(0));
      if IsZero(expiresAt) then
        var issuedAt := GetField(tokenData, "issued_at", JInt(now));
        match Add(issuedAt, tokenData["expires_in"])
        case Err(e) => Expiry(Err(e), tokenData)
        case Ok(computed) => Expiry(Compare(now, computed), tokenData["expires_at" := computed])
      else Expiry(Compare(now, expiresAt), tokenData)
  }

  /** `now + 300 >= expires_at`. */
  function Compare(now: int, expiresAt: Json): (r: Result<bool, PyError>)
    ensures IsNumber(expiresAt) ==> r == Ok(now + ExpiryMargin >= NumberOf(expiresAt))
    ensures !IsNumber(expiresAt) ==> r.Err?
  {
    if IsNumber(expiresAt) then Ok(now + ExpiryMargin >= NumberOf(expiresAt)) else Err(TypeError(">="))
  }

  /** The sessions this model covers: "token_data", when truthy, is a dictionary. */
  predicate TokenDataIsDict(session: map<string, Json>) {
    "token_data" in session && Truthy(session["token_data"]) ==> session["token_data"].JDict?
  }

  /**
   * The answers of the provider that `ensure_valid_token` may need, and the
   * decoded claims of a new access token. After a refresh, `get_current_user`
   * decodes that same new token; its `currentClaims` argument is then meant
   * to be `newClaims`, which the caller supplies (the model does not tie the
   * two parameters together).
   */
  datatype Provider = Provider(refreshAnswer: Option<map<string, Json>>, newClaims: Option<map<string, Json>>)

  /** What `ensure_valid_token` returns, or raises, and the session afterwards. */
  datatype Ensured = Ensured(token: Result<Option<map<string, Json>>, PyError>, session: map<string, Json>)

  /** `ensure_valid_token`. */
  function EnsureValid(session: map<string, Json>, now: int, provider: Provider): (r: Ensured)
    requires TokenDataIsDict(session)
    ensures TokenDataIsDict(r.session)
  {
    var value := GetField(session, "token_data", JNone);
    if !Truthy(value) then Ensured(Ok(None), session)
    else
      var check := IsTokenExpired(value.fields, now);
      var checked := session["token_data" := JDict(check.tokenData)];
      match check.expired
      case Err(e) => Ensured(Err(e), checked)
      case Ok(expired) =>
        if !expired then Ensured(Ok(Some(check.tokenData)), checked)
        else
          var refresh := GetField(check.tokenData, "refresh_token", JNone);
          var renewed := if Truthy(refresh) then RefreshToken(provider.refreshAnswer) else None;
          if renewed.Some? && |renewed.value| != 0 then
            var stored := checked["token_data" := JDict(renewed.value)];
            if "access_token" !in renewed.value then Ensured(Err(KeyError("access_token")), stored)
            else Ensured(Ok(renewed), stored["user" := UserValue(UserFromClaims(provider.newClaims))])
          else Ensured(Ok(None), map[])
  }

  /** Without token data nothing happens. */
  lemma NoTokenData(session: map<string, Json>, now: int, provider: Provider)
    requires TokenDataIsDict(session)
    requires !Truthy(GetField(session, "token_data", JNone))
    ensures EnsureValid(session, now, provider) == Ensured(Ok(None), session)
  {
  }

  /** A token that is not expired is returned, and the session keeps it. */
  lemma ValidTokenKept(session: map<string, Json>, now: int, provider: Provider)
    requires TokenDataIsDict(session) && Truthy(GetField(session, "token_data", JNone))
    requires IsTokenExpired(session["token_data"].fields, now).expired == Ok(false)
    ensures var r := EnsureValid(session, now, provider);
            && r.token == Ok(Some(IsTokenExpired(session["token_data"].fields, now).tokenData))
            && r.session == session["token_data" := JDict(r.token.value.value)]
            && r.session.Keys == session.Keys
  {
  }

  /** An expired token without a usable refresh clears the whole session. */
  lemma FailedRefreshClears(session: map<string, Json>, now: int, provider: Provider)
    requires TokenDataIsDict(session) && Truthy(GetField(session, "token_data", JNone))
    requires var check := IsTokenExpired(session["token_data"].fields, now);
             && check.expired == Ok(true)
             && (!Truthy(GetField(check.tokenData, "refresh_token", JNone))
                 || provider.refreshAnswer.None? || "error" in provider.refreshAnswer.value)
    ensures EnsureValid(session, now, provider) == Ensured(Ok(None), map[])
  {
  }

  /** A successful refresh stores the new token data and the user it names, and returns the new data. */
  lemma SuccessfulRefresh(session: map<string, Json>, now: int, provider: Provider)
    requires TokenDataIsDict(session) && Truthy(GetField(session, "token_data", JNone))
    requires var check := IsTokenExpired(session["token_data"].fields, now);
             && check.expired == Ok(true)
             && Truthy(GetField(check.tokenData, "refresh_token", JNone))
    requires provider.refreshAnswer.Some? && "error" !in provider.refreshAnswer.value
    requires "access_token" in provider.refreshAnswer.value
    ensures var r := EnsureValid(session, now, provider);
            var renewed := provider.refreshAnswer.value;
            && r.token == Ok(Some(renewed))
            && r.session["token_data"] == JDict(renewed)
            && r.session["user"] == UserValue(UserFromClaims(provider.newClaims))
            && forall k | k in session && k != "token_data" && k != "user" :: k in r.session && r.session[k] == session[k]
  {
    assert |provider.refreshAnswer.value| != 0 by {
      assert "access_token" in provider.refreshAnswer.value.Keys;
    }
  }

  /** A token counts as expired exactly from five minutes before its recorded expiry. */
  lemma ExpiryMarginHolds(tokenData: map<string, Json>, now: int)
    requires "expires_in" in tokenData
    requires "expires_at" in tokenData && tokenData["expires_at"].JInt? && tokenData["expires_at"].i != 0
    ensures IsTokenExpired(tokenData, now).expired == Ok(now >= tokenData["expires_at"].i - ExpiryMargin)
    ensures IsTokenExpired(tokenData, now).tokenData == tokenData
  {
  }

  /**
   * A missing, zero or False expiry is computed from the issue time (now when
   * "issued_at" is missing) and the lifetime, and written back.
   */
  lemma ExpiryComputed(tokenData: map<string, Json>, now: int)
    requires "expires_in" in tokenData && IsNumber(tokenData["expires_in"])
    requires IsZero(GetField(tokenData, "expires_at", JInt(0)))
    requires IsNumber(GetField(tokenData, "issued_at", JInt(now)))
    ensures var at := NumberOf(GetField(tokenData, "issued_at", JInt(now))) + NumberOf(tokenData["expires_in"]);
            var r := IsTokenExpired(tokenData, now);
            && r.tokenData == tokenData["expires_at" := JInt(at)]
            && r.expired == Ok(now + ExpiryMargin >= at)
  {
  }

  /** The request's session, which the handlers change in place. */
  class Session {
    var data: map<string, Json>

    constructor(data0: map<string, Json>)
      ensures data == data0
    {
      data := data0;
    }

    /** `ensure_valid_token` on this session. */
    method EnsureValidToken(now: int, provider: Provider) returns (token: Result<Option<map<string, Json>>, PyError>)
      requires TokenDataIsDict(data)
      modifies this
      ensures Ensured(token, data) == EnsureValid(old(data), now, provider)
    {
      var value := GetField(data, "token_data", JNone);
      if !Truthy(value) {
        return Ok(None);
      }
      var check := IsTokenExpired(value.fields, now);
      data := data["token_data" := JDict(check.tokenData)];
      if check.expired.Err? {
        return Err(check.expired.error);
      }
      if !check.expired.value {
        return Ok(Some(check.tokenData));
      }
      var refresh := GetField(check.tokenData, "refresh_token", JNone);
      if Truthy(refresh) {
        var renewed := RefreshToken(provider.refreshAnswer);
        if renewed.Some? && |renewed.value| != 0 {
          data := data["token_data" := JDict(renewed.value)];
          if "access_token" !in renewed.value {
            return Err(KeyError("access_token"));
          }
          data := data["user" := UserValue(UserFromClaims(provider.newClaims))];
          return Ok(renewed);
        }
      }
      data := map[];
      token := Ok(None);
    }

    /**
     * `get_current_user`: `currentClaims` are the decoded claims of the
     * access token `ensure_valid_token` returned (after a refresh, the same
     * claims as `provider.newClaims`), read only when the session has no user.
     * Exceptions are swallowed and give None.
     */
    method GetCurrentUser(now: int, provider: Provider, currentClaims: Option<map<string, Json>>) returns (user: Json)
      requires TokenDataIsDict(data)
      modifies this
      ensures (user, data) == CurrentUser(old(data), now, provider, currentClaims)
      ensures TokenDataIsDict(data)
    {
      var token := EnsureValidToken(now, provider);
      if token.Err? || token.value.None? {
        return JNone;
      }
      user := GetField(data, "user", JNone);
      if Truthy(user) {
        return user;
      }
      var accessToken := GetField(token.value.value, "access_token", JNone);
      if Truthy(accessToken) {
        user := UserValue(UserFromClaims(currentClaims));
        data := data["user" := user];
        return user;
      }
      user := JNone;
    }
  }

  /** `get_current_user` on session values: the user, or None, and the session afterwards. */
  function CurrentUser(session: map<string, Json>, now: int, provider: Provider, currentClaims: Option<map<string, Json>>): (r: (Json, map<string, Json>))
    requires TokenDataIsDict(session)
    ensures TokenDataIsDict(r.1)
    // a user is only ever reported for a session that still holds a token
    ensures Truthy(r.0) ==> EnsureValid(session, now, provider).token.Ok? && EnsureValid(session, now, provider).token.value.Some?
    // no token (or an exception): None, with the session as ensure_valid_token left it
    ensures var e := EnsureValid(session, now, provider);
            e.token.Err? || e.token.value.None? ==> r == (JNone, e.session)
    // a token and a stored user: that user, and the session is not touched again
    ensures var e := EnsureValid(session, now, provider);
            e.token.Ok? && e.token.value.Some? && Truthy(GetField(e.session, "user", JNone)) ==>
              r == (e.session["user"], e.session)
    // a token, no stored user and an access token: the decoded user, written back into the session
    ensures var e := EnsureValid(session, now, provider);
            var u := UserValue(UserFromClaims(currentClaims));
            e.token.Ok? && e.token.value.Some? && !Truthy(GetField(e.session, "user", JNone))
              && Truthy(GetField(e.token.value.value, "access_token", JNone)) ==>
              r == (u, e.session["user" := u])
    // a token with neither a stored user nor an access token: None, session as left
    ensures var e := EnsureValid(session, now, provider);
            e.token.Ok? && e.token.value.Some? && !Truthy(GetField(e.session, "user", JNone))
              && !Truthy(GetField(e.token.value.value, "access_token", JNone)) ==>
              r == (JNone, e.session)
  {
    var e := EnsureValid(session, now, provider);
    if e.token.Err? || e.token.value.None? then (JNone, e.session)
    else
      var stored := GetField(e.session, "user", JNone);
      if Truthy(stored) then (stored, e.session)
      else if Truthy(GetField(e.token.value.value, "access_token", JNone)) then
        var user := UserValue(UserFromClaims(currentClaims));
        (user, e.session["user" := user])
      else (JNone, e.session)
  }
}
