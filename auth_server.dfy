/**
 * The web server in front of the authenticated Gradio app
 * (gradio_app/main.py): its in-memory session store and the decisions of the
 * login, callback, logout, home, status and user-name handlers. The
 * authorization-code callback checks the `state` parameter as section 4.1.2
 * and section 10.12 of RFC 6749 require before any code is exchanged. The
 * identity provider's answers, token decoding, fresh uuids and the clock are
 * parameters.
 */
module AuthServer {
  import opened Wrappers
  import opened PyValues
  import opened MsalAuth

  /** A handler's answer: a redirect, or a JSON body with a status code. */
  datatype Response = Redirect(url: string) | JsonResponse(status: int, body: map<string, Json>)

  const Unauthorized: int := 401

  // ---------------------------------------------------------------------
  // SessionStore
  // ---------------------------------------------------------------------

  /** `SessionStore.get`: the stored session, or `{}` when it is missing or empty. */
  function StoredSession(sessions: map<string, map<string, Json>>, key: string): (r: map<string, Json>)
    ensures key !in sessions ==> r == map[]
    ensures key in sessions && |sessions[key]| != 0 ==> r == sessions[key]
    ensures |r| == 0 || (key in sessions && r == sessions[key])
  {
    if key in sessions && |sessions[key]| != 0 then sessions[key] else map[]
  }

  /** The server-side session store the session middleware uses. */
  class SessionStore {
    var sessions: map<string, map<string, Json>>

    constructor()
      ensures sessions == map[]
    {
      sessions := map[];
    }

    method Get(key: string) returns (r: map<string, Json>)
      ensures r == StoredSession(sessions, key)
    {
      r := map[];
      if key in sessions {
        r := sessions[key];
      }
    }

    /** `set`: the expiry is ignored. */
    method Set(key: string, value: map<string, Json>, exp: Option<int>)
      modifies this
      ensures sessions == old(sessions)[key := value]
    {
      sessions := sessions[key := value];
    }

    method Delete(key: string)
      modifies this
      ensures sessions == old(sessions) - {key}
    {
      if key in sessions {
        sessions := sessions - {key};
      }
    }
  }

  /** What is set is what is read back, unless it is empty; other keys are not touched. */
  lemma GetAfterSet(sessions: map<string, map<string, Json>>, key: string, value: map<string, Json>, other: string)
    ensures StoredSession(sessions[key := value], key) == value
    ensures other != key ==> StoredSession(sessions[key := value], other) == StoredSession(sessions, other)
  {
  }

  /** After a delete the key reads as `{}`; deleting a missing key changes nothing. */
  lemma GetAfterDelete(sessions: map<string, map<string, Json>>, key: string)
    ensures StoredSession(sessions - {key}, key) == map[]
    ensures key !in sessions ==> sessions - {key} == sessions
  {
  }

  // ---------------------------------------------------------------------
  // Handlers, on the session dictionary
  // ---------------------------------------------------------------------

  /** `request.query_params.get(name)`. */
  function Param(query: map<string, string>, name: string): Option<string> {
    if name in query then Some(query[name]) else None
  }

  /** `/login`: remembers a fresh state and sends the browser to the provider's authorization URL. */
  function Login(session: map<string, Json>, state: string, authUrl: string): (r: (Response, map<string, Json>))
    ensures r.0 == Redirect(authUrl)
    ensures r.1 == session["oauth_state" := JStr(state)]
  {
    (Redirect(authUrl), session["oauth_state" := JStr(state)])
  }

  /** Whether the callback's `state` is present and equals the one the session remembers. */
  predicate StateMatches(session: map<string, Json>, query: map<string, string>) {
    TruthyStr(Param(query, "state")) && GetField(session, "oauth_state", JNone) == JStr(query["state"])
  }

  /** What the callback answers, the session afterwards, and the code it exchanged, if any. */
  datatype Callback = Callback(response: Response, session: map<string, Json>, exchanged: Option<string>)

  /**
   * `/auth/callback`. `answer` is the provider's answer to the code exchange
   * (an error when the call itself raised); `decoded` are the claims of the
   * access token it returns.
   */
  function AuthCallback(session: map<string, Json>, query: map<string, string>,
                        answer: Result<map<string, Json>, PyError>, decoded: Option<map<string, Json>>): (r: Callback)
    // no code is exchanged unless the state matches; a mismatch changes nothing
    ensures !StateMatches(session, query) ==> r == Callback(Redirect("/?error=invalid_state"), session, None)
    ensures r.exchanged.Some? ==> StateMatches(session, query) && r.exchanged == Param(query, "code")
    // a missing code is reported with the provider's error and stores nothing
    ensures StateMatches(session, query) && !TruthyStr(Param(query, "code")) ==>
              r == Callback(Redirect("/?error=" + StrOf(Param(query, "error"))), session, None)
    // success: the user and the token are stored and the state is forgotten
    ensures r.response == Redirect("/gradio") ==>
              && r.exchanged.Some?
              && "oauth_state" !in r.session
              && "token_data" in r.session && r.session["token_data"].JDict?
              && "access_token" in r.session["token_data"].fields
              && "user" in r.session && r.session["user"].JDict?
  {
    if !StateMatches(session, query) then Callback(Redirect("/?error=invalid_state"), session, None)
    else
      var code := Param(query, "code");
      if !TruthyStr(code) then Callback(Redirect("/?error=" + StrOf(Param(query, "error"))), session, None)
      else
        match answer
        case Err(_) => Callback(Redirect("/?error=unexpected_error"), session, code)
        case Ok(result) =>
          if "error" in result then Callback(Redirect("/?error=auth_failed"), session, code)
          else if "access_token" !in result then Callback(Redirect("/?error=unexpected_error"), session, code)
          else
            var user := UserFromClaims(decoded);
            var stored := session["user" := UserValue(user)]["token_data" := JDict(result)];
            if user.None? then Callback(Redirect("/?error=unexpected_error"), stored, code)
            else Callback(Redirect("/gradio"), stored - {"oauth_state"}, code)
  }

  /** Logging in and coming back with the same state and a code that the provider accepts signs the user in. */
  lemma LoginThenCallback(session: map<string, Json>, state: string, authUrl: string, code: string,
                          result: map<string, Json>, claims: map<string, Json>)
    requires state != "" && code != ""
    requires "error" !in result && "access_token" in result
    ensures var (_, afterLogin) := Login(session, state, authUrl);
            var r := AuthCallback(afterLogin, map["state" := state, "code" := code], Ok(result), Some(claims));
            && r.response == Redirect("/gradio")
            && r.exchanged == Some(code)
            && r.session["token_data"] == JDict(result)
            && r.session["user"] == UserValue(UserFromClaims(Some(claims)))
            && "oauth_state" !in r.session
  {
    var (_, afterLogin) := Login(session, state, authUrl);
    assert StateMatches(afterLogin, map["state" := state, "code" := code]);
  }

  /** `/`: an error parameter always gives 401; otherwise a signed-in user goes to the app and anyone else to login. */
  function Home(session: map<string, Json>, query: map<string, string>, now: int, provider: Provider,
                currentClaims: Option<map<string, Json>>): (r: (Response, map<string, Json>))
    requires TokenDataIsDict(session)
    ensures TruthyStr(Param(query, "error")) ==>
              r.0 == JsonResponse(Unauthorized, map["error" := JStr("Authentication error: " + query["error"])])
    ensures !TruthyStr(Param(query, "error")) ==>
              r.0 == Redirect(if Truthy(CurrentUser(session, now, provider, currentClaims).0) then "/gradio" else "/login")
    ensures r.1 == CurrentUser(session, now, provider, currentClaims).1
  {
    var (user, after) := CurrentUser(session, now, provider, currentClaims);
    var error := Param(query, "error");
    if TruthyStr(error) then (JsonResponse(Unauthorized, map["error" := JStr("Authentication error: " + error.value)]), after)
    else if Truthy(user) then (Redirect("/gradio"), after)
    else (Redirect("/login"), after)
  }

  /** `/auth/status`. */
  function AuthStatus(session: map<string, Json>, now: int, provider: Provider,
                      currentClaims: Option<map<string, Json>>): (r: (Response, map<string, Json>))
    requires TokenDataIsDict(session)
    ensures r.0.JsonResponse?
    ensures r.0.status == 200 <==> Truthy(CurrentUser(session, now, provider, currentClaims).0)
    ensures r.0.status != 200 ==> r.0.status == Unauthorized && "authenticated" in r.0.body && r.0.body["authenticated"] == JBool(false)
  {
    var (user, after) := CurrentUser(session, now, provider, currentClaims);
    if Truthy(user) then
      (JsonResponse(200, map["authenticated" := JBool(true), "user" := user, "message" := JStr("User is authenticated")]), after)
    else
      (JsonResponse(Unauthorized, map["authenticated" := JBool(false), "login_url" := JStr("/login"),
                                      "message" := JStr("Authentication required")]), after)
  }

  /** `get_user_name`: the user's name, else their e-mail, else None. */
  function UserName(user: Json): (r: Result<Json, PyError>)
    ensures !Truthy(user) ==> r == Ok(JNone)
    ensures user.JDict? && Truthy(user) ==>
              r == Ok(if Truthy(GetField(user.fields, "name", JNone)) then user.fields["name"] else GetField(user.fields, "email", JNone))
  {
    if !Truthy(user) then Ok(JNone)
    else if user.JDict? then Ok(JsonOr(GetField(user.fields, "name", JNone), GetField(user.fields, "email", JNone)))
    else Err(AttributeError("get"))
  }

  /** `/logout`: the session is emptied and the browser sent to the provider's logout page. */
  function Logout(session: map<string, Json>, tenantId: string, homeUrl: string): (r: (Response, map<string, Json>))
    ensures r.1 == map[]
    ensures r.0 == Redirect(AuthorityBase + tenantId + "/oauth2/v2.0/logout?post_logout_redirect_uri=" + homeUrl)
  {
    (Redirect(AuthorityBase + tenantId + "/oauth2/v2.0/logout?post_logout_redirect_uri=" + homeUrl), map[])
  }

  // ---------------------------------------------------------------------
  // Handlers, on the request's session object
  // ---------------------------------------------------------------------

  method LoginHandler(session: Session, state: string, authUrl: string) returns (response: Response)
    modifies session
    ensures (response, session.data) == Login(old(session.data), state, authUrl)
  {
    session.data := session.data["oauth_state" := JStr(state)];
    response := Redirect(authUrl);
  }

  method AuthCallbackHandler(session: Session, query: map<string, string>,
                             answer: Result<map<string, Json>, PyError>, decoded: Option<map<string, Json>>)
    returns (response: Response, exchanged: Option<string>)
    modifies session
    ensures Callback(response, session.data, exchanged) == AuthCallback(old(session.data), query, answer, decoded)
  {
    exchanged := None;
    var state := Param(query, "state");
    var sessionState := GetField(session.data, "oauth_state", JNone);
    if !TruthyStr(state) || sessionState != JStr(state.value) {
      return Redirect("/?error=invalid_state"), None;
    }
    var code := Param(query, "code");
    if !TruthyStr(code) {
      return Redirect("/?error=" + StrOf(Param(query, "error"))), None;
    }
    exchanged := code;
    if answer.Err? {
      return Redirect("/?error=unexpected_error"), exchanged;
    }
    var tokenData := answer.value;
    if "error" in tokenData {
      return Redirect("/?error=auth_failed"), exchanged;
    }
    if "access_token" !in tokenData {
      return Redirect("/?error=unexpected_error"), exchanged;
    }
    var user := UserFromClaims(decoded);
    session.data := session.data["user" := UserValue(user)];
    session.data := session.data["token_data" := JDict(tokenData)];
    if user.None? {
      return Redirect("/?error=unexpected_error"), exchanged;
    }
    session.data := session.data - {"oauth_state"};
    response := Redirect("/gradio");
  }

  method HomeHandler(session: Session, query: map<string, string>, now: int, provider: Provider,
                     currentClaims: Option<map<string, Json>>) returns (response: Response)
    requires TokenDataIsDict(session.data)
    modifies session
    ensures (response, session.data) == Home(old(session.data), query, now, provider, currentClaims)
  {
    var user := session.GetCurrentUser(now, provider, currentClaims);
    var error := Param(query, "error");
    if TruthyStr(error) {
      response := JsonResponse(Unauthorized, map["error" := JStr("Authentication error: " + error.value)]);
    } else if Truthy(user) {
      response := Redirect("/gradio");
    } else {
      response := Redirect("/login");
    }
  }

  method LogoutHandler(session: Session, tenantId: string, homeUrl: string) returns (response: Response)
    modifies session
    ensures (response, session.data) == Logout(old(session.data), tenantId, homeUrl)
  {
    session.data := map[];
    response := Redirect(AuthorityBase + tenantId + "/oauth2/v2.0/logout?post_logout_redirect_uri=" + homeUrl);
  }
}
