/**
 * App\Controller\SessionController: the CSRF token, session, login and logout endpoints over
 * SessionService. Every action starts the session first.
 */
module SessionApi {
  import opened Wrappers
  import opened PhpStrings
  import opened PhpValues
  import opened Http
  import opened Sessions

  /** The username login reads: `trim((string)($data['username'] ?? ''))`, where an empty
      body and one that fails to decode leave `$data` as []. A decoded scalar has no
      'username' entry, so `??` gives ''. */
  function LoginName(body: Body): (name: string)
    ensures !(body.Decoded? && body.json.JsonObject?) ==> name == ""
    ensures name == [] || (!IsTrimmable(name[0]) && !IsTrimmable(name[|name| - 1]))
  {
    match body
    case Decoded(JsonObject(entries)) => Trim(ToText(Coalesce(entries, "username", OtherStr("", 0.0))))
    case _ => ""
  }

  class SessionController {
    const sessions: SessionService

    constructor(sessions: SessionService)
      ensures this.sessions == sessions
    {
      this.sessions := sessions;
    }

    /** GET /api/csrf. */
    method GetCsrfToken(session: Session) returns (resp: Response)
      modifies session
      ensures session.started && session.attributes == old(session.attributes)
      ensures session.invalidations == old(session.invalidations)
      ensures resp == Response(200, TokenBody(sessions.csrf.tokenValue(CsrfIntent)))
    {
      sessions.StartSession(session);
      resp := Response(200, TokenBody(sessions.GetTokenValue()));
    }

    /** GET /api/session: authenticated exactly when getUser finds a user. */
    method GetSession(session: Session) returns (resp: Response)
      modifies session
      ensures session.started && session.attributes == old(session.attributes)
      ensures session.invalidations == old(session.invalidations)
      ensures resp.status == 200 && resp.payload.SessionBody?
      ensures resp.payload.user == UserOf(old(session.attributes))
      ensures resp.payload.authenticated <==> UserOf(old(session.attributes)).Some?
    {
      sessions.StartSession(session);
      var user := sessions.GetUser(session);
      resp := Response(200, SessionBody(user.Some?, user));
    }

    /** POST /api/session/login. */
    method Login(request: Request, session: Session) returns (resp: Response)
      modifies session
      ensures session.started && session.invalidations == old(session.invalidations)
      ensures !sessions.IsCsrfValid(request.csrfToken) ==>
        resp == Response(403, ErrorBody("Invalid CSRF token")) && session.attributes == old(session.attributes)
      ensures sessions.IsCsrfValid(request.csrfToken) && LoginName(request.body) == "" ==>
        resp == Response(422, ErrorBody("Username required")) && session.attributes == old(session.attributes)
      ensures sessions.IsCsrfValid(request.csrfToken) && LoginName(request.body) != "" ==>
        && resp == Response(200, LoginBody(true, Some(LoginName(request.body))))
        && session.attributes == old(session.attributes)["user" := Text(LoginName(request.body))]
        && UserOf(session.attributes) == Some(LoginName(request.body))
    {
      sessions.StartSession(session);
      var token := request.csrfToken;
      if !sessions.IsCsrfValid(token) {
        return Response(403, ErrorBody("Invalid CSRF token"));
      }
      var username := LoginName(request.body);
      if username == "" {
        return Response(422, ErrorBody("Username required"));
      }
      sessions.SetUserSession(session, username);
      resp := Response(200, LoginBody(true, Some(username)));
    }

    /** POST /api/session/logout. */
    method Logout(request: Request, session: Session) returns (resp: Response)
      modifies session
      ensures session.started
      ensures !sessions.IsCsrfValid(request.csrfToken) ==>
        && resp == Response(403, ErrorBody("Invalid CSRF token"))
        && session.attributes == old(session.attributes)
        && session.invalidations == old(session.invalidations)
      ensures sessions.IsCsrfValid(request.csrfToken) ==>
        && resp == Response(200, LoginBody(true, None))
        && session.attributes == map[]
        && session.invalidations == old(session.invalidations) + 1
    {
      sessions.StartSession(session);
      var token := request.csrfToken;
      if !sessions.IsCsrfValid(token) {
        return Response(403, ErrorBody("Invalid CSRF token"));
      }
      sessions.Logout(session);
      resp := Response(200, LoginBody(true, None));
    }
  }

  /** A string username is read as its trimmed text. */
  lemma LoginNameOf(entries: Fields, text: string, value: real)
    requires "username" in entries && entries["username"] == OtherStr(text, value)
    ensures LoginName(Decoded(JsonObject(entries))) == Trim(text)
  {
    assert Coalesce(entries, "username", OtherStr("", 0.0)) == OtherStr(text, value);
  }

  /** Padding around the username is dropped: "  alice " logs in as "alice". */
  lemma LoginNameTrimmed(pre: string, name: string, post: string)
    requires forall k :: 0 <= k < |pre| ==> IsTrimmable(pre[k])
    requires forall k :: 0 <= k < |post| ==> IsTrimmable(post[k])
    ensures LoginName(Decoded(JsonObject(map["username" := OtherStr(pre + name + post, 0.0)])))
      == Trim(name)
  {
    var padded := pre + name + post;
    LoginNameOf(map["username" := OtherStr(padded, 0.0)], padded, 0.0);
    TrimIgnoresPadding(pre, name, post);
  }

  /** A login followed by a session check reports that user; a logout then clears it. */
  method LoginThenSession(controller: SessionController, session: Session, token: string, name: string)
    returns (login: Response, check: Response, logout: Response, after: Response)
    requires controller.sessions.csrf.isTokenValid(CsrfIntent, token) && token != ""
    requires name != "" && !IsTrimmable(name[0]) && !IsTrimmable(name[|name| - 1])
    modifies session
    ensures login == Response(200, LoginBody(true, Some(name)))
    ensures check == Response(200, SessionBody(true, Some(name)))
    ensures logout == Response(200, LoginBody(true, None))
    ensures after == Response(200, SessionBody(false, None))
  {
    var request := Request(map[], Some(token), None,
      Decoded(JsonObject(map["username" := OtherStr(name, 0.0)])));
    TrimKeepsTrimmed(name);
    LoginNameOf(request.body.json.entries, name, 0.0);
    assert LoginName(request.body) == name;
    assert controller.sessions.IsCsrfValid(request.csrfToken);
    login := controller.Login(request, session);
    assert UserOf(session.attributes) == Some(name);
    check := controller.GetSession(session);
    logout := controller.Logout(request, session);
    assert session.attributes == map[];
    after := controller.GetSession(session);
  }
}
