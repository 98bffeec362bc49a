/**
 * App\Service\SessionService over a modelled Symfony session: a `started` flag and an
 * attribute map. The CSRF token manager is an oracle: the token value it hands out for an
 * intent, and its verdict on a presented value.
 */
module Sessions {
  import opened Wrappers

  /** A session attribute: a string, or some other value with its PHP truthiness. */
  datatype Attr = Text(s: string) | NonText(truthy: bool)

  class Session {
    var started: bool
    var attributes: map<string, Attr>
    /** How often the session has been started and invalidated. */
    ghost var starts: nat
    ghost var invalidations: nat

    constructor(started: bool, attributes: map<string, Attr>)
      ensures this.started == started && this.attributes == attributes
      ensures starts == 0 && invalidations == 0
    {
      this.started := started;
      this.attributes := attributes;
      starts, invalidations := 0, 0;
    }

    /** `$session->get(key)`: the attribute, or null. */
    function Get(key: string): Option<Attr>
      reads this
    {
      if key in attributes then Some(attributes[key]) else None
    }

    method Start()
      modifies this
      ensures started && attributes == old(attributes)
      ensures starts == old(starts) + 1 && invalidations == old(invalidations)
    {
      started := true;
      starts := starts + 1;
    }

    method Set(key: string, value: Attr)
      modifies this
      ensures attributes == old(attributes)[key := value]
      ensures started == old(started) && starts == old(starts) && invalidations == old(invalidations)
    {
      attributes := attributes[key := value];
    }

    /** Clears every attribute; the session stays as started as it was. */
    method Invalidate()
      modifies this
      ensures attributes == map[]
      ensures invalidations == old(invalidations) + 1
      ensures started == old(started) && starts == old(starts)
    {
      attributes := map[];
      invalidations := invalidations + 1;
    }
  }

  /** The CSRF token manager: getToken(intent)->getValue(), and isTokenValid(new CsrfToken(intent, value)). */
  datatype CsrfManager = CsrfManager(tokenValue: string -> string, isTokenValid: (string, string) -> bool)

  /** The one intent the core uses. */
  const CsrfIntent: string := "convert"

  /** getUser on an attribute map: the 'user' attribute when it is a non-empty string. */
  function UserOf(attributes: map<string, Attr>): (user: Option<string>)
    ensures user.Some? <==> "user" in attributes && attributes["user"].Text? && attributes["user"].s != ""
    ensures user.Some? ==> user.value == attributes["user"].s && user.value != ""
  {
    if "user" in attributes && attributes["user"].Text? && attributes["user"].s != "" then
      Some(attributes["user"].s)
    else
      None
  }

  class SessionService {
    const csrf: CsrfManager

    constructor(csrf: CsrfManager)
      ensures this.csrf == csrf
    {
      this.csrf := csrf;
    }

    /** startSession: start only a session that is not started yet. */
    method StartSession(session: Session)
      modifies session
      ensures session.started && session.attributes == old(session.attributes)
      ensures session.starts == if old(session.started) then old(session.starts) else old(session.starts) + 1
      ensures session.invalidations == old(session.invalidations)
    {
      if !session.started {
        session.Start();
      }
    }

    /** getTokenValue: the value of the manager's token for intent 'convert'. */
    function GetTokenValue(): (token: string)
      ensures token == csrf.tokenValue(CsrfIntent)
    {
      csrf.tokenValue(CsrfIntent)
    }

    /** isCsrfValid: null and "" are refused without asking the manager. */
    function IsCsrfValid(value: Option<string>): (valid: bool)
      ensures (value.None? || value.value == "") ==> !valid
      ensures value.Some? && value.value != "" ==> (valid <==> csrf.isTokenValid(CsrfIntent, value.value))
    {
      if value.None? || value.value == "" then false
      else csrf.isTokenValid(CsrfIntent, value.value)
    }

    function GetUser(session: Session): Option<string>
      reads session
    {
      UserOf(session.attributes)
    }

    /** setUserSession: writes the 'user' attribute and nothing else. */
    method SetUserSession(session: Session, username: string)
      modifies session
      ensures session.attributes == old(session.attributes)["user" := Text(username)]
      ensures username != "" ==> GetUser(session) == Some(username)
      ensures username == "" ==> GetUser(session) == None
      ensures session.started == old(session.started)
      ensures session.starts == old(session.starts) && session.invalidations == old(session.invalidations)
    {
      session.Set("user", Text(username));
    }

    /** logout: invalidates the session once, which drops the user. */
    method Logout(session: Session)
      modifies session
      ensures session.invalidations == old(session.invalidations) + 1
      ensures session.attributes == map[] && GetUser(session) == None
      ensures session.started == old(session.started) && session.starts == old(session.starts)
    {
      session.Invalidate();
    }
  }

  /** Starting twice starts a fresh session exactly once. */
  method StartTwice(service: SessionService, session: Session)
    modifies session
    ensures session.started
    ensures session.starts == if old(session.started) then old(session.starts) else old(session.starts) + 1
  {
    service.StartSession(session);
    service.StartSession(session);
  }

  /** Only a non-empty string counts as a user: "", a non-string value and no value do not. */
  lemma UserOfCases(name: string, other: bool)
    ensures UserOf(map["user" := Text(name)]) == if name == "" then None else Some(name)
    ensures UserOf(map["user" := NonText(other)]) == None
    ensures UserOf(map[]) == None
  {
  }
}
