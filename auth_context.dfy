/**
 * The client's session (`AuthProvider`): the token kept in local storage
 * under the key `token`, the `Authorization` header that axios attaches to
 * every request, the decoded user, and the `loading` flag that is true until
 * the start-up check has run. Decoding a token (`jwtDecode`) is a parameter,
 * a partial function given as `string -> Option<Claims>`; the server's
 * replies and the clock (`Date.now()`, in milliseconds) are parameters too.
 *
 * `Session` is the state as a value and the functions below are the
 * transitions; the class `AuthProvider` holds the same state in fields and
 * its methods are proved to make exactly those transitions.
 */
module AuthContext {
  import opened Wrappers
  import opened JsParseInt

  /** The claims of a token; `exp` is its expiry in seconds since the epoch, if present. */
  datatype Claims = Claims(id: string, name: string, exp: Option<int>)

  datatype Session = Session(storedToken: Option<string>, authHeader: Option<string>, user: Option<Claims>, loading: bool)

  /** What the login endpoint answered: a token, or an error with the `message` of its body, if any. */
  datatype LoginReply = TokenIssued(token: string) | LoginRejected(message: Option<string>)

  /** What the registration endpoint answered. */
  datatype RegisterReply = Registered | RegisterRejected(message: Option<string>)

  /** The object `login` and `signup` return: `{success: true, message?}` or `{success: false, error}`. */
  datatype AuthResult = Succeeded(message: Option<string>) | Failed(error: string)

  /** The body `signup` posts; `age` is `parseInt(age)`, with NaN (sent as `null`) as `None`. */
  datatype RegisterRequest = RegisterRequest(email: string, password: string, name: string, age: Option<int>)

  const LoginFailedMessage := "Login failed"
  const RegistrationFailedMessage := "Registration failed"
  const RegisteredMessage := "Registration successful! Please login."

  function BearerHeader(token: string): string {
    "Bearer " + token
  }

  /** `decoded.exp * 1000 > Date.now()`; a missing `exp` gives NaN, and the comparison is false. */
  function Unexpired(c: Claims, nowMs: int): (b: bool)
    ensures c.exp.None? ==> !b
    ensures b ==> nowMs < c.exp.value * 1000
  {
    c.exp.Some? && c.exp.value * 1000 > nowMs
  }

  /** The state before the start-up check, with whatever token storage already holds. */
  function Initial(stored: Option<string>): (s: Session)
    ensures s.loading && s.user.None? && s.authHeader.None? && s.storedToken == stored
  {
    Session(stored, None, None, true)
  }

  /** `if (token)`: storage holds a token that is not the empty string. */
  function HasToken(s: Session): (b: bool)
    ensures s.storedToken == None || s.storedToken == Some("") ==> !b
  {
    s.storedToken.Some? && s.storedToken.value != ""
  }

  /** The stored token decodes to claims that have not expired. */
  predicate Usable(s: Session, decode: string -> Option<Claims>, nowMs: int) {
    HasToken(s) && decode(s.storedToken.value).Some? && Unexpired(decode(s.storedToken.value).value, nowMs)
  }

  /**
   * The start-up effect. It always ends loading; it keeps the session
   * exactly when the stored token decodes to unexpired claims, and then the
   * user is those claims and the header carries the token; an expired or
   * undecodable token is removed from storage and the user stays as it was.
   */
  function Restore(s: Session, decode: string -> Option<Claims>, nowMs: int): (r: Session)
    ensures !r.loading
    ensures Usable(s, decode, nowMs) ==>
      r.user == decode(s.storedToken.value) && r.authHeader == Some(BearerHeader(s.storedToken.value))
      && r.storedToken == s.storedToken
    ensures HasToken(s) && !Usable(s, decode, nowMs) ==>
      r.storedToken.None? && r.user == s.user && r.authHeader == s.authHeader
    ensures !HasToken(s) ==> r == s.(loading := false)
  {
    if HasToken(s) then
      var token := s.storedToken.value;
      match decode(token)
      case Some(claims) =>
        if Unexpired(claims, nowMs) then
          s.(user := Some(claims), authHeader := Some(BearerHeader(token)), loading := false)
        else
          s.(storedToken := None, loading := false)
      case None => s.(storedToken := None, loading := false)
    else
      s.(loading := false)
  }

  /** `error.response?.data?.message || fallback`. */
  function MessageOr(message: Option<string>, fallback: string): (r: string)
    ensures r == fallback || (message == Some(r) && r != "")
    ensures message.Some? && message.value != "" ==> r == message.value
  {
    if message.Some? && message.value != "" then message.value else fallback
  }

  /**
   * `login`. On a token the token is stored and the header set before the
   * token is decoded, so a token that does not decode stays stored while
   * the result is a failure; a token that decodes sets the user with no
   * expiry check. A rejected login changes nothing.
   */
  function AfterLogin(s: Session, reply: LoginReply, decode: string -> Option<Claims>): (r: (Session, AuthResult))
    ensures r.1.Succeeded? <==> reply.TokenIssued? && decode(reply.token).Some?
    ensures r.1.Succeeded? ==> r.1.message.None? && r.0.user == decode(reply.token)
    ensures reply.TokenIssued? ==>
      r.0.storedToken == Some(reply.token) && r.0.authHeader == Some(BearerHeader(reply.token))
    ensures r.1.Failed? ==> r.0.user == s.user
    ensures reply.TokenIssued? && r.1.Failed? ==> r.1.error == LoginFailedMessage
    ensures reply.LoginRejected? ==> r.0 == s && r.1 == Failed(MessageOr(reply.message, LoginFailedMessage))
    ensures r.0.loading == s.loading
  {
    match reply
    case TokenIssued(token) =>
      var t := s.(storedToken := Some(token), authHeader := Some(BearerHeader(token)));
      (match decode(token)
       case Some(claims) => (t.(user := Some(claims)), Succeeded(None))
       case None => (t, Failed(LoginFailedMessage)))
    case LoginRejected(message) => (s, Failed(MessageOr(message, LoginFailedMessage)))
  }

  /** `logout`: storage emptied, header removed, user cleared. */
  function LoggedOut(s: Session): (r: Session)
    ensures r.storedToken.None? && r.authHeader.None? && r.user.None? && r.loading == s.loading
  {
    s.(storedToken := None, authHeader := None, user := None)
  }

  /**
   * `signup`: the request it posts, with the age read by `parseInt`, and
   * its result; it never touches the session.
   */
  function Register(email: string, password: string, name: string, age: string, reply: RegisterReply): (r: (RegisterRequest, AuthResult))
    ensures r.0 == RegisterRequest(email, password, name, ParseInt(age))
    ensures r.1.Succeeded? <==> reply.Registered?
    ensures r.1.Succeeded? ==> r.1.message == Some(RegisteredMessage)
    ensures reply.RegisterRejected? ==> r.1.error == MessageOr(reply.message, RegistrationFailedMessage)
  {
    var request := RegisterRequest(email, password, name, ParseInt(age));
    match reply
    case Registered => (request, Succeeded(Some(RegisteredMessage)))
    case RegisterRejected(message) => (request, Failed(MessageOr(message, RegistrationFailedMessage)))
  }

  /** Logging out twice is logging out once. */
  lemma LogoutIdempotent(s: Session)
    ensures LoggedOut(LoggedOut(s)) == LoggedOut(s)
  {
  }

  /** After a logout, a reload finds no session, whatever the state was. */
  lemma LogoutThenRestoreFindsNothing(s: Session, decode: string -> Option<Claims>, nowMs: int)
    ensures Restore(LoggedOut(s), decode, nowMs).user.None?
    ensures Restore(LoggedOut(s), decode, nowMs).storedToken.None?
  {
  }

  /** An expired stored token is removed at start-up and leaves no user. */
  lemma ExpiredTokenDropped(stored: string, decode: string -> Option<Claims>, nowMs: int)
    requires stored != "" && decode(stored).Some? && decode(stored).value.exp.Some?
    requires decode(stored).value.exp.value * 1000 <= nowMs
    ensures Restore(Initial(Some(stored)), decode, nowMs) == Session(None, None, None, false)
  {
  }

  /** A token is kept at start-up up to the millisecond before its expiry, and not at it. */
  lemma ExpiryIsStrict(stored: string, c: Claims, decode: string -> Option<Claims>)
    requires stored != "" && decode(stored) == Some(c) && c.exp.Some?
    ensures Restore(Initial(Some(stored)), decode, c.exp.value * 1000 - 1).user == Some(c)
    ensures Restore(Initial(Some(stored)), decode, c.exp.value * 1000).user.None?
  {
  }

  /** Login sets the user even from a token that has already expired. */
  lemma LoginIgnoresExpiry(s: Session, token: string, c: Claims, decode: string -> Option<Claims>, nowMs: int)
    requires decode(token) == Some(c) && !Unexpired(c, nowMs)
    ensures AfterLogin(s, TokenIssued(token), decode).0.user == Some(c)
  {
  }

  class AuthProvider {
    var storedToken: Option<string>
    var authHeader: Option<string>
    var user: Option<Claims>
    var loading: bool

    function State(): Session
      reads this
    {
      Session(storedToken, authHeader, user, loading)
    }

    /** Mounting the provider: `user` null, `loading` true, storage as found. */
    constructor (stored: Option<string>)
      ensures State() == Initial(stored)
    {
      storedToken := stored;
      authHeader := None;
      user := None;
      loading := true;
    }

    /** The start-up effect. */
    method RestoreSession(decode: string -> Option<Claims>, nowMs: int)
      modifies this
      ensures State() == Restore(old(State()), decode, nowMs)
    {
      if storedToken.Some? && storedToken.value != "" {
        var token := storedToken.value;
        var decoded := decode(token);
        if decoded.Some? && Unexpired(decoded.value, nowMs) {
          user := decoded;
          authHeader := Some(BearerHeader(token));
        } else {
          storedToken := None;
        }
      }
      loading := false;
    }

    method Login(email: string, password: string, reply: LoginReply, decode: string -> Option<Claims>)
      returns (result: AuthResult)
      modifies this
      ensures (State(), result) == AfterLogin(old(State()), reply, decode)
    {
      match reply {
        case TokenIssued(token) =>
          storedToken := Some(token);
          authHeader := Some(BearerHeader(token));
          var decoded := decode(token);
          if decoded.Some? {
            user := decoded;
            result := Succeeded(None);
          } else {
            result := Failed(LoginFailedMessage);
          }
        case LoginRejected(message) =>
          result := Failed(MessageOr(message, LoginFailedMessage));
      }
    }

    /** `signup` changes no field; it returns what it posted and what came back. */
    method Signup(email: string, password: string, name: string, age: string, reply: RegisterReply)
      returns (request: RegisterRequest, result: AuthResult)
      ensures request == RegisterRequest(email, password, name, ParseInt(age))
      ensures result.Succeeded? <==> reply.Registered?
      ensures result == Register(email, password, name, age, reply).1
    {
      request := RegisterRequest(email, password, name, ParseInt(age));
      if reply.Registered? {
        result := Succeeded(Some(RegisteredMessage));
      } else {
        result := Failed(MessageOr(reply.message, RegistrationFailedMessage));
      }
    }

    method Logout()
      modifies this
      ensures State() == LoggedOut(old(State()))
    {
      storedToken := None;
      authHeader := None;
      user := None;
    }
  }
}
