/**
 * The session rules of the client: token expiry tests on the JWT `exp` claim
 * (section 4.1.4 of RFC 7519, seconds since the epoch), and the
 * startup / login / logout state machine over the two browser-storage keys
 * "token" and "user".  Decoding a token (`jwtDecode`), `JSON.parse` and
 * `JSON.stringify` are foreign code and enter as function parameters; the
 * clock is a parameter too.
 */
module AuthContext {
  import opened Wrappers

  /** The stored user record; only role and email are inspected, "" stands for a missing field. */
  datatype SessionUser = SessionUser(email: string, role: string)

  /** What `JSON.parse` makes of the stored user string. */
  datatype Parsed = Malformed | NotAnObject | UserRecord(user: SessionUser)

  /** What `jwtDecode` yields: it throws, or a payload with or without an `exp` claim. */
  datatype Claims = Undecodable | WithoutExp | WithExp(exp: real)

  /** The token decoder. */
  type Decoder = string -> Claims

  const TokenKey: string := "token"
  const UserKey: string := "user"

  /**
   * Expired, with a 5-minute margin: no token, a token that does not decode, or
   * `exp < now + 300`.  A payload without `exp` compares `undefined`, which is never less,
   * so such a token never expires.
   */
  function IsTokenExpired(token: string, decode: Decoder, nowSec: real): (expired: bool)
    ensures token == "" || decode(token).Undecodable? ==> expired
    ensures token != "" && decode(token).WithoutExp? ==> !expired
    ensures token != "" && decode(token).WithExp? ==> (expired <==> decode(token).exp < nowSec + 300.0)
    ensures expired && token != "" && decode(token).WithExp? ==> IsTokenExpiringSoon(token, decode, nowSec)
  {
    if token == "" then true
    else match decode(token)
      case Undecodable => true
      case WithoutExp => false
      case WithExp(exp) => exp < nowSec + 300.0
  }

  /**
   * Expiring within the hour: the token carries `exp` and `exp - now < 3600`; otherwise
   * false (without `exp` the difference is NaN, and NaN is not less than anything).
   */
  function IsTokenExpiringSoon(token: string, decode: Decoder, nowSec: real): (soon: bool)
    ensures soon <==> token != "" && decode(token).WithExp? && decode(token).exp - nowSec < 3600.0
  {
    if token == "" then false
    else match decode(token)
      case Undecodable => false
      case WithoutExp => false
      case WithExp(exp) => exp - nowSec < 3600.0
  }

  /** The expiry tests only move one way as the clock advances. */
  lemma ExpiryIsMonotone(token: string, decode: Decoder, earlier: real, later: real)
    requires earlier <= later
    ensures IsTokenExpired(token, decode, earlier) ==> IsTokenExpired(token, decode, later)
    ensures IsTokenExpiringSoon(token, decode, earlier) ==> IsTokenExpiringSoon(token, decode, later)
  {
  }

  /** The record carries the two fields the client relies on. */
  predicate HasRoleAndEmail(u: SessionUser) {
    u.role != "" && u.email != ""
  }

  /** `isAuthenticated`: there is a user. */
  predicate IsAuthenticated(user: Option<SessionUser>) {
    user.Some?
  }

  /** `isAdmin`: the user's role is "admin". */
  function IsAdmin(user: Option<SessionUser>): (admin: bool)
    ensures admin ==> IsUser(user) && IsAuthenticated(user)
  {
    user.Some? && user.value.role == "admin"
  }

  /** `isUser`: the user's role is "user" or "admin". */
  function IsUser(user: Option<SessionUser>): (r: bool)
    ensures r ==> IsAuthenticated(user)
  {
    user.Some? && (user.value.role == "user" || user.value.role == "admin")
  }

  /** `localStorage.getItem(key)` tested for truthiness: present and not empty. */
  predicate Stored(storage: map<string, string>, key: string) {
    key in storage && storage[key] != ""
  }

  class Session {
    var storage: map<string, string>
    var user: Option<SessionUser>
    var loading: bool
    var tokenWarning: bool

    /** The provider's initial state over whatever the browser has stored. */
    constructor (stored: map<string, string>)
      ensures storage == stored && user == None && loading && !tokenWarning
    {
      storage, user, loading, tokenWarning := stored, None, true, false;
    }

    /** Removes both session keys. */
    method ClearStorage()
      modifies this`storage
      ensures storage == old(storage) - {TokenKey, UserKey}
    {
      storage := storage - {TokenKey};
      storage := storage - {UserKey};
    }

    /**
     * `checkAuth`, run once at startup.  With both keys stored: an expired token, an
     * unreadable user string, or a user without role or email clears both keys and the user;
     * otherwise the user is set, and the warning is raised when the token expires within the
     * hour.  With either key missing the user is cleared and storage is left alone.  Loading
     * ends on every path.
     */
    method CheckAuth(decode: Decoder, parse: string -> Parsed, nowSec: real)
      modifies this
      ensures !loading
      ensures var both := Stored(old(storage), TokenKey) && Stored(old(storage), UserKey);
        if !both then
          storage == old(storage) && user == None && tokenWarning == old(tokenWarning)
        else
          var token, parsed := old(storage)[TokenKey], parse(old(storage)[UserKey]);
          if !IsTokenExpired(token, decode, nowSec) && parsed.UserRecord? && HasRoleAndEmail(parsed.user) then
            && storage == old(storage) && user == Some(parsed.user)
            && tokenWarning == (old(tokenWarning) || IsTokenExpiringSoon(token, decode, nowSec))
          else
            storage == old(storage) - {TokenKey, UserKey} && user == None && tokenWarning == old(tokenWarning)
    {
      if Stored(storage, TokenKey) && Stored(storage, UserKey) {
        var token := storage[TokenKey];
        var userData := storage[UserKey];
        if IsTokenExpired(token, decode, nowSec) {
          ClearStorage();
          user := None;
        } else {
          match parse(userData)
          case Malformed =>
            // JSON.parse threw: the catch block clears the session
            ClearStorage();
            user := None;
          case NotAnObject =>
            ClearStorage();
            user := None;
          case UserRecord(parsedUser) =>
            if HasRoleAndEmail(parsedUser) {
              user := Some(parsedUser);
              if IsTokenExpiringSoon(token, decode, nowSec) {
                tokenWarning := true;
              }
            } else {
              ClearStorage();
              user := None;
            }
        }
      } else {
        user := None;
      }
      loading := false;
    }

    /**
     * `login`: refuses, changing nothing, a user without role or email or an expired token;
     * otherwise stores token and user, sets the user and clears the warning.
     */
    method Login(userData: SessionUser, token: string, decode: Decoder, stringify: SessionUser -> string, nowSec: real)
      returns (error: Option<string>)
      modifies this
      ensures error.Some? <==> !HasRoleAndEmail(userData) || IsTokenExpired(token, decode, nowSec)
      ensures !HasRoleAndEmail(userData) ==> error == Some("Invalid user data: missing role or email")
      ensures HasRoleAndEmail(userData) && IsTokenExpired(token, decode, nowSec) ==> error == Some("Received expired token")
      ensures error.Some? ==>
        storage == old(storage) && user == old(user) && tokenWarning == old(tokenWarning) && loading == old(loading)
      ensures error.None? ==>
        && storage == old(storage)[TokenKey := token][UserKey := stringify(userData)]
        && user == Some(userData) && !tokenWarning && loading == old(loading)
    {
      if !HasRoleAndEmail(userData) {
        return Some("Invalid user data: missing role or email");
      }
      if IsTokenExpired(token, decode, nowSec) {
        return Some("Received expired token");
      }
      storage := storage[TokenKey := token];
      storage := storage[UserKey := stringify(userData)];
      user := Some(userData);
      tokenWarning := false;
      return None;
    }

    /**
     * The five-minute timer, armed only while there is a user: a stored token that has
     * expired logs out; one that is still valid but expires within the hour raises the warning.
     */
    method Tick(decode: Decoder, nowSec: real)
      modifies this
      ensures loading == old(loading)
      ensures var expired := old(user).Some? && Stored(old(storage), TokenKey)
                             && IsTokenExpired(old(storage)[TokenKey], decode, nowSec);
        if expired then
          storage == old(storage) - {TokenKey, UserKey} && user == None && !tokenWarning
        else
          && storage == old(storage) && user == old(user)
          && tokenWarning == (old(tokenWarning) || (old(user).Some? && Stored(old(storage), TokenKey)
                                                   && IsTokenExpiringSoon(old(storage)[TokenKey], decode, nowSec)))
    {
      if user.None? {
        return;
      }
      if Stored(storage, TokenKey) && IsTokenExpired(storage[TokenKey], decode, nowSec) {
        Logout();
      } else if Stored(storage, TokenKey) && IsTokenExpiringSoon(storage[TokenKey], decode, nowSec) {
        tokenWarning := true;
      }
    }

    /** `logout`: both keys removed, no user, no warning. */
    method Logout()
      modifies this
      ensures storage == old(storage) - {TokenKey, UserKey}
      ensures user == None && !tokenWarning && loading == old(loading)
    {
      ClearStorage();
      user := None;
      tokenWarning := false;
    }
  }

  /**
   * A login followed by a reload restores the same user: the next startup check finds both
   * keys and accepts them, provided the user string reads back as the user, the token was
   * not empty, and the clock has not yet reached the expiry margin.  A refused login leaves
   * storage alone, so the reload restores whatever a reload without it (`withoutLogin`) does.
   */
  method ReloadAfterLogin(
    u: SessionUser, token: string, stored: map<string, string>, decode: Decoder,
    stringify: SessionUser -> string, parse: string -> Parsed, loginSec: real, reloadSec: real)
    returns (loggedIn: bool, restored: Option<SessionUser>, withoutLogin: Option<SessionUser>)
    requires parse(stringify(u)) == UserRecord(u) && stringify(u) != ""
    requires loginSec <= reloadSec
    ensures loggedIn <==> HasRoleAndEmail(u) && !IsTokenExpired(token, decode, loginSec)
    ensures loggedIn && !IsTokenExpired(token, decode, reloadSec) ==> restored == Some(u)
    ensures loggedIn && IsTokenExpired(token, decode, reloadSec) ==> restored == None
    ensures !loggedIn ==> restored == withoutLogin
  {
    var first := new Session(stored);
    var error := first.Login(u, token, decode, stringify, loginSec);
    loggedIn := error.None?;
    var second := new Session(first.storage);
    second.CheckAuth(decode, parse, reloadSec);
    restored := second.user;
    var baseline := new Session(stored);
    baseline.CheckAuth(decode, parse, reloadSec);
    withoutLogin := baseline.user;
  }

  /** Logging out and starting again finds no session. */
  method ReloadAfterLogout(stored: map<string, string>, decode: Decoder, parse: string -> Parsed, nowSec: real)
    returns (restored: Option<SessionUser>, warning: bool)
    ensures restored == None && !warning
  {
    var s := new Session(stored);
    s.Logout();
    var again := new Session(s.storage);
    again.CheckAuth(decode, parse, nowSec);
    restored, warning := again.user, again.tokenWarning;
  }
}
