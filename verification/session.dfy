/**
 * `SessionService`: a mock login against one hard-coded account, with the
 * session token kept in `localStorage` under `auth-token`. The token is the
 * base64 encoding of `email:timestamp`; restoring a session reads the email
 * back out of it. The clock is a parameter.
 */
module Session {
  import opened Wrappers
  import opened JsValues
  import opened Base64

  const AuthTokenKey: string := "auth-token"
  const DemoEmail: string := "user@example.com"
  const DemoPassword: string := "password123"
  const DemoName: string := "John Doe"
  const InvalidCredentials: string := "Invalid email or password"

  datatype User = User(email: string, name: string)
  datatype Credentials = Credentials(email: string, password: string)

  /** How an operation that may throw ended. */
  datatype Outcome = Done | Threw(message: string)

  /** `s.split(':')[0]`: the text before the first colon, or all of `s`. */
  function BeforeColon(s: string): (r: string)
    ensures |r| <= |s| && r == s[..|r|]
    ensures ':' !in r
    ensures |r| < |s| ==> s[|r|] == ':'
  {
    if s == [] then []
    else if s[0] == ':' then []
    else [s[0]] + BeforeColon(s[1..])
  }

  /** The email a stored token names: the text before the first colon of its
      base64 decoding, provided the token decodes and that text is not empty. */
  function TokenEmail(token: string): (r: Option<string>)
    ensures r.Some? ==> r.value != "" && ':' !in r.value
    ensures r.Some? ==> Atob(token).Some? && BeforeColon(Atob(token).value) == r.value
    ensures Atob(token).Some? && BeforeColon(Atob(token).value) != "" ==>
      r == Some(BeforeColon(Atob(token).value))
  {
    match Atob(token)
    case None => None
    case Some(decoded) =>
      var email := BeforeColon(decoded);
      if email == "" then None else Some(email)
  }

  /** Any token that decodes to `e:rest`, wherever it came from, names `e`
      when `e` is non-empty and colon-free. */
  lemma TokenEmailOfJoin(token: string, e: string, rest: string)
    requires Atob(token) == Some(e + ":" + rest)
    requires e != "" && ':' !in e
    ensures TokenEmail(token) == Some(e)
  {
    BeforeColonOfJoin(e, rest);
  }

  /** The token `login` issues at time `now`: `btoa(email + ':' + now)`. */
  function LoginToken(email: string, now: int): (t: string)
    requires IsLatin1(email)
    ensures |t| % 4 == 0
    ensures Atob(t) == Some(email + ":" + IntToDecimal(now))
  {
    TimestampedIsLatin1(email, now);
    RoundTrip(email + ":" + IntToDecimal(now));
    Encode(email + ":" + IntToDecimal(now))
  }

  lemma TimestampedIsLatin1(email: string, now: int)
    requires IsLatin1(email)
    ensures IsLatin1(email + ":" + IntToDecimal(now))
  {
    var t := IntToDecimal(now);
    var s := email + ":" + t;
    forall i | 0 <= i < |s| ensures (s[i] as int) < 256 {
      if i > |email| {
        assert s[i] == t[i - |email| - 1];
      }
    }
  }

  /** Splitting at the first colon recovers a colon-free prefix. */
  lemma {:induction false} BeforeColonOfJoin(a: string, b: string)
    requires ':' !in a
    ensures BeforeColon(a + ":" + b) == a
  {
    if a == [] {
      assert a + ":" + b == [':'] + b;
    } else {
      assert (a + ":" + b)[1..] == a[1..] + ":" + b;
      assert a[0] in a;
      BeforeColonOfJoin(a[1..], b);
      assert [a[0]] + a[1..] == a;
    }
  }

  /** A token written by `login` restores to the same email, as long as the
      email has no colon and fits in bytes. */
  lemma LoginTokenRestores(email: string, now: int)
    requires IsLatin1(email) && ':' !in email && email != ""
    ensures TokenEmail(LoginToken(email, now)) == Some(email)
  {
    var text := email + ":" + IntToDecimal(now);
    TimestampedIsLatin1(email, now);
    RoundTrip(text);
    BeforeColonOfJoin(email, IntToDecimal(now));
  }

  /** The demo account's tokens restore to the demo account. */
  lemma DemoTokenRestores(now: int)
    ensures IsLatin1(DemoEmail)
    ensures TokenEmail(LoginToken(DemoEmail, now)) == Some(DemoEmail)
  {
    assert ':' !in DemoEmail;
    LoginTokenRestores(DemoEmail, now);
  }

  /** The browser's `localStorage`. */
  class LocalStorage {
    var entries: map<string, string>

    constructor ()
      ensures entries == map[]
    {
      entries := map[];
    }

    function GetItem(key: string): (r: Option<string>)
      reads this
      ensures r.Some? <==> key in entries
      ensures r.Some? ==> r.value == entries[key]
    {
      if key in entries then Some(entries[key]) else None
    }

    method SetItem(key: string, value: string)
      modifies this
      ensures entries == old(entries)[key := value]
    {
      entries := entries[key := value];
    }

    method RemoveItem(key: string)
      modifies this
      ensures entries == old(entries) - {key}
    {
      entries := entries - {key};
    }
  }

  class SessionService {
    var isAuthenticated: bool
    var currentUser: Option<User>
    var token: Option<string>
    const storage: LocalStorage

    /** The three fields are set and cleared together, and a signed-in user is
        exactly the one the in-memory token names. */
    ghost predicate Valid()
      reads this
    {
      && (isAuthenticated <==> currentUser.Some?)
      && (isAuthenticated <==> token.Some?)
      && (isAuthenticated ==>
            currentUser.value.name == DemoName && TokenEmail(token.value) == Some(currentUser.value.email))
    }

    /** A new service is signed out. */
    constructor (s: LocalStorage)
      ensures Valid() && storage == s
      ensures !isAuthenticated && currentUser == None && token == None
    {
      storage := s;
      isAuthenticated, currentUser, token := false, None, None;
    }

    /** Sets the three fields for the user a token names. */
    method SignIn(email: string, t: string)
      requires TokenEmail(t) == Some(email)
      modifies this
      ensures Valid()
      ensures isAuthenticated && currentUser == Some(User(email, DemoName)) && token == Some(t)
    {
      token := Some(t);
      currentUser := Some(User(email, DemoName));
      isAuthenticated := true;
    }

    /** `login`: only the demo account is accepted; it gets a fresh token, kept
        in memory and under `auth-token`. Anything else throws and changes nothing. */
    method Login(credentials: Credentials, now: int) returns (outcome: Outcome)
      requires Valid()
      modifies this, storage
      ensures Valid()
      ensures credentials == Credentials(DemoEmail, DemoPassword) ==>
        && outcome == Done
        && isAuthenticated
        && currentUser == Some(User(DemoEmail, DemoName))
        && token == Some(LoginToken(DemoEmail, now))
        && storage.entries == old(storage.entries)[AuthTokenKey := token.value]
      ensures credentials != Credentials(DemoEmail, DemoPassword) ==>
        && outcome == Threw(InvalidCredentials)
        && isAuthenticated == old(isAuthenticated)
        && currentUser == old(currentUser)
        && token == old(token)
        && storage.entries == old(storage.entries)
    {
      if credentials == Credentials(DemoEmail, DemoPassword) {
        DemoTokenRestores(now);
        var t := LoginToken(DemoEmail, now);
        SignIn(DemoEmail, t);
        storage.SetItem(AuthTokenKey, t);
        outcome := Done;
      } else {
        outcome := Threw(InvalidCredentials);
      }
    }

    /** `logout`: signs out and drops the stored token; doing it twice is the same as once. */
    method Logout()
      modifies this, storage
      ensures Valid()
      ensures !isAuthenticated && currentUser == None && token == None
      ensures storage.entries == old(storage.entries) - {AuthTokenKey}
    {
      isAuthenticated := false;
      currentUser := None;
      token := None;
      storage.RemoveItem(AuthTokenKey);
    }

    /** `restoreSession`: a missing or empty stored token does nothing; one
        that names an email signs that email in; any other token is removed
        from storage and the session is left as it was. */
    method RestoreSession()
      requires Valid()
      modifies this, storage
      ensures Valid()
      ensures AuthTokenKey !in old(storage.entries) || old(storage.entries)[AuthTokenKey] == "" ==>
        && isAuthenticated == old(isAuthenticated) && currentUser == old(currentUser) && token == old(token)
        && storage.entries == old(storage.entries)
      ensures AuthTokenKey in old(storage.entries) && old(storage.entries)[AuthTokenKey] != "" ==>
        var stored := old(storage.entries)[AuthTokenKey];
        match TokenEmail(stored)
        case Some(email) =>
          && isAuthenticated && currentUser == Some(User(email, DemoName)) && token == Some(stored)
          && storage.entries == old(storage.entries)
        case None =>
          && isAuthenticated == old(isAuthenticated) && currentUser == old(currentUser) && token == old(token)
          && storage.entries == old(storage.entries) - {AuthTokenKey}
    {
      var stored := storage.GetItem(AuthTokenKey);
      if stored.None? || stored.value == "" {
        return;
      }
      var decoded := Atob(stored.value);
      match decoded {
        case None =>
          storage.RemoveItem(AuthTokenKey);
        case Some(text) =>
          var email := BeforeColon(text);
          if email != "" {
            SignIn(email, stored.value);
          } else {
            storage.RemoveItem(AuthTokenKey);
          }
      }
    }
  }

  /** Signing in, then reloading the page: a new service over the same
      storage restores the same user. */
  method PersistAcrossReloadScenario(now: int) returns (authenticated: bool, email: string)
    ensures authenticated && email == DemoEmail
  {
    var storage := new LocalStorage();
    var first := new SessionService(storage);
    var outcome := first.Login(Credentials(DemoEmail, DemoPassword), now);
    var second := new SessionService(storage);
    second.RestoreSession();
    authenticated := second.isAuthenticated;
    email := if second.currentUser.Some? then second.currentUser.value.email else "";
  }

  /** A wrong password throws the documented message and signs nobody in. */
  method WrongPasswordScenario(now: int) returns (message: string, authenticated: bool, stored: bool)
    ensures message == InvalidCredentials && !authenticated && !stored
  {
    var storage := new LocalStorage();
    var session := new SessionService(storage);
    var outcome := session.Login(Credentials(DemoEmail, "wrongpassword"), now);
    message := if outcome.Threw? then outcome.message else "";
    authenticated := session.isAuthenticated;
    stored := AuthTokenKey in storage.entries;
  }

  /** A stored token that is not base64 is removed and nobody is signed in. */
  method InvalidTokenScenario() returns (authenticated: bool, stored: bool)
    ensures !authenticated && !stored
  {
    var storage := new LocalStorage();
    storage.SetItem(AuthTokenKey, "invalid-token");
    var session := new SessionService(storage);
    InvalidTokenRejected();
    session.RestoreSession();
    authenticated := session.isAuthenticated;
    stored := AuthTokenKey in storage.entries;
  }

  /** Logging out twice after a login leaves the same signed-out state and
      storage as logging out once. */
  method LogoutTwiceScenario(now: int) returns (onceStored: map<string, string>, twiceStored: map<string, string>, authenticated: bool)
    ensures onceStored == twiceStored && AuthTokenKey !in twiceStored && !authenticated
  {
    var storage := new LocalStorage();
    var session := new SessionService(storage);
    var outcome := session.Login(Credentials(DemoEmail, DemoPassword), now);
    session.Logout();
    onceStored := storage.entries;
    session.Logout();
    twiceStored := storage.entries;
    authenticated := session.isAuthenticated;
  }
}
