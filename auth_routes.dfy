/** The temporary in-memory user registry behind `/auth/register` and
    `/auth/login`: a dictionary from lower-cased email to password. */
module AuthRoutes {
  import opened Common
  import opened Text

  datatype RegisterReply = RegisterReply(success: bool, message: string, email: string, fullName: Option<string>)

  datatype LoginReply = LoginReply(success: bool, accessToken: string, tokenType: string, email: string)

  const UserExists := HttpError(400, "User already exists")
  const InvalidCredentials := HttpError(401, "Invalid email or password")

  /** The bearer token handed out for a (lower-cased) email. */
  function TokenFor(email: string): (token: string)
    ensures |token| == 15 + |email|
    ensures token[..15] == "fake-token-for-" && token[15..] == email
  {
    "fake-token-for-" + email
  }

  /** Every key of the registry is already lower case. */
  ghost predicate KeysLowerCase(users: map<string, string>) {
    forall e :: e in users ==> Lower(e) == e
  }

  /** What `register_user` answers against a given registry. */
  function RegisterAnswer(users: map<string, string>, email: string, fullName: Option<string>): (r: Result<RegisterReply, HttpError>)
    ensures r.Failure? <==> Lower(email) in users
    ensures r.Failure? ==> r.error == HttpError(400, "User already exists")
    ensures r.Success? ==> r.value.success && r.value.email == Lower(email) && r.value.fullName == fullName
    ensures r.Success? ==> Lower(r.value.email) == r.value.email
  {
    LowerIdempotent(email);
    var key := Lower(email);
    if key in users then Failure(UserExists)
    else Success(RegisterReply(true, "User registered (TEMP)", key, fullName))
  }

  /** The registry after `register_user`: one new entry on success, nothing changed on failure. */
  function Registered(users: map<string, string>, email: string, password: string): (after: map<string, string>)
    ensures after.Keys == users.Keys + {Lower(email)}
    ensures Lower(email) in users ==> after == users
    ensures Lower(email) !in users ==> after[Lower(email)] == password
    ensures forall e :: e in users ==> after[e] == users[e]
  {
    var key := Lower(email);
    if key in users then users else users[key := password]
  }

  /** What `login_user` answers against a given registry. */
  function LoginAnswer(users: map<string, string>, email: string, password: string): (r: Result<LoginReply, HttpError>)
    ensures r.Success? <==> Lower(email) in users && users[Lower(email)] == password
    ensures r.Success? ==> r.value == LoginReply(true, "fake-token-for-" + Lower(email), "bearer", Lower(email))
    ensures r.Failure? ==> r.error == HttpError(401, "Invalid email or password")
  {
    var key := Lower(email);
    if key in users && users[key] == password then Success(LoginReply(true, TokenFor(key), "bearer", key))
    else Failure(InvalidCredentials)
  }

  /** The module-level `_fake_users` dictionary and the two endpoints that use it. */
  class UserRegistry {
    var users: map<string, string>

    ghost predicate Valid()
      reads this
    {
      KeysLowerCase(users)
    }

    constructor ()
      ensures Valid() && users == map[]
    {
      users := map[];
    }

    /** `register_user`: rejects an email whose lower-case form is present,
        otherwise stores the password under the lower-case form. */
    method Register(email: string, password: string, fullName: Option<string>) returns (r: Result<RegisterReply, HttpError>)
      requires Valid()
      modifies this
      ensures Valid()
      ensures r == RegisterAnswer(old(users), email, fullName)
      ensures users == Registered(old(users), email, password)
    {
      var key := Lower(email);
      if key in users {
        r := Failure(UserExists);
        return;
      }
      LowerIdempotent(email);
      users := users[key := password];
      r := Success(RegisterReply(true, "User registered (TEMP)", key, fullName));
    }

    /** `login_user`: only reads the registry (no `modifies` clause). */
    method Login(email: string, password: string) returns (r: Result<LoginReply, HttpError>)
      ensures r.Success? <==> Lower(email) in users && users[Lower(email)] == password
      ensures r.Success? ==> r.value == LoginReply(true, "fake-token-for-" + Lower(email), "bearer", Lower(email))
      ensures r.Failure? ==> r.error == HttpError(401, "Invalid email or password")
      ensures r == LoginAnswer(users, email, password)
    {
      var key := Lower(email);
      var stored: Option<string> := if key in users then Some(users[key]) else None;
      if stored.None? || stored.value != password {
        return Failure(InvalidCredentials);
      }
      var token := TokenFor(key);
      r := Success(LoginReply(true, token, "bearer", key));
    }
  }

  /** Registering is case-insensitive: once `email` is registered, any other
      casing of it is refused with 400 and the registry stays as it was. */
  lemma RegisterOtherCasingRefused(users: map<string, string>, email: string, password: string,
                                   other: string, password2: string, fullName: Option<string>)
    requires RegisterAnswer(users, email, fullName).Success?
    requires |other| == |email| && forall i :: 0 <= i < |email| ==> LowerChar(other[i]) == LowerChar(email[i])
    ensures RegisterAnswer(Registered(users, email, password), other, fullName) == Failure(HttpError(400, "User already exists"))
    ensures Registered(Registered(users, email, password), other, password2) == Registered(users, email, password)
  {
    LowerIgnoresCase(other, email);
  }

  /** A successful registration adds exactly the lower-cased email and keeps every other entry. */
  lemma RegisterAddsOneEntry(users: map<string, string>, email: string, password: string, fullName: Option<string>)
    requires RegisterAnswer(users, email, fullName).Success?
    ensures Lower(email) !in users
    ensures Registered(users, email, password).Keys == users.Keys + {Lower(email)}
    ensures Registered(users, email, password)[Lower(email)] == password
    ensures forall e :: e in users ==> Registered(users, email, password)[e] == users[e]
  {
  }

  /** Registration keeps every key lower case, so a stored key is its own lower-case form. */
  lemma RegisterKeepsKeysLowerCase(users: map<string, string>, email: string, password: string)
    requires KeysLowerCase(users)
    ensures KeysLowerCase(Registered(users, email, password))
  {
    LowerIdempotent(email);
  }

  /** Round trip: after registering (email, password), logging in with any
      casing of that email and the same password succeeds with the token for
      the lower-cased email. */
  lemma RegisterThenLogin(users: map<string, string>, email: string, password: string,
                          other: string, fullName: Option<string>)
    requires RegisterAnswer(users, email, fullName).Success?
    requires |other| == |email| && forall i :: 0 <= i < |email| ==> LowerChar(other[i]) == LowerChar(email[i])
    ensures LoginAnswer(Registered(users, email, password), other, password)
         == Success(LoginReply(true, "fake-token-for-" + Lower(email), "bearer", Lower(email)))
  {
    LowerIgnoresCase(other, email);
  }

  /** Login gives the same 401 whether the email is unknown or the password
      is wrong: the caller cannot tell the two apart. */
  lemma LoginFailuresIndistinguishable(users: map<string, string>, unknown: string, known: string, password: string)
    requires Lower(unknown) !in users
    requires Lower(known) in users && users[Lower(known)] != password
    ensures LoginAnswer(users, unknown, password) == LoginAnswer(users, known, password)
    ensures LoginAnswer(users, unknown, password) == Failure(HttpError(401, "Invalid email or password"))
  {
  }

  /** The registry used by both endpoints: registering and then logging in
      through the class behaves as the lemmas above describe. */
  method RegisterLoginScenario() returns (token: string)
    ensures token == "fake-token-for-ab"
  {
    var registry := new UserRegistry();
    assert Lower("Ab") == "ab" && Lower("aB") == "ab" && Lower("ab") == "ab";
    var reg := registry.Register("Ab", "pw", None);
    var again := registry.Register("ab", "other", None);
    assert again == Failure(UserExists);
    var login := registry.Login("aB", "pw");
    var wrong := registry.Login("ab", "bad");
    assert wrong == Failure(InvalidCredentials);
    token := login.value.accessToken;
  }
}
