/** `AuthService`: registration, login and profile lookup of users.

    The user repository is a map from id to the stored user plus the unique
    index on the e-mail column, a map from address to id. The password hasher,
    the token issuer, the clock and the id generator are foreign: a
    registration receives the hash and salt the hasher returned and the
    current time as values, and the verifier and the token issuer are
    uninterpreted function parameters. */
module Authentication {
  import opened Common
  import opened Text
  import opened Users

  const EmailRequiredMessage: string := "El correo electrónico es obligatorio."
  const DuplicateEmailMessage: string := "El correo electrónico ya se encuentra registrado."
  const InvalidCredentialsMessage: string := "Credenciales inválidas."
  const UserNotFoundMessage: string := "No se encontró el usuario solicitado."

  datatype RegisterRequest = RegisterRequest(email: string, password: string, fullName: Option<string>)
  datatype LoginRequest = LoginRequest(email: string, password: string)

  /** What `IPasswordHasher.HashPassword` returned. */
  datatype PasswordHashResult = PasswordHashResult(hash: string, salt: string)

  /** The token and the user it was issued for. */
  datatype AuthResponse = AuthResponse(token: string, user: UserState)

  /** The `User` constructor's guard on the hasher's output: a stored user
      has a hash and a salt. */
  ghost predicate IsStoredUser(u: UserState) {
    !IsBlank(u.passwordHash) && !IsBlank(u.passwordSalt)
  }

  datatype Store = Store(users: map<Guid, UserState>, emailIndex: map<string, Guid>)
  {
    /** Every user is filed under its id and is a stored user, and the e-mail
        index maps each stored address to exactly the user holding it. */
    ghost predicate Valid() {
      && (forall id | id in users ::
            users[id].id == id && IsStoredUser(users[id])
            && users[id].email in emailIndex && emailIndex[users[id].email] == id)
      && (forall e | e in emailIndex :: emailIndex[e] in users && users[emailIndex[e]].email == e)
    }
  }

  datatype Step<T> = Step(store: Store, result: Result<T>)

  /** In a valid store no two users share an address. */
  lemma EmailsAreUnique(s: Store, i: Guid, j: Guid)
    requires s.Valid() && i in s.users && j in s.users
    requires s.users[i].email == s.users[j].email
    ensures i == j
  {
    assert s.emailIndex[s.users[i].email] == i;
  }

  /** `GetByEmailAsync` through the unique index: the user holding the
      address, if any. */
  function FindByEmail(s: Store, email: string): (r: Option<UserState>)
    requires s.Valid()
    ensures r.Some? <==> exists id | id in s.users :: s.users[id].email == email
    ensures r.Some? ==> r.value.id in s.users && s.users[r.value.id] == r.value && r.value.email == email
  {
    if email in s.emailIndex then
      var id := s.emailIndex[email];
      Some(s.users[id])
    else
      assert forall id | id in s.users :: s.users[id].email != email by {
        forall id | id in s.users ensures s.users[id].email != email {
          assert s.users[id].email in s.emailIndex;
        }
      }
      None
  }

  /** `RegisterAsync`: null request, cancelled token, blank address, blank
      password, an address already registered once normalised, then the
      `User` constructor's guards on the normalised address and on the
      hasher's output; an accepted user is stored under the new id with the
      trimmed, lower-cased address, the hash and salt and the clock time, and
      a token is issued for it. */
  function RegisterStep(s: Store, request: Option<RegisterRequest>, cancelled: bool, newId: Guid,
                        hashed: PasswordHashResult, now: DateTime, issue: UserState -> string)
    : (st: Step<AuthResponse>)
    requires s.Valid() && newId !in s.users
    ensures st.store.Valid()
    ensures st.result.Err? ==> st.store == s
    ensures st.result.Ok? <==>
      && request.Some? && !cancelled
      && !IsBlank(request.value.email) && !IsBlank(request.value.password)
      && (forall id | id in s.users :: s.users[id].email != NormalizeEmail(request.value.email))
      && IsValidEmail(NormalizeEmail(request.value.email))
      && !IsBlank(hashed.hash) && !IsBlank(hashed.salt)
    ensures request.Some? && !cancelled && IsBlank(request.value.email) ==> st.result == Err(Domain(EmailRequiredMessage))
    ensures request.Some? && !cancelled && !IsBlank(request.value.email) && IsBlank(request.value.password) ==>
      st.result == Err(Domain(PasswordRequiredMessage))
    ensures request.Some? && !cancelled && !IsBlank(request.value.email) && !IsBlank(request.value.password)
            && (exists id | id in s.users :: s.users[id].email == NormalizeEmail(request.value.email)) ==>
      st.result == Err(Domain(DuplicateEmailMessage))
    ensures st.result.Ok? ==>
      && st.result.value.user == UserState(newId, NormalizeEmail(request.value.email), hashed.hash, hashed.salt,
                                           TrimOptional(request.value.fullName), now)
      && st.result.value.token == issue(st.result.value.user)
      && st.store.users == s.users[newId := st.result.value.user]
      && IsValidEmail(st.result.value.user.email) && NormalizeEmail(st.result.value.user.email) == st.result.value.user.email
  {
    if request.None? then Step(s, Err(ArgumentNull("request")))
    else if cancelled then Step(s, Err(Canceled))
    else if IsBlank(request.value.email) then Step(s, Err(Domain(EmailRequiredMessage)))
    else if IsBlank(request.value.password) then Step(s, Err(Domain(PasswordRequiredMessage)))
    else if FindByEmail(s, NormalizeEmail(request.value.email)).Some? then Step(s, Err(Domain(DuplicateEmailMessage)))
    else
      NormalizeEmailIdempotent(request.value.email);
      AddUserStep(s, NormalizeEmail(request.value.email), request.value.fullName, newId, hashed, now, issue)
  }

  /** The rest of `RegisterAsync` once the normalised address is known to be
      free: the `User` constructor's guards, then the user is stored and a
      token issued for it. */
  function AddUserStep(s: Store, email: string, fullName: Option<string>, newId: Guid, hashed: PasswordHashResult,
                       now: DateTime, issue: UserState -> string)
    : (st: Step<AuthResponse>)
    requires s.Valid() && newId !in s.users && email !in s.emailIndex && NormalizeEmail(email) == email
    ensures st.store.Valid()
    ensures st.result.Err? ==> st.store == s
    ensures st.result.Ok? <==> IsValidEmail(email) && !IsBlank(hashed.hash) && !IsBlank(hashed.salt)
    ensures st.result.Ok? ==>
      && st.result.value.user == UserState(newId, email, hashed.hash, hashed.salt, TrimOptional(fullName), now)
      && st.result.value.token == issue(st.result.value.user)
      && st.store.users == s.users[newId := st.result.value.user]
  {
    if !IsValidEmail(email) then Step(s, Err(Domain(InvalidEmailMessage)))
    else if IsBlank(hashed.hash) || IsBlank(hashed.salt) then Step(s, Err(Domain(PasswordRequiredMessage)))
    else
      var u := UserState(newId, NormalizeEmail(email), hashed.hash, hashed.salt, TrimOptional(fullName), now);
      Registered(s, u);
      Step(Store(s.users[newId := u], s.emailIndex[u.email := newId]), Ok(AuthResponse(issue(u), u)))
  }

  /** Adding a stored user whose id and address are both new keeps the store
      valid. */
  lemma Registered(s: Store, u: UserState)
    requires s.Valid() && u.id !in s.users && IsStoredUser(u) && u.email !in s.emailIndex
    ensures Store(s.users[u.id := u], s.emailIndex[u.email := u.id]).Valid()
  {
    var users, index := s.users[u.id := u], s.emailIndex[u.email := u.id];
    forall id | id in users
      ensures users[id].id == id && IsStoredUser(users[id]) && users[id].email in index && index[users[id].email] == id
    {
      if id != u.id {
        assert users[id] == s.users[id];
        assert users[id].email != u.email;
      }
    }
    forall e | e in index
      ensures index[e] in users && users[index[e]].email == e
    {
      if e != u.email {
        assert index[e] == s.emailIndex[e] && index[e] != u.id;
      }
    }
  }

  /** `LoginAsync`: null request, cancelled token, then one and the same
      DomainException for a blank field, an unknown address and a password the
      hasher does not verify; otherwise a token for the stored user. */
  function LoginResult(s: Store, request: Option<LoginRequest>, cancelled: bool,
                       verify: (string, string, string) -> bool, issue: UserState -> string)
    : (r: Result<AuthResponse>)
    requires s.Valid()
    ensures r.Ok? <==>
      && request.Some? && !cancelled
      && !IsBlank(request.value.email) && !IsBlank(request.value.password)
      && exists id | id in s.users ::
           && s.users[id].email == NormalizeEmail(request.value.email)
           && verify(request.value.password, s.users[id].passwordHash, s.users[id].passwordSalt)
    ensures request.Some? && !cancelled && r.Err? ==> r.error == Domain(InvalidCredentialsMessage)
    ensures r.Ok? ==>
      && r.value.user.id in s.users && s.users[r.value.user.id] == r.value.user
      && r.value.user.email == NormalizeEmail(request.value.email)
      && r.value.token == issue(r.value.user)
  {
    if request.None? then Err(ArgumentNull("request"))
    else if cancelled then Err(Canceled)
    else if IsBlank(request.value.email) || IsBlank(request.value.password) then Err(Domain(InvalidCredentialsMessage))
    else
      var found := FindByEmail(s, NormalizeEmail(request.value.email));
      if found.None? then Err(Domain(InvalidCredentialsMessage))
      else
        var u := found.value;
        if !verify(request.value.password, u.passwordHash, u.passwordSalt) then
          assert forall id | id in s.users && s.users[id].email == NormalizeEmail(request.value.email) :: id == u.id by {
            forall id | id in s.users && s.users[id].email == NormalizeEmail(request.value.email) ensures id == u.id {
              EmailsAreUnique(s, id, u.id);
            }
          }
          Err(Domain(InvalidCredentialsMessage))
        else Ok(AuthResponse(issue(u), u))
  }

  /** `GetProfileAsync`: the stored user, or a DomainException. */
  function GetProfileResult(s: Store, userId: Guid, cancelled: bool): (r: Result<UserState>)
    ensures r.Ok? <==> !cancelled && userId in s.users
    ensures r.Ok? ==> r.value == s.users[userId]
    ensures !cancelled && userId !in s.users ==> r == Err(Domain(UserNotFoundMessage))
  {
    if cancelled then Err(Canceled)
    else if userId !in s.users then Err(Domain(UserNotFoundMessage))
    else Ok(s.users[userId])
  }

  /** A registered user can log in with the same password under any spelling
      of the address that normalises alike, given that the hasher verifies
      the password against the hash and salt it produced, and gets a token
      for the user just stored. */
  lemma RegisterThenLogin(s: Store, q: RegisterRequest, newId: Guid, hashed: PasswordHashResult, now: DateTime,
                          verify: (string, string, string) -> bool, issue: UserState -> string, loginEmail: string)
    requires s.Valid() && newId !in s.users
    requires RegisterStep(s, Some(q), false, newId, hashed, now, issue).result.Ok?
    requires verify(q.password, hashed.hash, hashed.salt)
    requires NormalizeEmail(loginEmail) == NormalizeEmail(q.email)
    ensures var registered := RegisterStep(s, Some(q), false, newId, hashed, now, issue);
      LoginResult(registered.store, Some(LoginRequest(loginEmail, q.password)), false, verify, issue) == registered.result
  {
    var registered := RegisterStep(s, Some(q), false, newId, hashed, now, issue);
    var u := registered.result.value.user;
    TrimEmptyIffBlank(loginEmail);
    TrimEmptyIffBlank(q.email);
    assert !IsBlank(loginEmail) by {
      assert NormalizeEmail(q.email) != [];
    }
    assert registered.store.users[newId] == u;
    var found := FindByEmail(registered.store, NormalizeEmail(loginEmail));
    EmailsAreUnique(registered.store, found.value.id, newId);
  }

  /** Once an address is registered, registering it again under any spelling
      that normalises alike is refused and stores nothing. */
  lemma RegisterTwiceIsRefused(s: Store, q: RegisterRequest, q2: RegisterRequest, newId: Guid, newId2: Guid,
                               hashed: PasswordHashResult, hashed2: PasswordHashResult, now: DateTime, now2: DateTime,
                               issue: UserState -> string)
    requires s.Valid() && newId !in s.users
    requires RegisterStep(s, Some(q), false, newId, hashed, now, issue).result.Ok?
    requires NormalizeEmail(q2.email) == NormalizeEmail(q.email) && !IsBlank(q2.password)
    requires newId2 !in RegisterStep(s, Some(q), false, newId, hashed, now, issue).store.users
    ensures var registered := RegisterStep(s, Some(q), false, newId, hashed, now, issue).store;
      RegisterStep(registered, Some(q2), false, newId2, hashed2, now2, issue) == Step(registered, Err(Domain(DuplicateEmailMessage)))
  {
    var registered := RegisterStep(s, Some(q), false, newId, hashed, now, issue).store;
    assert NormalizeEmail(q.email) != [];
    assert !IsBlank(q2.email);
    assert registered.users[newId].email == NormalizeEmail(q2.email);
  }

  class AuthService {
    var users: map<Guid, UserState>
    var emailIndex: map<string, Guid>

    function Snapshot(): Store
      reads this
    {
      Store(users, emailIndex)
    }

    ghost predicate Valid()
      reads this
    {
      Snapshot().Valid()
    }

    constructor (users: map<Guid, UserState>, emailIndex: map<string, Guid>)
      requires Store(users, emailIndex).Valid()
      ensures Snapshot() == Store(users, emailIndex) && Valid()
    {
      this.users, this.emailIndex := users, emailIndex;
    }

    /** `RegisterAsync`, through the `User` constructor; the created user is
        added to the store and its unique index together. */
    method Register(request: Option<RegisterRequest>, cancelled: bool, newId: Guid, hashed: PasswordHashResult,
                    now: DateTime, issue: UserState -> string)
      returns (r: Result<AuthResponse>)
      requires Valid() && newId !in users
      modifies this
      ensures Step(Snapshot(), r) == RegisterStep(old(Snapshot()), request, cancelled, newId, hashed, now, issue)
      ensures Valid()
    {
      if request.None? {
        r := Err(ArgumentNull("request"));
      } else if cancelled {
        r := Err(Canceled);
      } else if IsBlank(request.value.email) {
        r := Err(Domain(EmailRequiredMessage));
      } else if IsBlank(request.value.password) {
        r := Err(Domain(PasswordRequiredMessage));
      } else if NormalizeEmail(request.value.email) in emailIndex {
        r := Err(Domain(DuplicateEmailMessage));
      } else {
        NormalizeEmailIdempotent(request.value.email);
        r := AddUser(NormalizeEmail(request.value.email), request.value.fullName, newId, hashed, now, issue);
      }
    }

    /** The constructor call and the insert of `RegisterAsync`. */
    method AddUser(email: string, fullName: Option<string>, newId: Guid, hashed: PasswordHashResult, now: DateTime,
                   issue: UserState -> string)
      returns (r: Result<AuthResponse>)
      requires Valid() && newId !in users && email !in emailIndex && NormalizeEmail(email) == email
      modifies this
      ensures Step(Snapshot(), r) == AddUserStep(old(Snapshot()), email, fullName, newId, hashed, now, issue)
    {
      var created := User.New(newId, email, hashed.hash, hashed.salt, now, fullName, Some(now));
      if created.Err? {
        r := Err(created.error);
      } else {
        var u := created.value.State();
        users, emailIndex := users[newId := u], emailIndex[u.email := newId];
        r := Ok(AuthResponse(issue(u), u));
      }
    }

    /** `LoginAsync`; it changes nothing. */
    method Login(request: Option<LoginRequest>, cancelled: bool, verify: (string, string, string) -> bool,
                 issue: UserState -> string)
      returns (r: Result<AuthResponse>)
      requires Valid()
      ensures r == LoginResult(Snapshot(), request, cancelled, verify, issue)
    {
      if request.None? {
        r := Err(ArgumentNull("request"));
      } else if cancelled {
        r := Err(Canceled);
      } else if IsBlank(request.value.email) || IsBlank(request.value.password) {
        r := Err(Domain(InvalidCredentialsMessage));
      } else if NormalizeEmail(request.value.email) !in emailIndex {
        r := Err(Domain(InvalidCredentialsMessage));
      } else {
        var u := users[emailIndex[NormalizeEmail(request.value.email)]];
        if !verify(request.value.password, u.passwordHash, u.passwordSalt) {
          r := Err(Domain(InvalidCredentialsMessage));
        } else {
          r := Ok(AuthResponse(issue(u), u));
        }
      }
    }

    /** `GetProfileAsync`. */
    method GetProfile(userId: Guid, cancelled: bool) returns (r: Result<UserState>)
      ensures r == GetProfileResult(Snapshot(), userId, cancelled)
    {
      if cancelled {
        r := Err(Canceled);
      } else if userId !in users {
        r := Err(Domain(UserNotFoundMessage));
      } else {
        r := Ok(users[userId]);
      }
    }
  }
}
