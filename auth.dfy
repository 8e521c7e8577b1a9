/**
 * Authentication (backend/app/routers/auth.py): registration, the login gates, the
 * `get_current_user` dependency with its one-shot forced re-authentication, and the
 * `check_permission` guard. User rows follow backend/app/models/sql/user.py.
 */
module Auth {
  import opened Wrappers

  /** A `users` row. Times are seconds; permissions keep only the truthiness of each JSON value. */
  datatype User = User(
    id: int, email: string, hashedPassword: string, fullName: string, isActive: bool, role: string,
    isSuspended: bool, lastLogin: Option<int>, sessionStart: Option<int>, lastActive: Option<int>,
    requiresReauth: bool, permissions: map<string, bool>, subscriptionTier: string,
    maxAccountsLimit: int, isOnboarded: bool)

  /** A row created with the column defaults. */
  function NewUser(id: int, email: string, fullName: string, hashed: string): (u: User)
    ensures u.role == "USER" && !u.isSuspended && !u.requiresReauth && u.permissions == map[]
    ensures u.subscriptionTier == "standard" && u.maxAccountsLimit == 1 && !u.isOnboarded && u.isActive
  {
    User(id, email, hashed, fullName, true, "USER", false, None, None, None, false, map[], "standard", 1, false)
  }

  /** The `users` table: rows in insertion order and the next primary key. */
  class UserDirectory {
    var users: seq<User>
    var nextId: int

    /** Ids and emails are unique, and every id is below the next one. */
    ghost predicate Valid()
      reads this
    {
      (forall i, j | 0 <= i < j < |users| :: users[i].id != users[j].id && users[i].email != users[j].email)
      && forall i | 0 <= i < |users| :: users[i].id < nextId
    }

    constructor ()
      ensures users == [] && Valid()
    {
      users := [];
      nextId := 1;
    }
  }

  /** The row `.filter(User.email == e).first()` finds. */
  function FindByEmail(users: seq<User>, email: string): (r: Option<nat>)
    ensures r.Some? ==> r.value < |users| && users[r.value].email == email
    ensures r.Some? ==> forall j | 0 <= j < r.value :: users[j].email != email
    ensures r.None? <==> forall j | 0 <= j < |users| :: users[j].email != email
  {
    if |users| == 0 then None
    else if users[|users| - 1].email == email && FindByEmail(users[..|users| - 1], email).None? then
      Some(|users| - 1)
    else if FindByEmail(users[..|users| - 1], email).Some? then FindByEmail(users[..|users| - 1], email)
    else None
  }

  /** The row `.filter(User.id == i).first()` finds. */
  function FindById(users: seq<User>, id: int): (r: Option<nat>)
    ensures r.Some? ==> r.value < |users| && users[r.value].id == id
    ensures r.None? <==> forall j | 0 <= j < |users| :: users[j].id != id
  {
    if |users| == 0 then None
    else if users[|users| - 1].id == id then Some(|users| - 1)
    else FindById(users[..|users| - 1], id)
  }

  // ---------------------------------------------------------------------------
  // register_user
  // ---------------------------------------------------------------------------

  const EmailTaken: HttpError := HttpError(400, "Email already registered")

  /**
   * `register_user`; `hashed` stands for `get_password_hash(password)`. An email already
   * present is refused and nothing is created; otherwise one default row is appended.
   */
  method Register(dir: UserDirectory, email: string, fullName: string, hashed: string) returns (r: Result<User>)
    requires dir.Valid()
    modifies dir
    ensures dir.Valid()
    ensures FindByEmail(old(dir.users), email).Some? ==> r == Err(EmailTaken) && dir.users == old(dir.users)
    ensures FindByEmail(old(dir.users), email).None? ==>
      r == Ok(NewUser(old(dir.nextId), email, fullName, hashed)) && dir.users == old(dir.users) + [r.value]
  {
    if FindByEmail(dir.users, email).Some? {
      return Err(EmailTaken);
    }
    var u := NewUser(dir.nextId, email, fullName, hashed);
    dir.users := dir.users + [u];
    dir.nextId := dir.nextId + 1;
    r := Ok(u);
  }

  // ---------------------------------------------------------------------------
  // login_for_access_token
  // ---------------------------------------------------------------------------

  const BadCredentials: HttpError := HttpError(401, "Incorrect email or password")
  const SuspendedAtLogin: HttpError := HttpError(403, "Your account has been suspended. Please contact the Founder.")

  /** The claims put in the access token. */
  datatype Claims = Claims(
    sub: string, userId: int, fullName: string, subscriptionTier: string, maxAccountsLimit: int,
    role: string, permissions: map<string, bool>, isOnboarded: bool)

  function ClaimsOf(u: User): Claims
  {
    Claims(u.email, u.id, u.fullName, u.subscriptionTier, u.maxAccountsLimit, u.role, u.permissions, u.isOnboarded)
  }

  /** The login gates in order: lookup, password, suspension. `verify` is `security.verify_password`. */
  function LoginGate(users: seq<User>, username: string, password: string, verify: (string, string) -> bool)
    : (r: Result<nat>)
    ensures r.Ok? <==> (FindByEmail(users, username).Some?
      && verify(password, users[FindByEmail(users, username).value].hashedPassword)
      && !users[FindByEmail(users, username).value].isSuspended)
    ensures r.Ok? ==> r.value == FindByEmail(users, username).value
    ensures r.Err? ==> r.error == BadCredentials || r.error == SuspendedAtLogin
  {
    var found := FindByEmail(users, username);
    if found.None? then Err(BadCredentials)
    else if !verify(password, users[found.value].hashedPassword) then Err(BadCredentials)
    else if users[found.value].isSuspended then Err(SuspendedAtLogin)
    else Ok(found.value)
  }

  /** `login_for_access_token`; `now` stands for `func.now()`, and the token is its claims. */
  method Login(dir: UserDirectory, username: string, password: string, verify: (string, string) -> bool, now: int)
    returns (r: Result<Claims>)
    requires dir.Valid()
    modifies dir
    ensures dir.Valid()
    ensures var g := LoginGate(old(dir.users), username, password, verify);
      if g.Err? then r == Err(g.error) && dir.users == old(dir.users)
      else
        dir.users == old(dir.users)[g.value := old(dir.users)[g.value].(lastLogin := Some(now), lastActive := Some(now))]
        && r == Ok(ClaimsOf(dir.users[g.value]))
    ensures dir.nextId == old(dir.nextId)
  {
    var found := FindByEmail(dir.users, username);
    if found.None? {
      return Err(BadCredentials);
    }
    var i := found.value;
    if !verify(password, dir.users[i].hashedPassword) {
      return Err(BadCredentials);
    }
    if dir.users[i].isSuspended {
      return Err(SuspendedAtLogin);
    }
    var u := dir.users[i].(lastLogin := Some(now), lastActive := Some(now));
    dir.users := dir.users[i := u];
    r := Ok(ClaimsOf(u));
  }

  /** An unknown email and a wrong password are answered alike, so a caller cannot tell them apart. */
  lemma UnknownEmailLikeWrongPassword(users: seq<User>, unknown: string, known: string, p1: string, p2: string,
                                      verify: (string, string) -> bool)
    requires FindByEmail(users, unknown).None?
    requires FindByEmail(users, known).Some? && !verify(p2, users[FindByEmail(users, known).value].hashedPassword)
    ensures LoginGate(users, unknown, p1, verify) == LoginGate(users, known, p2, verify) == Err(BadCredentials)
  {
  }

  /** Suspension is only revealed to a caller who gave the right password. */
  lemma SuspensionNeedsCredentials(users: seq<User>, username: string, password: string,
                                   verify: (string, string) -> bool)
    requires LoginGate(users, username, password, verify) == Err(SuspendedAtLogin)
    ensures FindByEmail(users, username).Some?
    ensures verify(password, users[FindByEmail(users, username).value].hashedPassword)
  {
  }

  // ---------------------------------------------------------------------------
  // get_current_user
  // ---------------------------------------------------------------------------

  const InvalidCredentials: HttpError := HttpError(401, "Could not validate credentials")
  const AccountSuspended: HttpError := HttpError(403, "Account suspended")
  const SessionTerminated: HttpError := HttpError(401, "Session terminated by Administrator")

  /**
   * The gates of `get_current_user` in order. `subject` is the token's `sub` claim, None
   * when decoding fails or the claim is missing.
   */
  function CurrentUserGate(users: seq<User>, subject: Option<string>): (r: Result<nat>)
    ensures r.Ok? ==> (subject.Some? && FindByEmail(users, subject.value) == Some(r.value)
      && !users[r.value].isSuspended && !users[r.value].requiresReauth)
    ensures r == Err(SessionTerminated) <==> (subject.Some? && FindByEmail(users, subject.value).Some?
      && !users[FindByEmail(users, subject.value).value].isSuspended
      && users[FindByEmail(users, subject.value).value].requiresReauth)
    ensures r == Err(AccountSuspended) <==> (subject.Some? && FindByEmail(users, subject.value).Some?
      && users[FindByEmail(users, subject.value).value].isSuspended)
    ensures r.Err? ==> r.error in {InvalidCredentials, AccountSuspended, SessionTerminated}
  {
    if subject.None? then Err(InvalidCredentials)
    else
      var found := FindByEmail(users, subject.value);
      if found.None? then Err(InvalidCredentials)
      else if users[found.value].isSuspended then Err(AccountSuspended)
      else if users[found.value].requiresReauth then Err(SessionTerminated)
      else Ok(found.value)
  }

  /** The 500 the server answers when the unguarded commit of the re-authentication branch fails. */
  const CommitFailed: HttpError := HttpError(500, "Internal Server Error")

  /**
   * The table after `get_current_user`. `commitOk` is whether the one commit the request
   * makes succeeds: a forced re-authentication clears the flag, and a pass stamps the
   * three times, each kept only when its commit succeeds.
   */
  function AfterCurrentUser(users: seq<User>, subject: Option<string>, now: int, commitOk: bool): seq<User>
  {
    var g := CurrentUserGate(users, subject);
    if g == Err(SessionTerminated) && commitOk then
      var i := FindByEmail(users, subject.value).value;
      users[i := users[i].(requiresReauth := false)]
    else if g.Ok? && commitOk then
      users[g.value := users[g.value].(lastLogin := Some(now), lastActive := Some(now), sessionStart := Some(now))]
    else users
  }

  /**
   * `get_current_user`. A failed commit of the re-authentication branch is not caught, so
   * the request fails with a 500 and the flag stays set. A failed stamp commit is rolled
   * back, which expires the session's object, so the returned row is the stored one.
   */
  method GetCurrentUser(dir: UserDirectory, subject: Option<string>, now: int, commitOk: bool)
    returns (r: Result<User>)
    requires dir.Valid()
    modifies dir
    ensures dir.Valid() && dir.nextId == old(dir.nextId)
    ensures dir.users == AfterCurrentUser(old(dir.users), subject, now, commitOk)
    ensures var g := CurrentUserGate(old(dir.users), subject);
      if g == Err(SessionTerminated) then r == (if commitOk then Err(SessionTerminated) else Err(CommitFailed))
      else if g.Err? then r == Err(g.error)
      else if commitOk then
        r == Ok(old(dir.users)[g.value].(lastLogin := Some(now), lastActive := Some(now), sessionStart := Some(now)))
      else r == Ok(old(dir.users)[g.value])
  {
    if subject.None? {
      return Err(InvalidCredentials);
    }
    var found := FindByEmail(dir.users, subject.value);
    if found.None? {
      return Err(InvalidCredentials);
    }
    var i := found.value;
    if dir.users[i].isSuspended {
      return Err(AccountSuspended);
    }
    if dir.users[i].requiresReauth {
      if !commitOk {
        return Err(CommitFailed);
      }
      dir.users := dir.users[i := dir.users[i].(requiresReauth := false)];
      return Err(SessionTerminated);
    }
    var u := dir.users[i].(lastLogin := Some(now), lastActive := Some(now), sessionStart := Some(now));
    if commitOk {
      dir.users := dir.users[i := u];
      r := Ok(u);
    } else {
      r := Ok(dir.users[i]);
    }
  }

  /**
   * A forced logout ends exactly one request: the flag is cleared by the 401, so the
   * same token passes the gate on the next request; when the clearing commit fails the
   * table is unchanged and the next request is refused again.
   */
  lemma ReauthIsOneShot(users: seq<User>, subject: Option<string>, now: int, commitOk: bool)
    requires CurrentUserGate(users, subject) == Err(SessionTerminated)
    ensures commitOk ==> CurrentUserGate(AfterCurrentUser(users, subject, now, commitOk), subject).Ok?
    ensures !commitOk ==> AfterCurrentUser(users, subject, now, commitOk) == users
  {
    var i := FindByEmail(users, subject.value).value;
    var after := AfterCurrentUser(users, subject, now, commitOk);
    assert forall j | 0 <= j < |users| :: after[j].email == users[j].email;
    assert FindByEmail(after, subject.value) == Some(i) by {
      EmailLookupStable(users, after, subject.value);
    }
  }

  /** A lookup by email sees through changes that keep every row's email. */
  lemma {:induction false} EmailLookupStable(a: seq<User>, b: seq<User>, email: string)
    requires |a| == |b| && forall j | 0 <= j < |a| :: a[j].email == b[j].email
    ensures FindByEmail(a, email) == FindByEmail(b, email)
  {
    if |a| > 0 {
      EmailLookupStable(a[..|a| - 1], b[..|b| - 1], email);
    }
  }

  /** A suspended user is refused before the re-authentication gate, whose flag then stays set. */
  lemma SuspensionPrecedesReauth(users: seq<User>, subject: Option<string>, now: int, commitOk: bool)
    requires subject.Some? && FindByEmail(users, subject.value).Some?
    requires users[FindByEmail(users, subject.value).value].isSuspended
    ensures CurrentUserGate(users, subject) == Err(AccountSuspended)
    ensures AfterCurrentUser(users, subject, now, commitOk) == users
  {
  }

  // ---------------------------------------------------------------------------
  // check_permission
  // ---------------------------------------------------------------------------

  /** The guard `check_permission(permission)` puts in front of a route. */
  function CheckPermission(u: User, permission: string): (r: Result<User>)
    ensures r.Ok? <==> u.role == "FOUNDER" || (permission in u.permissions && u.permissions[permission])
    ensures r.Ok? ==> r.value == u
    ensures r.Err? ==> r.error == HttpError(403, "Permission denied: " + permission)
  {
    if u.role == "FOUNDER" then Ok(u)
    else if |u.permissions| == 0 || !(permission in u.permissions && u.permissions[permission]) then
      Err(HttpError(403, "Permission denied: " + permission))
    else Ok(u)
  }

  /** A founder passes every guard. */
  lemma FounderPassesEveryGuard(u: User, permission: string)
    requires u.role == "FOUNDER"
    ensures CheckPermission(u, permission) == Ok(u)
  {
  }

  /** A freshly registered user passes no guard: the default matrix is empty. */
  lemma NewUserHasNoPermission(id: int, email: string, fullName: string, hashed: string, permission: string)
    ensures CheckPermission(NewUser(id, email, fullName, hashed), permission).Err?
  {
  }
}
