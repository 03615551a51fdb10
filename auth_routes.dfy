/**
 * The account handlers: register, login, me and change-password. Password
 * hashing is the oracle `hash` (bcrypt with cost 12) and `matches` (bcrypt's
 * compare); token signing is the oracle `sign`.
 */
module AuthRoutes {
  import opened Wrappers
  import opened Schema
  import opened AuthMiddleware
  import Text

  const MIN_PASSWORD_LENGTH: nat := 8

  /** zod's `min(8)` on a string, which measures JavaScript's `length` in UTF-16 code units. */
  predicate PasswordLongEnough(password: string)
  {
    Text.Utf16Length(password) >= MIN_PASSWORD_LENGTH
  }

  /**
   * Eight characters always suffice and fewer than four never do; for text
   * without astral characters the bound is exactly eight characters.
   */
  lemma PasswordLengthBounds(password: string)
    ensures |password| >= MIN_PASSWORD_LENGTH ==> PasswordLongEnough(password)
    ensures 2 * |password| < MIN_PASSWORD_LENGTH ==> !PasswordLongEnough(password)
    ensures (forall i :: 0 <= i < |password| ==> !Text.IsAstral(password[i])) ==>
              (PasswordLongEnough(password) <==> |password| >= MIN_PASSWORD_LENGTH)
  {
  }

  /** Four emoji are eight code units, so they make a long enough password. */
  lemma AstralPasswordAccepted()
    ensures var p := "\U{1F600}\U{1F600}\U{1F600}\U{1F600}"; |p| == 4 && PasswordLongEnough(p)
  {
    var p := "\U{1F600}\U{1F600}\U{1F600}\U{1F600}";
    assert forall i :: 0 <= i < |p| ==> Text.IsAstral(p[i]);
  }

  predicate IsLetter(c: char) { 'a' <= c <= 'z' || 'A' <= c <= 'Z' }
  predicate IsAlnum(c: char) { IsLetter(c) || '0' <= c <= '9' }

  /** Characters allowed in the local part of an address, and the ones it may end with. */
  predicate LocalChar(c: char) { IsAlnum(c) || c in "_'+-." }
  predicate LocalEnd(c: char) { IsAlnum(c) || c in "_+-" }
  predicate LabelChar(c: char) { IsAlnum(c) || c == '-' }

  /** The local part: one or more allowed characters, not starting with '.', ending in a letter, digit, '_', '+' or '-'. */
  predicate LocalOk(local: string)
  {
    && |local| >= 1
    && local[0] != '.'
    && (forall i :: 0 <= i < |local| ==> LocalChar(local[i]))
    && LocalEnd(local[|local| - 1])
  }

  /**
   * The domain: one or more labels each followed by '.', every label starting
   * with a letter or digit and made of letters, digits and '-', then a top-level
   * part of two or more letters.
   */
  predicate DomainOk(domain: string)
  {
    exists t :: 0 < t < |domain| && domain[t] == '.' && LabelsOk(domain[..t]) && TopLevelOk(domain[t + 1..])
  }

  predicate TopLevelOk(tld: string)
  {
    |tld| >= 2 && forall i :: 0 <= i < |tld| ==> IsLetter(tld[i])
  }

  /** Labels joined by '.': each non-empty and starting with a letter or digit. */
  predicate LabelsOk(s: string)
  {
    && |s| >= 1
    && IsAlnum(s[0])
    && (forall i :: 0 <= i < |s| ==> LabelChar(s[i]) || s[i] == '.')
    && (forall i :: 0 <= i < |s| && s[i] == '.' ==> i + 1 < |s| && IsAlnum(s[i + 1]))
  }

  predicate NoDoubleDot(s: string)
  {
    forall i :: 0 <= i < |s| - 1 ==> !(s[i] == '.' && s[i + 1] == '.')
  }

  /** The address check of the request validator (zod's email pattern, case-insensitive). */
  predicate IsEmail(s: string)
  {
    && NoDoubleDot(s)
    && exists k :: 0 <= k < |s| && s[k] == '@' && LocalOk(s[..k]) && DomainOk(s[k + 1..])
  }

  /** No character of an accepted domain is '@'; it holds a '.' with at least two letters after it, and ends in a letter. */
  lemma DomainShape(d: string)
    requires DomainOk(d)
    ensures forall m :: 0 <= m < |d| ==> d[m] != '@'
    ensures IsLetter(d[|d| - 1])
    ensures exists t :: 0 < t < |d| - 2 && d[t] == '.'
  {
    var t :| 0 < t < |d| && d[t] == '.' && LabelsOk(d[..t]) && TopLevelOk(d[t + 1..]);
    forall m | 0 <= m < |d|
      ensures d[m] != '@'
    {
      if m < t {
        assert d[..t][m] == d[m];
      } else if m > t {
        assert d[t + 1..][m - t - 1] == d[m];
      }
    }
    assert d[t + 1..][|d| - t - 2] == d[|d| - 1];
  }

  /**
   * Every accepted address has exactly one '@', preceded by a non-empty local
   * part that does not start with '.', and followed by a domain holding a '.'
   * with at least two letters after it; the address ends in a letter.
   */
  lemma EmailShape(s: string)
    requires IsEmail(s)
    ensures s[0] != '.' && IsLetter(s[|s| - 1])
    ensures exists k :: 0 < k < |s| && s[k] == '@'
                        && (forall j :: 0 <= j < |s| && s[j] == '@' ==> j == k)
                        && (exists t :: k + 1 < t < |s| - 2 && s[t] == '.')
  {
    var k := EmailSplit(s);
  }

  /** The position of the '@' of an accepted address, with the facts `EmailShape` states about it. */
  lemma EmailSplit(s: string) returns (k: nat)
    requires IsEmail(s)
    ensures 0 < k < |s| && s[k] == '@'
    ensures forall j :: 0 <= j < |s| && s[j] == '@' ==> j == k
    ensures exists t :: k + 1 < t < |s| - 2 && s[t] == '.'
    ensures s[0] != '.' && IsLetter(s[|s| - 1])
  {
    k :| 0 <= k < |s| && s[k] == '@' && LocalOk(s[..k]) && DomainOk(s[k + 1..]);
    SplitShape(s, k);
  }

  /** The facts of `EmailSplit` for a split at `k` into an accepted local part and domain. */
  lemma SplitShape(s: string, k: nat)
    requires k < |s| && s[k] == '@' && LocalOk(s[..k]) && DomainOk(s[k + 1..])
    ensures 0 < k
    ensures forall j :: 0 <= j < |s| && s[j] == '@' ==> j == k
    ensures exists t :: k + 1 < t < |s| - 2 && s[t] == '.'
    ensures s[0] != '.' && IsLetter(s[|s| - 1])
  {
    OnlyAt(s, k);
    var d := s[k + 1..];
    DomainShape(d);
    var t :| 0 < t < |d| - 2 && d[t] == '.';
    assert s[k + 1 + t] == '.';
    assert d[|d| - 1] == s[|s| - 1];
    assert s[..k][0] == s[0];
  }

  /** The '@' at which an accepted address splits is its only '@'. */
  lemma OnlyAt(s: string, k: nat)
    requires k < |s| && LocalOk(s[..k]) && DomainOk(s[k + 1..])
    ensures forall j :: 0 <= j < |s| && s[j] == '@' ==> j == k
  {
    var d := s[k + 1..];
    DomainShape(d);
    forall j | 0 <= j < |s| && j != k
      ensures s[j] != '@'
    {
      if j < k {
        assert s[..k][j] == s[j];
        assert LocalChar(s[j]);
      } else {
        assert d[j - k - 1] == s[j];
      }
    }
  }

  /** The domain of the seeding script's default admin address is a dotted domain. */
  lemma DomainExample()
    ensures DomainOk("example.com")
  {
    var d := "example.com";
    assert d[7] == '.' && d[..7] == "example" && d[8..] == "com";
    assert LabelsOk(d[..7]) && TopLevelOk(d[8..]);
  }

  /** Its local part is plain letters. */
  lemma LocalExample()
    ensures LocalOk("admin")
  {
    var l := "admin";
    assert forall i :: 0 <= i < |l| ==> IsLetter(l[i]);
  }

  /** It has a single dot, so no two dots in a row. */
  lemma NoDoubleDotExample()
    ensures NoDoubleDot("admin@example.com")
  {
    var s := "admin@example.com";
    forall i | 0 <= i < |s| - 1
      ensures !(s[i] == '.' && s[i + 1] == '.')
    {
      if i != 13 {
        assert s[i] != '.' by {
          assert s[i] == ['a', 'd', 'm', 'i', 'n', '@', 'e', 'x', 'a', 'm', 'p', 'l', 'e', '.', 'c', 'o', 'm'][i];
        }
      } else {
        assert s[i + 1] == 'c';
      }
    }
  }

  /**
   * The seeding script's default admin address passes the pattern, so the
   * account it creates could also have been registered.
   */
  lemma EmailAccepted()
    ensures IsEmail("admin@example.com")
  {
    var s := "admin@example.com";
    assert s[5] == '@';
    assert s[..5] == "admin" && s[6..] == "example.com";
    LocalExample();
    DomainExample();
    NoDoubleDotExample();
  }

  datatype RegisterInput = RegisterInput(email: string, password: string, firstName: Option<string>, lastName: Option<string>)

  /** The user fields a response shows; the password hash is never among them. */
  datatype PublicUser = PublicUser(id: Id, email: string, firstName: Option<string>, lastName: Option<string>, role: Role, mustChangePassword: bool)

  datatype AuthReply = AuthReply(message: string, user: PublicUser, token: string)

  function Public(id: Id, u: User): PublicUser
  {
    PublicUser(id, u.email, u.firstName, u.lastName, u.role, u.mustChangePassword)
  }

  function PayloadOf(id: Id, u: User): JwtPayload
  {
    JwtPayload(id, u.email, u.role)
  }

  predicate RegisterValid(input: RegisterInput)
  {
    IsEmail(input.email) && PasswordLongEnough(input.password)
  }

  /** The users row a registration inserts. */
  function NewUser(input: RegisterInput, hash: string -> string, now: Time): User
  {
    User(input.email, hash(input.password), input.firstName, input.lastName, DEFAULT_ROLE, DEFAULT_MUST_CHANGE_PASSWORD, now, now)
  }

  /**
   * POST /register: 400 on invalid input or an email already taken, and 500
   * when a field is too long for its column, with no insert; otherwise one new
   * user holding hash(password), the default role and mustChangePassword
   * false, and a token for exactly {id, email, role}.
   */
  method Register(db: Database, input: RegisterInput, hash: string -> string, sign: JwtPayload -> string, now: Time)
    returns (r: Result<AuthReply>)
    requires db.Valid()
    modifies db`users, db`nextId
    ensures db.Valid()
    ensures !RegisterValid(input) ==> r == Err(VALIDATION_FAILED)
    ensures RegisterValid(input) && EmailTaken(old(db.users), input.email) ==> r == Err(Failure(400, "Email already registered"))
    ensures RegisterValid(input) && !EmailTaken(old(db.users), input.email) && !UserFits(NewUser(input, hash, now)) ==>
              r == Err(Failure(500, "Registration failed"))
    ensures r.Err? ==> db.users == old(db.users)
    ensures r.Ok? <==> RegisterValid(input) && !EmailTaken(old(db.users), input.email) && UserFits(NewUser(input, hash, now))
    ensures r.Ok? ==>
      var id := r.value.user.id;
      var u := NewUser(input, hash, now);
      && id !in old(db.users)
      && db.users == old(db.users)[id := u]
      && r.value.user == Public(id, u)
      && r.value.token == sign(PayloadOf(id, u))
  {
    if !RegisterValid(input) {
      return Err(VALIDATION_FAILED);
    }
    if EmailTaken(db.users, input.email) {
      return Err(Failure(400, "Email already registered"));
    }
    var passwordHash := hash(input.password);
    var u := User(input.email, passwordHash, input.firstName, input.lastName, DEFAULT_ROLE, DEFAULT_MUST_CHANGE_PASSWORD, now, now);
    if !UserFits(u) {
      return Err(Failure(500, "Registration failed"));
    }
    var id := db.InsertUser(u);
    r := Ok(AuthReply("User registered successfully", Public(id, u), sign(PayloadOf(id, u))));
  }

  /**
   * POST /login: an unknown email and a wrong password give the same 401; a
   * match gives a token for exactly that user's {id, email, role}.
   */
  method Login(db: Database, email: string, password: string, matches: (string, string) -> bool, sign: JwtPayload -> string)
    returns (r: Result<AuthReply>)
    requires db.Valid()
    ensures !IsEmail(email) ==> r == Err(VALIDATION_FAILED)
    ensures IsEmail(email) && r.Err? ==> r == Err(Failure(401, "Invalid email or password"))
    ensures r.Ok? <==> IsEmail(email) && exists id :: id in db.users && db.users[id].email == email && matches(password, db.users[id].passwordHash)
    ensures r.Ok? ==>
      var id := r.value.user.id;
      && id in db.users
      && db.users[id].email == email
      && r.value.user == Public(id, db.users[id])
      && r.value.token == sign(PayloadOf(id, db.users[id]))
  {
    if !IsEmail(email) {
      return Err(VALIDATION_FAILED);
    }
    if !EmailTaken(db.users, email) {
      return Err(Failure(401, "Invalid email or password"));
    }
    var id :| id in db.users && db.users[id].email == email;
    var u := db.users[id];
    if !matches(password, u.passwordHash) {
      return Err(Failure(401, "Invalid email or password"));
    }
    r := Ok(AuthReply("Login successful", Public(id, u), sign(PayloadOf(id, u))));
  }

  /** GET /me: the caller's public fields, or 404 once the row is gone. */
  method Me(db: Database, userId: Id) returns (r: Result<PublicUser>)
    ensures userId !in db.users ==> r == Err(Failure(404, "User not found"))
    ensures userId in db.users ==> r == Ok(Public(userId, db.users[userId]))
  {
    if userId !in db.users {
      return Err(Failure(404, "User not found"));
    }
    r := Ok(Public(userId, db.users[userId]));
  }

  /**
   * POST /change-password: 400 for a new password shorter than 8 UTF-16 code units or a wrong current
   * password, 404 for a missing user, all leaving the hash alone; otherwise the
   * hash becomes hash(newPassword) and mustChangePassword false.
   */
  method ChangePassword(db: Database, userId: Id, currentPassword: string, newPassword: string,
                        hash: string -> string, matches: (string, string) -> bool, now: Time)
    returns (r: Result<string>)
    requires db.Valid()
    modifies db`users
    ensures db.Valid()
    ensures !PasswordLongEnough(newPassword) ==> r == Err(VALIDATION_FAILED)
    ensures PasswordLongEnough(newPassword) && userId !in old(db.users) ==> r == Err(Failure(404, "User not found"))
    ensures PasswordLongEnough(newPassword) && userId in old(db.users) && !matches(currentPassword, old(db.users)[userId].passwordHash)
      ==> r == Err(Failure(400, "Current password is incorrect"))
    ensures r.Err? ==> db.users == old(db.users)
    ensures r.Ok? <==> PasswordLongEnough(newPassword) && userId in old(db.users) && matches(currentPassword, old(db.users)[userId].passwordHash)
    ensures r.Ok? ==> db.users == old(db.users)[userId := old(db.users)[userId].(passwordHash := hash(newPassword), mustChangePassword := false, updatedAt := now)]
  {
    if !PasswordLongEnough(newPassword) {
      return Err(VALIDATION_FAILED);
    }
    if userId !in db.users {
      return Err(Failure(404, "User not found"));
    }
    var u := db.users[userId];
    if !matches(currentPassword, u.passwordHash) {
      return Err(Failure(400, "Current password is incorrect"));
    }
    db.users := db.users[userId := u.(passwordHash := hash(newPassword), mustChangePassword := false, updatedAt := now)];
    r := Ok("Password changed successfully");
  }

  /**
   * A token issued at login opens the authenticated routes as that user, given a
   * signer whose tokens verify to the payload that was signed.
   */
  lemma LoginTokenAuthenticates(users: map<Id, User>, id: Id, token: string, verify: string -> Option<JwtPayload>)
    requires id in users
    requires verify(token) == Some(PayloadOf(id, users[id]))
    ensures Authenticate(Some(BEARER + token), verify, users) == Ok(Context(PayloadOf(id, users[id]), id))
  {
    BearerRoundTrip(token);
  }
}
