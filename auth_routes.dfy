/** The `/auth` routes of the backend (backend/routes/auth.py): registration with a unique
    e-mail and a default preferences record, login with one failure answer for every bad
    credential, and `/me`. Password hashing, password checking and token minting are not
    visible here, so they are parameters: `hash`, `verify` and `mintToken`. */
module AuthRoutes {
  import opened Wrappers
  import opened Models
  import opened Collections

  const EmailTaken := "Un compte avec cet email existe d\U{E9}j\U{E0}"
  const DefaultBio := "Reprendre le contr\U{F4}le de mon temps sur les r\U{E9}seaux sociaux \U{1F3AF}"
  const BadCredentials := "Email ou mot de passe incorrect"

  const RegisterRefused := AuthResponse(false, None, None, Some(EmailTaken))
  const LoginRefused := AuthResponse(false, None, None, Some(BadCredentials))

  /** The `UserResponse` of a user record just built: every field copied, the id as text. */
  function ResponseOfUser(u: User): UserResponse {
    UserResponse(IdString(u.id), u.name, u.email, u.avatar, u.bio, u.subscription, u.timeSaved,
                 u.referralCode, u.createdAt)
  }

  /** The `UserResponse` read from a stored document: a missing subscription is "free", a
      missing time saved 0, a missing referral code empty and a missing creation time now. */
  function ResponseOfDoc(d: UserDoc, now: int): UserResponse {
    UserResponse(IdString(d.id), d.name, d.email, d.avatar, d.bio, d.subscription.GetOr("free"),
                 d.timeSaved.GetOr(0), d.referralCode.GetOr(""), d.createdAt.GetOr(now))
  }

  /** A user inserted whole reads back as it was registered, whatever the time of reading. */
  lemma StoredUserReadsBack(u: User, now: int)
    ensures ResponseOfDoc(UserToDoc(u), now) == ResponseOfUser(u)
  {
  }

  /** The user `register` builds: the submitted name and e-mail, the hashed password, the
      standard bio and the record defaults. */
  function RegisteredUser(userData: UserCreate, hash: string -> string, newId: ObjectId,
                          uuidText: string, now: int): (u: User)
    requires IsUuid4Text(uuidText)
    ensures u.id == newId && u.email == userData.email && u.name == userData.name
    ensures u.password == hash(userData.password) && u.bio == Some(DefaultBio)
    ensures u.subscription == "free" && u.timeSaved == 0 && u.avatar.None?
    ensures |u.referralCode| == 8
  {
    NewUser(newId, userData.name, userData.email, hash(userData.password), Some(DefaultBio), uuidText, now)
  }

  /** `POST /auth/register`. A taken e-mail is answered with `success = false` and nothing is
      written. Otherwise exactly one user (with the hashed password) and exactly one default
      preferences record for that user's id are inserted, and the new user and a token for
      its id are returned. `newId` is the id the insert assigns, fresh in both collections. */
  method Register(db: Database, userData: UserCreate, hash: string -> string, mintToken: string -> string,
                  newId: ObjectId, uuidText: string, now: int) returns (r: AuthResponse)
    requires db.Valid()
    requires IsUuid4Text(uuidText)
    requires FindUser(db.users, newId).None? && newId !in db.userPreferences
    modifies db
    ensures db.Valid()
    ensures db.timeSessions == old(db.timeSessions)
    ensures FindEmail(old(db.users), userData.email).Some? ==>
      && r == RegisterRefused
      && db.users == old(db.users) && db.userPreferences == old(db.userPreferences)
    ensures FindEmail(old(db.users), userData.email).None? ==>
      var u := RegisteredUser(userData, hash, newId, uuidText, now);
      && db.users == old(db.users) + [UserToDoc(u)]
      && db.userPreferences == old(db.userPreferences)[newId := DefaultPrefsDoc(newId, now)]
      && r == AuthResponse(true, Some(ResponseOfUser(u)), Some(mintToken(IdString(newId))), None)
  {
    var existing := FindEmail(db.users, userData.email);
    if existing.Some? {
      return RegisterRefused;
    }
    var hashed := hash(userData.password);
    var user := NewUser(newId, userData.name, userData.email, hashed, Some(DefaultBio), uuidText, now);
    db.users := db.users + [UserToDoc(user)];
    var userId := IdString(newId);
    var preferences := DefaultPrefsDoc(newId, now);
    db.userPreferences := db.userPreferences[newId := preferences];
    var token := mintToken(userId);
    r := AuthResponse(true, Some(ResponseOfUser(user)), Some(token), None);
  }

  /** A successful registration makes the e-mail taken: registering it again is refused. */
  lemma RegisteredEmailTaken(users: seq<UserDoc>, u: User)
    ensures FindEmail(users + [UserToDoc(u)], u.email).Some?
  {
    var all := users + [UserToDoc(u)];
    assert all[|users|].email == u.email;
  }

  /** The answer `POST /auth/login` gives for a set of stored users. */
  function LoginOutcome(users: seq<UserDoc>, loginData: UserLogin, verify: (string, string) -> bool,
                        mintToken: string -> string, now: int): AuthResponse
  {
    match FindEmail(users, loginData.email)
    case None => LoginRefused
    case Some(i) =>
      if !verify(loginData.password, users[i].password) then LoginRefused
      else AuthResponse(true, Some(ResponseOfDoc(users[i], now)), Some(mintToken(IdString(users[i].id))), None)
  }

  /** `POST /auth/login`: it writes nothing and answers `LoginOutcome`. */
  method Login(db: Database, loginData: UserLogin, verify: (string, string) -> bool,
               mintToken: string -> string, now: int) returns (r: AuthResponse)
    ensures r == LoginOutcome(db.users, loginData, verify, mintToken, now)
  {
    var found := FindEmail(db.users, loginData.email);
    if found.None? {
      return LoginRefused;
    }
    var userDoc := db.users[found.value];
    if !verify(loginData.password, userDoc.password) {
      return LoginRefused;
    }
    var token := mintToken(IdString(userDoc.id));
    r := AuthResponse(true, Some(ResponseOfDoc(userDoc, now)), Some(token), None);
  }

  /** Login fails in one way only: an unknown e-mail and a wrong password get the same
      answer, and a failed answer carries no user and no token. */
  lemma LoginFailureUniform(users: seq<UserDoc>, loginData: UserLogin, verify: (string, string) -> bool,
                            mintToken: string -> string, now: int)
    ensures var r := LoginOutcome(users, loginData, verify, mintToken, now);
      && (r.success <==> FindEmail(users, loginData.email).Some?
                          && verify(loginData.password, users[FindEmail(users, loginData.email).value].password))
      && (!r.success ==> r == LoginRefused)
      && (r.success ==> r.user.Some? && r.token.Some? && r.user.value.email == loginData.email)
  {
  }

  /** Register then log in: when the password checker accepts a password against its own
      hash, logging in with the registered e-mail and password answers with the registered
      user and a token for its id. */
  lemma RegisterThenLogin(users: seq<UserDoc>, userData: UserCreate, hash: string -> string,
                          verify: (string, string) -> bool, mintToken: string -> string,
                          newId: ObjectId, uuidText: string, now: int, later: int)
    requires IsUuid4Text(uuidText)
    requires FindEmail(users, userData.email).None?
    requires verify(userData.password, hash(userData.password))
    ensures var u := RegisteredUser(userData, hash, newId, uuidText, now);
      LoginOutcome(users + [UserToDoc(u)], UserLogin(userData.email, userData.password), verify, mintToken, later)
      == AuthResponse(true, Some(ResponseOfUser(u)), Some(mintToken(IdString(newId))), None)
  {
    var u := RegisteredUser(userData, hash, newId, uuidText, now);
    FindEmailAppended(users, UserToDoc(u));
    StoredUserReadsBack(u, later);
  }

  /** An e-mail absent from `users` is found at the position of a document appended with it. */
  lemma {:induction false} FindEmailAppended(users: seq<UserDoc>, d: UserDoc)
    requires FindEmail(users, d.email).None?
    ensures FindEmail(users + [d], d.email) == Some(|users|)
    decreases |users|
  {
    if users != [] {
      assert (users + [d])[1..] == users[1..] + [d];
      FindEmailAppended(users[1..], d);
    }
  }

  /** `GET /auth/me`: the caller's user with the login defaults, 404 when there is none. */
  method GetCurrentUser(db: Database, currentUserId: string, now: int) returns (r: Result<UserResponse, HttpError>)
    ensures RouteUserId(currentUserId).Failure? ==> r == Failure(InvalidIdError)
    ensures RouteUserId(currentUserId).Success? ==>
      var uid := RouteUserId(currentUserId).value;
      match FindUser(db.users, uid)
      case None => r == Failure(UserNotFound)
      case Some(i) => r == Success(ResponseOfDoc(db.users[i], now)) && r.value.id == IdString(uid)
  {
    var id := RouteUserId(currentUserId);
    if id.Failure? {
      return Failure(id.error);
    }
    var found := FindUser(db.users, id.value);
    if found.None? {
      return Failure(UserNotFound);
    }
    r := Success(ResponseOfDoc(db.users[found.value], now));
  }
}
