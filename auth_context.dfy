/** The client's session (frontend/src/contexts/AuthContext.js): the signed-in user in
    memory, the token and the user kept in `localStorage`, login and registration that store
    the session only on a full success, the start-up check, and logout with its prefix
    purge. A server call is a parameter: the value it returned or the exception it threw. */
module AuthContext {
  import opened Wrappers
  import opened Text
  import opened Models
  import opened LocalStorage

  const TokenKey := "icare-token"
  const UserKey := "icare-user"
  const PrefsPrefix := "icare-preferences-"
  const TimePrefix := "icare-time-saved-"

  /** The token and the saved user are two keys. */
  lemma SessionKeysDiffer()
    ensures TokenKey != UserKey
  {
    assert TokenKey[6] != UserKey[6];
  }

  const LoginFallback := "Erreur de connexion"
  const RegisterFallback := "Erreur lors de la cr\U{E9}ation du compte"
  const ServerFallback := "Erreur de connexion au serveur"

  /** The result of an awaited server call: its parsed body, or an exception carrying the
      server's `detail` text when there was one. */
  datatype ApiCall<T> = Returned(body: T) | Threw(detail: Option<string>)

  /** What `login` and `register` resolve to: `{success}` or `{success, message}`. */
  datatype AuthOutcome = AuthOutcome(success: bool, message: Option<string>)

  /** `response.success && response.user && response.token`: success, a user and a non-empty token. */
  predicate FullSuccess(r: AuthResponse) {
    r.success && r.user.Some? && Truthy(r.token)
  }

  /** `m || fallback` on an optional text. */
  function OrElse(m: Option<string>, fallback: string): (s: string)
    ensures Truthy(m) ==> s == m.value
    ensures !Truthy(m) ==> s == fallback
  {
    if Truthy(m) then m.value else fallback
  }

  /** How `login` and `register` resolve, `fallback` being the message of a refusal that
      carries none. */
  function OutcomeOf(call: ApiCall<AuthResponse>, fallback: string): (o: AuthOutcome)
    requires fallback != ""
    ensures o.success <==> call.Returned? && FullSuccess(call.body)
    ensures o.success ==> o.message.None?
    ensures !o.success ==> Truthy(o.message)
    ensures call.Returned? && !o.success ==> o.message == Some(OrElse(call.body.message, fallback))
    ensures call.Threw? ==> o.message == Some(OrElse(call.detail, ServerFallback))
  {
    match call
    case Returned(response) =>
      if FullSuccess(response) then AuthOutcome(true, None)
      else AuthOutcome(false, Some(OrElse(response.message, fallback)))
    case Threw(detail) => AuthOutcome(false, Some(OrElse(detail, ServerFallback)))
  }

  function JsonText(s: string): string {
    "\"" + s + "\""
  }

  function JsonOptText(s: Option<string>): string {
    match s
    case None => "null"
    case Some(t) => JsonText(t)
  }

  /** `JSON.stringify(user)`: an object text, hence never empty. */
  function EncodeUser(u: UserResponse): (s: string)
    ensures |s| >= 2 && s[0] == '{' && s[|s| - 1] == '}'
  {
    "{\"id\":" + JsonText(u.id) + ",\"name\":" + JsonText(u.name) + ",\"email\":" + JsonText(u.email)
    + ",\"avatar\":" + JsonOptText(u.avatar) + ",\"bio\":" + JsonOptText(u.bio)
    + ",\"subscription\":" + JsonText(u.subscription) + ",\"time_saved\":" + IntToString(u.timeSaved)
    + ",\"referral_code\":" + JsonText(u.referralCode) + ",\"created_at\":" + IntToString(u.createdAt) + "}"
  }

  /** The storage after a sign-in call: the token and the user are written on a full success
      only. */
  function SignedIn(items: map<string, string>, call: ApiCall<AuthResponse>): map<string, string> {
    if call.Returned? && FullSuccess(call.body) then
      items[TokenKey := call.body.token.value][UserKey := EncodeUser(call.body.user.value)]
    else items
  }

  /** A stored session: a non-empty token and a non-empty saved user. */
  predicate HasSession(items: map<string, string>) {
    && TokenKey in items && items[TokenKey] != ""
    && UserKey in items && items[UserKey] != ""
  }

  /** The per-user keys of the preference store. */
  predicate UserDataKey(k: string) {
    StartsWith(k, PrefsPrefix) || StartsWith(k, TimePrefix)
  }

  /** The keys logout removes. */
  predicate LoggedOutKey(k: string) {
    k == TokenKey || k == UserKey || UserDataKey(k)
  }

  /** The storage after logout: exactly the keys logout removes are gone; every other key
      keeps its value. */
  function Purged(items: map<string, string>): (r: map<string, string>)
    ensures forall k :: k in r <==> k in items && !LoggedOutKey(k)
    ensures forall k :: k in r ==> r[k] == items[k]
  {
    map k | k in items && !LoggedOutKey(k) :: items[k]
  }

  class AuthProvider {
    const storage: Storage
    var user: Option<UserResponse>
    var loading: bool

    /** No user, and loading until the start-up check has run. */
    constructor (storage: Storage)
      ensures this.storage == storage && user.None? && loading
    {
      this.storage := storage;
      user := None;
      loading := true;
    }

    /** `checkAuthStatus`: the server is asked for the current user only when a token and a
        saved user are both stored. Its answer replaces the user in memory and in storage; a
        failure removes both keys and signs the user out. Loading ends either way. */
    method CheckAuthStatus(call: ApiCall<UserResponse>) returns (contacted: bool)
      modifies this, storage
      ensures contacted <==> HasSession(old(storage.items))
      ensures !contacted ==> storage.items == old(storage.items) && user == old(user)
      ensures contacted && call.Returned? ==>
        user == Some(call.body) && storage.items == old(storage.items)[UserKey := EncodeUser(call.body)]
      ensures contacted && call.Threw? ==>
        user.None? && storage.items == old(storage.items) - {TokenKey, UserKey}
      ensures !loading
    {
      SessionKeysDiffer();
      var token := storage.GetItem(TokenKey);
      var savedUser := storage.GetItem(UserKey);
      contacted := Truthy(token) && Truthy(savedUser);
      if contacted {
        match call
        case Returned(currentUser) =>
          user := Some(currentUser);
          storage.SetItem(UserKey, EncodeUser(currentUser));
        case Threw(_) =>
          storage.RemoveItem(TokenKey);
          storage.RemoveItem(UserKey);
          assert storage.items == old(storage.items) - {TokenKey, UserKey};
          user := None;
      }
      loading := false;
    }

    /** The common end of `login` and `register`: on a full success the user is kept and the
        token and user are stored; otherwise nothing changes. */
    method SignIn(call: ApiCall<AuthResponse>, fallback: string) returns (o: AuthOutcome)
      requires fallback != ""
      modifies this, storage
      ensures o == OutcomeOf(call, fallback)
      ensures storage.items == SignedIn(old(storage.items), call)
      ensures user == if o.success then call.body.user else old(user)
      ensures loading == old(loading)
    {
      match call
      case Returned(response) =>
        if response.success && response.user.Some? && Truthy(response.token) {
          user := response.user;
          storage.SetItem(TokenKey, response.token.value);
          storage.SetItem(UserKey, EncodeUser(response.user.value));
          return AuthOutcome(true, None);
        }
        return AuthOutcome(false, Some(OrElse(response.message, fallback)));
      case Threw(detail) =>
        return AuthOutcome(false, Some(OrElse(detail, ServerFallback)));
    }

    /** `login(email, password)`, `call` being the server's answer to it. */
    method Login(call: ApiCall<AuthResponse>) returns (o: AuthOutcome)
      modifies this, storage
      ensures o == OutcomeOf(call, LoginFallback)
      ensures storage.items == SignedIn(old(storage.items), call)
      ensures user == if o.success then call.body.user else old(user)
      ensures loading == old(loading)
    {
      o := SignIn(call, LoginFallback);
    }

    /** `register(userData)`, `call` being the server's answer to it. */
    method Register(call: ApiCall<AuthResponse>) returns (o: AuthOutcome)
      modifies this, storage
      ensures o == OutcomeOf(call, RegisterFallback)
      ensures storage.items == SignedIn(old(storage.items), call)
      ensures user == if o.success then call.body.user else old(user)
      ensures loading == old(loading)
    {
      o := SignIn(call, RegisterFallback);
    }

    /** `logout`: the user is dropped, the token and the saved user are removed, then every
        key of the preference store, whoever it belongs to. */
    method Logout()
      modifies this, storage
      ensures user.None? && loading == old(loading)
      ensures storage.items == Purged(old(storage.items))
    {
      user := None;
      storage.RemoveItem(TokenKey);
      storage.RemoveItem(UserKey);
      var start := storage.items;
      var keys := storage.items.Keys;
      while keys != {}
        invariant keys <= start.Keys
        invariant forall k :: k in storage.items <==> k in start && (k in keys || !UserDataKey(k))
        invariant forall k :: k in storage.items ==> storage.items[k] == start[k]
        modifies storage
        decreases keys
      {
        var key :| key in keys;
        if UserDataKey(key) {
          storage.RemoveItem(key);
        }
        keys := keys - {key};
      }
      assert storage.items == Purged(old(storage.items));
    }
  }

  /** A full success stores a session the next start-up check will confirm with the server;
      any other answer leaves the storage as it was. */
  lemma SignInStoresSession(items: map<string, string>, call: ApiCall<AuthResponse>)
    ensures call.Returned? && FullSuccess(call.body) ==> HasSession(SignedIn(items, call))
    ensures !(call.Returned? && FullSuccess(call.body)) ==> SignedIn(items, call) == items
    ensures forall k :: k != TokenKey && k != UserKey && k in items ==> k in SignedIn(items, call) && SignedIn(items, call)[k] == items[k]
  {
    SessionKeysDiffer();
  }

  /** After logout no session is stored, no key of any user's preference store is left, and
      logging out again changes nothing. */
  lemma LogoutEndsSession(items: map<string, string>, userId: string)
    ensures !HasSession(Purged(items))
    ensures PrefsPrefix + userId !in Purged(items) && TimePrefix + userId !in Purged(items)
    ensures Purged(Purged(items)) == Purged(items)
  {
    assert StartsWith(PrefsPrefix + userId, PrefsPrefix) by {
      assert (PrefsPrefix + userId)[..|PrefsPrefix|] == PrefsPrefix;
    }
    assert StartsWith(TimePrefix + userId, TimePrefix) by {
      assert (TimePrefix + userId)[..|TimePrefix|] == TimePrefix;
    }
  }
}
