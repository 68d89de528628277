/** The backend's MongoDB collections as state: `users` in insertion order (a `find_one`
    returns the first match), `user_preferences` keyed by user id (its unique index), and
    `time_sessions` in insertion order. A stored document may lack fields, which is why the
    routes read most of them through `.get(key, default)`: such fields are `Option`s here. */
module Collections {
  import opened Wrappers
  import opened Models

  datatype UserDoc = UserDoc(
    id: ObjectId, name: string, email: string, password: string,
    avatar: Option<string>, bio: Option<string>,
    subscription: Option<string>, timeSaved: Option<int>, referralCode: Option<string>,
    createdAt: Option<int>, updatedAt: Option<int>)

  /** `user.dict(by_alias=True)` as inserted: every field present. */
  function UserToDoc(u: User): UserDoc {
    UserDoc(u.id, u.name, u.email, u.password, u.avatar, u.bio, Some(u.subscription),
            Some(u.timeSaved), Some(u.referralCode), Some(u.createdAt), Some(u.updatedAt))
  }

  datatype PrefsDoc = PrefsDoc(
    userId: ObjectId,
    hideReels: Option<bool>, hideStories: Option<bool>, hideSuggestions: Option<bool>,
    lockMode: Option<bool>, lockEndTime: Option<int>, updatedAt: int)

  /** The preferences document a new user gets: the `UserPreferences` defaults, every field
      present. The `get_preferences` route inserts a document with the same values. */
  function DefaultPrefsDoc(userId: ObjectId, now: int): (d: PrefsDoc)
    ensures d.userId == userId && d.updatedAt == now
    ensures d.hideReels == Some(true) && d.hideStories == Some(false) && d.hideSuggestions == Some(true)
    ensures d.lockMode == Some(false) && d.lockEndTime.None?
  {
    var p := DefaultUserPreferences(userId, now);
    PrefsDoc(p.userId, Some(p.hideReels), Some(p.hideStories), Some(p.hideSuggestions),
             Some(p.lockMode), p.lockEndTime, p.updatedAt)
  }

  datatype SessionDoc = SessionDoc(
    userId: ObjectId, platform: string, timeSpent: int, timeSaved: int,
    startTime: int, endTime: int, createdAt: int)

  /** `find_one({"_id": id})`: the position of the first user with that id. */
  function FindUser(users: seq<UserDoc>, id: ObjectId): (r: Option<nat>)
    ensures r.Some? ==> r.value < |users| && users[r.value].id == id
    ensures r.Some? ==> forall j :: 0 <= j < r.value ==> users[j].id != id
    ensures r.None? ==> forall j :: 0 <= j < |users| ==> users[j].id != id
  {
    if |users| == 0 then None
    else if users[0].id == id then Some(0)
    else match FindUser(users[1..], id)
      case Some(k) => Some(k + 1)
      case None => None
  }

  /** `find_one({"email": email})`: the position of the first user with that address. */
  function FindEmail(users: seq<UserDoc>, email: string): (r: Option<nat>)
    ensures r.Some? ==> r.value < |users| && users[r.value].email == email
    ensures r.Some? ==> forall j :: 0 <= j < r.value ==> users[j].email != email
    ensures r.None? ==> forall j :: 0 <= j < |users| ==> users[j].email != email
  {
    if |users| == 0 then None
    else if users[0].email == email then Some(0)
    else match FindEmail(users[1..], email)
      case Some(k) => Some(k + 1)
      case None => None
  }

  /** The unique indexes: `_id` and `email` on users. */
  ghost predicate UniqueUsers(users: seq<UserDoc>) {
    forall i, j :: 0 <= i < j < |users| ==> users[i].id != users[j].id && users[i].email != users[j].email
  }

  /** The three collections. */
  class Database {
    var users: seq<UserDoc>
    var userPreferences: map<ObjectId, PrefsDoc>
    var timeSessions: seq<SessionDoc>

    /** The unique indexes hold, and each preferences document is filed under its own user id. */
    ghost predicate Valid()
      reads this
    {
      && UniqueUsers(users)
      && forall u :: u in userPreferences ==> userPreferences[u].userId == u
    }

    constructor ()
      ensures Valid()
      ensures users == [] && userPreferences == map[] && timeSessions == []
    {
      users := [];
      userPreferences := map[];
      timeSessions := [];
    }
  }

  /** An `HTTPException`: a status code and a detail text. */
  datatype HttpError = HttpError(status: int, detail: string)

  /** `ObjectId(current_user_id)` raising bson's InvalidId, which no route catches. */
  const InvalidIdError := HttpError(500, "Internal Server Error")

  const UserNotFound := HttpError(404, "Utilisateur non trouv\U{E9}")

  /** The id a route works on: the caller's id text parsed as an ObjectId. */
  function RouteUserId(currentUserId: string): (r: Result<ObjectId, HttpError>)
    ensures r.Success? <==> ParseObjectId(currentUserId).Some?
    ensures r.Success? ==> IdString(r.value) == Lower24(currentUserId)
    ensures r.Failure? ==> r.error == InvalidIdError
  {
    match Validate(IdText(currentUserId))
    case Success(oid) => Success(oid)
    case Failure(_) => Failure(InvalidIdError)
  }
}
