/** The `/user` routes of the backend (backend/routes/user.py): reading preferences with
    default creation, the lock-guarded partial update, adding saved time with its session
    log, and the seven-day statistics. The caller's id arrives as text; the clock is `now`,
    in milliseconds. */
module UserRoutes {
  import opened Wrappers
  import opened Models
  import opened Collections

  /** `PreferencesResponse` read from a stored document, a missing field reported with its
      default. */
  function ResponseOf(d: PrefsDoc): PreferencesResponse {
    PreferencesResponse(
      d.hideReels.GetOr(true), d.hideStories.GetOr(false), d.hideSuggestions.GetOr(true),
      d.lockMode.GetOr(false), d.lockEndTime)
  }

  const DefaultResponse := PreferencesResponse(true, false, true, false, None)

  /** The defaults document reads back as the defaults. */
  lemma DefaultDocResponse(uid: ObjectId, now: int)
    ensures ResponseOf(DefaultPrefsDoc(uid, now)) == DefaultResponse
  {
  }

  /** `GET /user/preferences`: the stored preferences, or, the first time, the defaults,
      which are inserted. No other collection is touched. */
  method GetPreferences(db: Database, currentUserId: string, now: int)
    returns (r: Result<PreferencesResponse, HttpError>)
    requires db.Valid()
    modifies db
    ensures db.Valid()
    ensures db.users == old(db.users) && db.timeSessions == old(db.timeSessions)
    ensures RouteUserId(currentUserId).Failure? ==>
      r == Failure(InvalidIdError) && db.userPreferences == old(db.userPreferences)
    ensures RouteUserId(currentUserId).Success? ==>
      var uid := RouteUserId(currentUserId).value;
      if uid in old(db.userPreferences) then
        r == Success(ResponseOf(old(db.userPreferences)[uid])) && db.userPreferences == old(db.userPreferences)
      else
        r == Success(DefaultResponse) && db.userPreferences == old(db.userPreferences)[uid := DefaultPrefsDoc(uid, now)]
  {
    var id := RouteUserId(currentUserId);
    if id.Failure? {
      return Failure(id.error);
    }
    var uid := id.value;
    if uid !in db.userPreferences {
      var defaults := DefaultPrefsDoc(uid, now);
      db.userPreferences := db.userPreferences[uid := defaults];
      DefaultDocResponse(uid, now);
      return Success(ResponseOf(defaults));
    }
    r := Success(ResponseOf(db.userPreferences[uid]));
  }

  /** The stored lock is live: `lock_mode` true, an end time set, and now before it. */
  predicate LockLive(current: Option<PrefsDoc>, now: int) {
    && current.Some?
    && current.value.lockMode == Some(true)
    && current.value.lockEndTime.Some?
    && now < current.value.lockEndTime.value
  }

  const LockedError := HttpError(403, "Mode verrou actif - impossible de modifier les r\U{E9}glages")

  /** The `$set` document of an update: `updated_at` always, each preference only when set. */
  datatype SetData = SetData(
    updatedAt: int,
    hideReels: Option<bool>, hideStories: Option<bool>, hideSuggestions: Option<bool>,
    lockMode: Option<bool>, lockEndTime: Option<int>)

  /** The `$set` document a request produces: the request's non-None fields and the time. */
  function SetDataOf(req: PreferencesUpdate, now: int): SetData {
    SetData(now, req.hideReels, req.hideStories, req.hideSuggestions, req.lockMode, req.lockEndTime)
  }

  /** A field after `$set`: the new value when the update sets one, the stored one otherwise. */
  function Pick<T>(update: Option<T>, stored: Option<T>): Option<T> {
    if update.Some? then update else stored
  }

  /** `update_one(…, {"$set": data}, upsert=True)`: the fields in `data` overwrite the stored
      ones; a missing document is created from the filter's `user_id` and `data` alone. */
  function Upsert(current: Option<PrefsDoc>, uid: ObjectId, data: SetData): PrefsDoc {
    var stored := if current.Some? then current.value else PrefsDoc(uid, None, None, None, None, None, data.updatedAt);
    PrefsDoc(
      uid,
      Pick(data.hideReels, stored.hideReels),
      Pick(data.hideStories, stored.hideStories),
      Pick(data.hideSuggestions, stored.hideSuggestions),
      Pick(data.lockMode, stored.lockMode),
      Pick(data.lockEndTime, stored.lockEndTime),
      data.updatedAt)
  }

  function Lookup(prefs: map<ObjectId, PrefsDoc>, uid: ObjectId): Option<PrefsDoc> {
    if uid in prefs then Some(prefs[uid]) else None
  }

  /** The `update_data` dictionary built key by key: `updated_at`, then each field the
      request sets; a field left at None is not written. */
  method UpdateData(preferences: PreferencesUpdate, now: int) returns (data: SetData)
    ensures data == SetDataOf(preferences, now)
  {
    data := SetData(now, None, None, None, None, None);
    if preferences.hideReels.Some? {
      data := data.(hideReels := preferences.hideReels);
    }
    assert data.hideReels == preferences.hideReels;
    if preferences.hideStories.Some? {
      data := data.(hideStories := preferences.hideStories);
    }
    assert data.hideStories == preferences.hideStories;
    if preferences.hideSuggestions.Some? {
      data := data.(hideSuggestions := preferences.hideSuggestions);
    }
    assert data.hideSuggestions == preferences.hideSuggestions;
    if preferences.lockMode.Some? {
      data := data.(lockMode := preferences.lockMode);
    }
    assert data.lockMode == preferences.lockMode;
    if preferences.lockEndTime.Some? {
      data := data.(lockEndTime := preferences.lockEndTime);
    }
    assert data.lockEndTime == preferences.lockEndTime;
  }

  /** `PUT /user/preferences`. While the stored lock is live the request is refused with 403
      and nothing is written, whatever it asks (even `lock_mode = false`, since the check
      reads the stored record before any merge). Otherwise the request's non-None fields are
      upserted with a fresh `updated_at` and the stored record is returned. */
  method UpdatePreferences(db: Database, preferences: PreferencesUpdate, currentUserId: string, now: int)
    returns (r: Result<PreferencesResponse, HttpError>)
    requires db.Valid()
    modifies db
    ensures db.Valid()
    ensures db.users == old(db.users) && db.timeSessions == old(db.timeSessions)
    ensures RouteUserId(currentUserId).Failure? ==>
      r == Failure(InvalidIdError) && db.userPreferences == old(db.userPreferences)
    ensures RouteUserId(currentUserId).Success? ==>
      var uid := RouteUserId(currentUserId).value;
      var current := Lookup(old(db.userPreferences), uid);
      if LockLive(current, now) then
        r == Failure(LockedError) && db.userPreferences == old(db.userPreferences)
      else
        && db.userPreferences == old(db.userPreferences)[uid := Upsert(current, uid, SetDataOf(preferences, now))]
        && r == Success(ResponseOf(db.userPreferences[uid]))
  {
    var id := RouteUserId(currentUserId);
    if id.Failure? {
      return Failure(id.error);
    }
    var uid := id.value;
    var current := Lookup(db.userPreferences, uid);
    if current.Some? && current.value.lockMode == Some(true) && current.value.lockEndTime.Some? {
      if now < current.value.lockEndTime.value {
        return Failure(LockedError);
      }
    }
    var data := UpdateData(preferences, now);
    db.userPreferences := db.userPreferences[uid := Upsert(current, uid, data)];
    r := Success(ResponseOf(db.userPreferences[uid]));
  }

  /** What an accepted update reports: every field sent comes back as sent; every field not
      sent keeps its stored value, or is reported with its default when the record is new. */
  lemma UpdateReportsSentAndKept(current: Option<PrefsDoc>, uid: ObjectId, req: PreferencesUpdate, now: int)
    ensures var r := ResponseOf(Upsert(current, uid, SetDataOf(req, now)));
      var before := if current.Some? then ResponseOf(current.value) else DefaultResponse;
      && r.hideReels == req.hideReels.GetOr(before.hideReels)
      && r.hideStories == req.hideStories.GetOr(before.hideStories)
      && r.hideSuggestions == req.hideSuggestions.GetOr(before.hideSuggestions)
      && r.lockMode == req.lockMode.GetOr(before.lockMode)
      && (req.lockEndTime.Some? ==> r.lockEndTime == req.lockEndTime)
      && (req.lockEndTime.None? ==> r.lockEndTime == before.lockEndTime)
  {
  }

  /** An accepted update leaves every stored field it does not name as it was and always
      refreshes `updated_at`. */
  lemma UpdateKeepsUnsentFields(d: PrefsDoc, uid: ObjectId, req: PreferencesUpdate, now: int)
    requires d.userId == uid
    ensures var n := Upsert(Some(d), uid, SetDataOf(req, now));
      && n.userId == uid && n.updatedAt == now
      && (req.hideReels.None? ==> n.hideReels == d.hideReels)
      && (req.hideStories.None? ==> n.hideStories == d.hideStories)
      && (req.hideSuggestions.None? ==> n.hideSuggestions == d.hideSuggestions)
      && (req.lockMode.None? ==> n.lockMode == d.lockMode)
      && (req.lockEndTime.None? ==> n.lockEndTime == d.lockEndTime)
  {
  }

  /** An empty request only refreshes `updated_at`. */
  lemma EmptyUpdateOnlyTouchesTime(d: PrefsDoc, now: int)
    ensures Upsert(Some(d), d.userId, SetDataOf(EmptyUpdate, now)) == d.(updatedAt := now)
  {
  }

  /** The JSON body of a successful `POST /user/time-saved`. */
  datatype TimeSavedReply = TimeSavedReply(success: bool, totalTimeSaved: int)

  /** The session record logged for each addition: no time spent, the minutes as saved,
      every timestamp now. */
  function NewSession(uid: ObjectId, body: TimeSavedCreate, now: int): SessionDoc {
    SessionDoc(uid, body.platform, 0, body.minutes, now, now, now)
  }

  /** `$inc` on `time_saved`: a missing field counts as 0. */
  function Incremented(u: UserDoc, minutes: int): (v: UserDoc)
    ensures v.timeSaved == Some(u.timeSaved.GetOr(0) + minutes)
    ensures v == u.(timeSaved := v.timeSaved)
  {
    u.(timeSaved := Some(u.timeSaved.GetOr(0) + minutes))
  }

  /** Whether `$inc` by `minutes` changes a stored user: a missing `time_saved` is created,
      a present one changes unless the increment is 0. */
  predicate IncChanges(u: UserDoc, minutes: int) {
    u.timeSaved.None? || minutes != 0
  }

  /** The route's guard as written, `modified_count == 0`: true for an unknown id, and also
      for a known user whose document the `$inc` leaves unchanged. */
  function NotFoundAsWritten(users: seq<UserDoc>, uid: ObjectId, minutes: int): bool {
    match FindUser(users, uid)
    case None => true
    case Some(i) => !IncChanges(users[i], minutes)
  }

  /** As written, the guard reports a missing user exactly when there is none as long as the
      increment is not 0; with 0 minutes a user who already has a total is told "Utilisateur
      non trouvé", and no session is logged. */
  lemma ZeroMinutesReportedMissing(users: seq<UserDoc>, uid: ObjectId, minutes: int)
    ensures minutes != 0 ==> (NotFoundAsWritten(users, uid, minutes) <==> FindUser(users, uid).None?)
    ensures FindUser(users, uid).Some? && users[FindUser(users, uid).value].timeSaved.Some? ==>
      NotFoundAsWritten(users, uid, 0)
  {
  }

  /** `POST /user/time-saved`: the user's total grows by the minutes, one session is logged
      and the new total is returned; an unknown user gets 404 and nothing is written. */
  method AddTimeSaved(db: Database, body: TimeSavedCreate, currentUserId: string, now: int)
    returns (r: Result<TimeSavedReply, HttpError>)
    requires db.Valid()
    modifies db
    ensures db.Valid()
    ensures db.userPreferences == old(db.userPreferences)
    ensures RouteUserId(currentUserId).Failure? ==>
      r == Failure(InvalidIdError) && db.users == old(db.users) && db.timeSessions == old(db.timeSessions)
    ensures RouteUserId(currentUserId).Success? ==>
      var uid := RouteUserId(currentUserId).value;
      match FindUser(old(db.users), uid)
      case None =>
        r == Failure(UserNotFound) && db.users == old(db.users) && db.timeSessions == old(db.timeSessions)
      case Some(i) =>
        && db.users == old(db.users)[i := Incremented(old(db.users)[i], body.minutes)]
        && db.timeSessions == old(db.timeSessions) + [NewSession(uid, body, now)]
        && r == Success(TimeSavedReply(true, old(db.users)[i].timeSaved.GetOr(0) + body.minutes))
  {
    var id := RouteUserId(currentUserId);
    if id.Failure? {
      return Failure(id.error);
    }
    var uid := id.value;
    var found := FindUser(db.users, uid);
    if found.None? {
      return Failure(UserNotFound);
    }
    var i := found.value;
    db.users := db.users[i := Incremented(db.users[i], body.minutes)];
    db.timeSessions := db.timeSessions + [NewSession(uid, body, now)];
    r := Success(TimeSavedReply(true, db.users[i].timeSaved.GetOr(0)));
  }

  const WeekMs := 7 * 24 * 60 * 60 * 1000

  /** The sessions of one user, in log order. */
  function SessionsOf(log: seq<SessionDoc>, uid: ObjectId): seq<SessionDoc>
    decreases |log|
  {
    if log == [] then []
    else SessionsOf(log[..|log| - 1], uid) + (if log[|log| - 1].userId == uid then [log[|log| - 1]] else [])
  }

  /** The sessions of one user created at or after `since`, in log order. */
  function SessionsSince(log: seq<SessionDoc>, uid: ObjectId, since: int): seq<SessionDoc>
    decreases |log|
  {
    if log == [] then []
    else
      var last := log[|log| - 1];
      SessionsSince(log[..|log| - 1], uid, since) + (if last.userId == uid && last.createdAt >= since then [last] else [])
  }

  function SumSaved(sessions: seq<SessionDoc>): int
    decreases |sessions|
  {
    if sessions == [] then 0 else SumSaved(sessions[..|sessions| - 1]) + sessions[|sessions| - 1].timeSaved
  }

  /** The statistics of a user as `get_user_stats` defines them at time `now`. */
  function StatsOf(user: UserDoc, log: seq<SessionDoc>, now: int): StatsResponse {
    var weekly := SessionsSince(log, user.id, now - WeekMs);
    StatsResponse(user.timeSaved.GetOr(0), |weekly|, SumSaved(weekly), |SessionsOf(log, user.id)|)
  }

  /** `GET /user/stats`: the stored total, the number and the summed minutes of the user's
      sessions of the last seven days, and the number of all the user's sessions; 404 for an
      unknown user. It writes nothing. */
  method GetUserStats(db: Database, currentUserId: string, now: int)
    returns (r: Result<StatsResponse, HttpError>)
    ensures RouteUserId(currentUserId).Failure? ==> r == Failure(InvalidIdError)
    ensures RouteUserId(currentUserId).Success? ==>
      match FindUser(db.users, RouteUserId(currentUserId).value)
      case None => r == Failure(UserNotFound)
      case Some(i) => r == Success(StatsOf(db.users[i], db.timeSessions, now))
  {
    var id := RouteUserId(currentUserId);
    if id.Failure? {
      return Failure(id.error);
    }
    var uid := id.value;
    var found := FindUser(db.users, uid);
    if found.None? {
      return Failure(UserNotFound);
    }
    var user := db.users[found.value];
    var log := db.timeSessions;
    var weekAgo := now - WeekMs;
    var total, weeklyCount, weeklySum := 0, 0, 0;
    var k := 0;
    while k < |log|
      invariant 0 <= k <= |log|
      invariant total == |SessionsOf(log[..k], uid)|
      invariant weeklyCount == |SessionsSince(log[..k], uid, weekAgo)|
      invariant weeklySum == SumSaved(SessionsSince(log[..k], uid, weekAgo))
    {
      var s := log[k];
      assert log[..k + 1][..k] == log[..k];
      var before := SessionsSince(log[..k], uid, weekAgo);
      if !(s.userId == uid && s.createdAt >= weekAgo) {
        assert SessionsSince(log[..k + 1], uid, weekAgo) == before;
      }
      if s.userId == uid {
        total := total + 1;
        if s.createdAt >= weekAgo {
          assert SessionsSince(log[..k + 1], uid, weekAgo) == before + [s];
          assert (before + [s])[..|before|] == before;
          assert SumSaved(before + [s]) == SumSaved(before) + s.timeSaved;
          weeklyCount := weeklyCount + 1;
          weeklySum := weeklySum + s.timeSaved;
        }
      }
      k := k + 1;
    }
    assert log[..k] == log;
    r := Success(StatsResponse(user.timeSaved.GetOr(0), weeklyCount, weeklySum, total));
  }

  /** The week's sessions are among all the user's sessions, so the weekly count never
      exceeds the total count. */
  lemma {:induction false} WeeklyAtMostTotal(log: seq<SessionDoc>, uid: ObjectId, since: int)
    ensures |SessionsSince(log, uid, since)| <= |SessionsOf(log, uid)|
    decreases |log|
  {
    if log != [] {
      WeeklyAtMostTotal(log[..|log| - 1], uid, since);
    }
  }

  /** Sessions of other users do not change a user's statistics. */
  lemma {:induction false} OtherUsersIgnored(log: seq<SessionDoc>, extra: SessionDoc, uid: ObjectId, since: int)
    requires extra.userId != uid
    ensures SessionsOf(log + [extra], uid) == SessionsOf(log, uid)
    ensures SessionsSince(log + [extra], uid, since) == SessionsSince(log, uid, since)
  {
    assert (log + [extra])[..|log|] == log;
  }

  /** Adding time and then reading the statistics at the same moment: the total and the
      week's sum grow by the minutes added, both session counts by one. */
  lemma StatsAfterAdd(user: UserDoc, log: seq<SessionDoc>, body: TimeSavedCreate, now: int)
    ensures var before := StatsOf(user, log, now);
      var after := StatsOf(Incremented(user, body.minutes), log + [NewSession(user.id, body, now)], now);
      && after.timeSaved == before.timeSaved + body.minutes
      && after.sessionsCount == before.sessionsCount + 1
      && after.weeklyTimeSaved == before.weeklyTimeSaved + body.minutes
      && after.totalSessions == before.totalSessions + 1
  {
    var log' := log + [NewSession(user.id, body, now)];
    assert log'[..|log|] == log;
    var weekly := SessionsSince(log, user.id, now - WeekMs);
    var weekly' := weekly + [NewSession(user.id, body, now)];
    assert weekly'[..|weekly|] == weekly;
  }
}
