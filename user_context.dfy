/** The client's preference and lock store (frontend/src/contexts/UserContext.js): the five
    preferences and the running minutes saved, merged and persisted under per-user keys of
    `localStorage`, and the lock, which is never stored as "active" but derived from the end
    time and the clock. The end time, an ISO 8601 text in the browser, is kept here as integer
    milliseconds since the epoch; `now` is `Date.now()`. */
module UserContext {
  import opened Wrappers
  import opened Text
  import opened LocalStorage
  import opened AuthContext

  datatype Preferences = Preferences(
    hideReels: bool, hideStories: bool, hideSuggestions: bool,
    lockMode: bool, lockEndTime: Option<int>)

  /** Reels and suggestions hidden, stories shown, no lock. */
  const InitialPreferences := Preferences(true, false, true, false, None)

  /** The object handed to `updatePreferences`: the keys it has (`Some`) and their values;
      `lockEndTime` may be present with the value null. */
  datatype PrefsPatch = PrefsPatch(
    hideReels: Option<bool>, hideStories: Option<bool>, hideSuggestions: Option<bool>,
    lockMode: Option<bool>, lockEndTime: Option<Option<int>>)

  const NoChange := PrefsPatch(None, None, None, None, None)

  /** `{ ...p, ...patch }`: the keys of `patch` overwritten, every other field as in `p`. */
  function Merge(p: Preferences, patch: PrefsPatch): Preferences {
    Preferences(
      patch.hideReels.GetOr(p.hideReels), patch.hideStories.GetOr(p.hideStories),
      patch.hideSuggestions.GetOr(p.hideSuggestions), patch.lockMode.GetOr(p.lockMode),
      patch.lockEndTime.GetOr(p.lockEndTime))
  }

  /** `{ ...a, ...b }` on two patches. */
  function Then(a: PrefsPatch, b: PrefsPatch): PrefsPatch {
    PrefsPatch(
      if b.hideReels.Some? then b.hideReels else a.hideReels,
      if b.hideStories.Some? then b.hideStories else a.hideStories,
      if b.hideSuggestions.Some? then b.hideSuggestions else a.hideSuggestions,
      if b.lockMode.Some? then b.lockMode else a.lockMode,
      if b.lockEndTime.Some? then b.lockEndTime else a.lockEndTime)
  }

  /** Two merges in a row are one merge of the combined patch, the later keys winning. */
  lemma MergeThen(p: Preferences, a: PrefsPatch, b: PrefsPatch)
    ensures Merge(Merge(p, a), b) == Merge(p, Then(a, b))
  {
    var q := Merge(Merge(p, a), b);
    var r := Merge(p, Then(a, b));
    assert q.hideReels == r.hideReels;
    assert q.hideStories == r.hideStories;
    assert q.hideSuggestions == r.hideSuggestions;
    assert q.lockMode == r.lockMode;
    assert q.lockEndTime == r.lockEndTime;
  }

  /** An empty patch changes nothing, and repeating a merge changes nothing more. */
  lemma MergeNoChangeAndRepeat(p: Preferences, a: PrefsPatch)
    ensures Merge(p, NoChange) == p
    ensures Merge(Merge(p, a), a) == Merge(p, a)
  {
  }

  /** `isLockModeActive`: the lock is on, has an end time, and the clock is strictly before it. */
  predicate LockActive(p: Preferences, now: int) {
    p.lockMode && p.lockEndTime.Some? && now < p.lockEndTime.value
  }

  /** With the lock off or no end time the lock is inactive whatever the clock; at or after
      the end time it is inactive although `lockMode` stays true; and a lock active at some
      moment was active at every earlier one. */
  lemma LockExpiry(p: Preferences, now: int, earlier: int)
    ensures !p.lockMode || p.lockEndTime.None? ==> !LockActive(p, now)
    ensures p.lockEndTime.Some? && now >= p.lockEndTime.value ==> !LockActive(p, now)
    ensures LockActive(p, now) && earlier <= now ==> LockActive(p, earlier)
  {
  }

  const HourMs := 60 * 60 * 1000

  /** The largest distance from the epoch a JavaScript `Date` can hold, in milliseconds. */
  const MaxTime := 8_640_000_000_000_000

  /** `new Date(now + hours * 60 * 60 * 1000).toISOString()` as milliseconds: `None` where it
      throws a RangeError, that is for NaN hours or a time beyond the `Date` range. */
  function LockEnd(hours: Option<int>, now: int): (r: Option<int>)
    ensures r.Some? ==> hours.Some? && r.value == now + hours.value * HourMs
    ensures r.Some? <==> hours.Some? && -MaxTime <= now + hours.value * HourMs <= MaxTime
  {
    match hours
    case None => None
    case Some(h) =>
      var t := now + h * HourMs;
      if -MaxTime <= t <= MaxTime then Some(t) else None
  }

  /** The per-user storage keys. */
  function PrefsKey(userId: string): string { PrefsPrefix + userId }

  function TimeKey(userId: string): string { TimePrefix + userId }

  lemma KeysDistinct(a: string, b: string)
    ensures PrefsKey(a) != TimeKey(b)
  {
    assert PrefsKey(a)[6] != TimeKey(b)[6];
  }

  function BoolText(b: bool): string {
    if b then "true" else "false"
  }

  function EndText(e: Option<int>): string {
    match e
    case None => "null"
    case Some(t) => IntToString(t)
  }

  /** `JSON.stringify(preferences)`: the five keys in the order the record has them. */
  function EncodePrefs(p: Preferences): (s: string)
    ensures |s| > 0
  {
    "{\"hideReels\":" + (BoolText(p.hideReels) + (",\"hideStories\":" + (BoolText(p.hideStories)
    + (",\"hideSuggestions\":" + (BoolText(p.hideSuggestions) + (",\"lockMode\":" + (BoolText(p.lockMode)
    + (",\"lockEndTime\":" + (EndText(p.lockEndTime) + "}")))))))))
  }

  function Expect(s: string, lit: string): Option<string> {
    if StartsWith(s, lit) then Some(s[|lit|..]) else None
  }

  function ReadBool(s: string): Option<(bool, string)> {
    if StartsWith(s, "true") then Some((true, s[4..]))
    else if StartsWith(s, "false") then Some((false, s[5..]))
    else None
  }

  /** A JSON integer: an optional '-', then digits without a superfluous leading zero. */
  predicate IsIntText(t: string) {
    || (|t| >= 1 && AllDigits(t) && (t[0] == '0' ==> |t| == 1))
    || (|t| >= 2 && t[0] == '-' && AllDigits(t[1..]) && t[1] != '0')
  }

  function IntTextValue(t: string): int
    requires IsIntText(t)
  {
    if t[0] == '-' then -(DecimalValue(t[1..]) as int) else DecimalValue(t)
  }

  /** The last member's value, `null` or an integer, and the closing brace. */
  function ReadEnd(s: string): Option<Option<int>> {
    if |s| == 0 || s[|s| - 1] != '}' then None
    else
      var t := s[..|s| - 1];
      if t == "null" then Some(None)
      else if IsIntText(t) then Some(Some(IntTextValue(t)))
      else None
  }

  /** `JSON.parse` of a stored preferences text; `None` where it throws. Only the layout
      `EncodePrefs` writes is read. */
  function DecodePrefs(s: string): Option<Preferences> {
    match Expect(s, "{\"hideReels\":")
    case None => None
    case Some(s1) =>
      match ReadBool(s1)
      case None => None
      case Some(v1) =>
        match Expect(v1.1, ",\"hideStories\":")
        case None => None
        case Some(s2) =>
          match ReadBool(s2)
          case None => None
          case Some(v2) =>
            match Expect(v2.1, ",\"hideSuggestions\":")
            case None => None
            case Some(s3) =>
              match ReadBool(s3)
              case None => None
              case Some(v3) =>
                match Expect(v3.1, ",\"lockMode\":")
                case None => None
                case Some(s4) =>
                  match ReadBool(s4)
                  case None => None
                  case Some(v4) =>
                    match Expect(v4.1, ",\"lockEndTime\":")
                    case None => None
                    case Some(s5) =>
                      match ReadEnd(s5)
                      case None => None
                      case Some(e) => Some(Preferences(v1.0, v2.0, v3.0, v4.0, e))
  }

  lemma ExpectLiteral(lit: string, rest: string)
    ensures Expect(lit + rest, lit) == Some(rest)
  {
    assert (lit + rest)[..|lit|] == lit;
    assert (lit + rest)[|lit|..] == rest;
  }

  lemma ReadBoolText(b: bool, rest: string)
    ensures ReadBool(BoolText(b) + rest) == Some((b, rest))
  {
    var s := BoolText(b) + rest;
    assert s[..|BoolText(b)|] == BoolText(b);
    if b {
      assert s[4..] == rest;
    } else {
      assert s[..4] != "true" by { assert s[0] == 'f'; }
      assert s[5..] == rest;
    }
  }

  /** The text of an integer is a JSON integer denoting it, and is not `null`. */
  lemma IntTextOf(i: int)
    ensures IsIntText(IntToString(i)) && IntTextValue(IntToString(i)) == i
    ensures IntToString(i) != "null"
  {
    var t := IntToString(i);
    if i < 0 {
      NatToStringValue(-i);
      assert t[1..] == NatToString(-i);
    } else {
      NatToStringValue(i);
    }
    assert t[0] == '-' || IsDigit(t[0]);
  }

  lemma ReadEndText(e: Option<int>)
    ensures ReadEnd(EndText(e) + "}") == Some(e)
  {
    var s := EndText(e) + "}";
    assert s[..|s| - 1] == EndText(e);
    if e.Some? {
      IntTextOf(e.value);
    }
  }

  /** Stored preferences read back as written. */
  lemma {:induction false} PrefsRoundTrip(p: Preferences)
    ensures DecodePrefs(EncodePrefs(p)) == Some(p)
  {
    var tail5 := EndText(p.lockEndTime) + "}";
    var s5 := ",\"lockEndTime\":" + tail5;
    var tail4 := BoolText(p.lockMode) + s5;
    var s4 := ",\"lockMode\":" + tail4;
    var tail3 := BoolText(p.hideSuggestions) + s4;
    var s3 := ",\"hideSuggestions\":" + tail3;
    var tail2 := BoolText(p.hideStories) + s3;
    var s2 := ",\"hideStories\":" + tail2;
    var tail1 := BoolText(p.hideReels) + s2;
    ExpectLiteral("{\"hideReels\":", tail1);
    ReadBoolText(p.hideReels, s2);
    ExpectLiteral(",\"hideStories\":", tail2);
    ReadBoolText(p.hideStories, s3);
    ExpectLiteral(",\"hideSuggestions\":", tail3);
    ReadBoolText(p.hideSuggestions, s4);
    ExpectLiteral(",\"lockMode\":", tail4);
    ReadBoolText(p.lockMode, s5);
    ExpectLiteral(",\"lockEndTime\":", tail5);
    ReadEndText(p.lockEndTime);
  }

  /** A JavaScript number that is an integer or NaN (`None`), as `toString` prints it. */
  function NumberText(n: Option<int>): string {
    match n
    case None => "NaN"
    case Some(i) => IntToString(i)
  }

  /** `parseInt(n.toString())` gives `n` back, NaN included. */
  lemma NumberTextReads(n: Option<int>)
    ensures ParseInt(NumberText(n)) == n
    ensures NumberText(n) != ""
  {
    if n.Some? {
      ParseIntRoundTrip(n.value);
    } else {
      assert !IsJsSpace('N');
      TrimStartKeeps("NaN");
      assert LeadingDigits("NaN") == 0;
    }
  }

  /** `timeSaved + minutes`: NaN stays NaN. */
  function AddMinutes(t: Option<int>, minutes: int): (r: Option<int>)
    ensures t.Some? <==> r.Some?
    ensures t.Some? ==> r.value == t.value + minutes
  {
    match t
    case None => None
    case Some(v) => Some(v + minutes)
  }

  /** The state the load effect leaves for a user: each stored key that is present and
      non-empty replaces its half of the state; `None` where `JSON.parse` throws, which
      happens before the time is read. */
  function Loaded(items: map<string, string>, userId: string, p: Preferences, t: Option<int>)
    : (r: Option<(Preferences, Option<int>)>)
    ensures r.None? <==> PrefsKey(userId) in items && items[PrefsKey(userId)] != ""
                         && DecodePrefs(items[PrefsKey(userId)]).None?
    ensures r.Some? && (PrefsKey(userId) !in items || items[PrefsKey(userId)] == "") ==> r.value.0 == p
    ensures r.Some? && (TimeKey(userId) !in items || items[TimeKey(userId)] == "") ==> r.value.1 == t
  {
    var savedPrefs := if PrefsKey(userId) in items then items[PrefsKey(userId)] else "";
    var savedTime := if TimeKey(userId) in items then items[TimeKey(userId)] else "";
    if savedPrefs != "" && DecodePrefs(savedPrefs).None? then None
    else
      var p' := if savedPrefs != "" then DecodePrefs(savedPrefs).value else p;
      var t' := if savedTime != "" then ParseInt(savedTime) else t;
      Some((p', t'))
  }

  /** What the store persisted for a user is what the next load for that user restores,
      whatever the state in memory at that moment. */
  lemma PersistedStateReloads(items: map<string, string>, userId: string, p: Preferences, t: Option<int>,
                              p0: Preferences, t0: Option<int>)
    ensures Loaded(items[PrefsKey(userId) := EncodePrefs(p)][TimeKey(userId) := NumberText(t)], userId, p0, t0)
            == Some((p, t))
  {
    KeysDistinct(userId, userId);
    PrefsRoundTrip(p);
    NumberTextReads(t);
  }

  class UserProvider {
    const auth: AuthProvider
    var preferences: Preferences
    var timeSaved: Option<int>

    /** The initial state: the default preferences and no time saved. */
    constructor (auth: AuthProvider)
      ensures this.auth == auth && preferences == InitialPreferences && timeSaved == Some(0)
    {
      this.auth := auth;
      preferences := InitialPreferences;
      timeSaved := Some(0);
    }

    /** The effect run when the signed-in user changes: with a user, the stored preferences
        and time replace the state in memory, each only when its key holds a non-empty text.
        It returns whether `JSON.parse` threw, in which case nothing changes. */
    method LoadForUser() returns (threw: bool)
      modifies this
      ensures auth.user.None? ==> !threw && preferences == old(preferences) && timeSaved == old(timeSaved)
      ensures auth.user.Some? ==>
        match Loaded(auth.storage.items, auth.user.value.id, old(preferences), old(timeSaved))
        case None => threw && preferences == old(preferences) && timeSaved == old(timeSaved)
        case Some(state) => !threw && preferences == state.0 && timeSaved == state.1
    {
      threw := false;
      if auth.user.Some? {
        var id := auth.user.value.id;
        var savedPrefs := auth.storage.GetItem(PrefsKey(id));
        var savedTime := auth.storage.GetItem(TimeKey(id));
        if Truthy(savedPrefs) {
          var parsed := DecodePrefs(savedPrefs.value);
          if parsed.None? {
            return true;
          }
          preferences := parsed.value;
        }
        if Truthy(savedTime) {
          timeSaved := ParseInt(savedTime.value);
        }
      }
    }

    /** `updatePreferences(newPrefs)`: the preferences become the merge, which is written
        under the user's key when a user is signed in; without one the storage is untouched. */
    method UpdatePreferences(newPrefs: PrefsPatch)
      modifies this, auth.storage
      ensures preferences == Merge(old(preferences), newPrefs) && timeSaved == old(timeSaved)
      ensures auth.user.Some? ==>
        auth.storage.items == old(auth.storage.items)[PrefsKey(auth.user.value.id) := EncodePrefs(preferences)]
      ensures auth.user.None? ==> auth.storage.items == old(auth.storage.items)
    {
      var updatedPrefs := Merge(preferences, newPrefs);
      preferences := updatedPrefs;
      if auth.user.Some? {
        auth.storage.SetItem(PrefsKey(auth.user.value.id), EncodePrefs(updatedPrefs));
      }
    }

    /** `addTimeSaved(minutes)`: the total grows by `minutes` and is written as text under
        the user's key when a user is signed in. */
    method AddTimeSaved(minutes: int)
      modifies this, auth.storage
      ensures timeSaved == AddMinutes(old(timeSaved), minutes) && preferences == old(preferences)
      ensures auth.user.Some? ==>
        auth.storage.items == old(auth.storage.items)[TimeKey(auth.user.value.id) := NumberText(timeSaved)]
      ensures auth.user.None? ==> auth.storage.items == old(auth.storage.items)
    {
      var newTime := AddMinutes(timeSaved, minutes);
      timeSaved := newTime;
      if auth.user.Some? {
        auth.storage.SetItem(TimeKey(auth.user.value.id), NumberText(newTime));
      }
    }

    /** `enableLockMode(hours)`: the lock is switched on until `now` plus the hours, through
        `updatePreferences`, so the hide flags stay as they are. No existing lock is checked.
        It returns whether `toISOString` threw, in which case nothing changes. */
    method EnableLockMode(hours: Option<int>, now: int) returns (threw: bool)
      modifies this, auth.storage
      ensures threw <==> LockEnd(hours, now).None?
      ensures threw ==> preferences == old(preferences) && auth.storage.items == old(auth.storage.items)
      ensures !threw ==>
        preferences == old(preferences).(lockMode := true, lockEndTime := LockEnd(hours, now))
      ensures !threw && auth.user.Some? ==>
        auth.storage.items == old(auth.storage.items)[PrefsKey(auth.user.value.id) := EncodePrefs(preferences)]
      ensures !threw && auth.user.None? ==> auth.storage.items == old(auth.storage.items)
      ensures timeSaved == old(timeSaved)
    {
      var lockEndTime := LockEnd(hours, now);
      if lockEndTime.None? {
        return true;
      }
      threw := false;
      UpdatePreferences(PrefsPatch(None, None, None, Some(true), Some(lockEndTime)));
    }

    /** `isLockModeActive()` at time `now`. */
    function IsLockModeActive(now: int): (r: bool)
      reads this
      ensures r ==> preferences.lockMode && preferences.lockEndTime.Some?
      ensures r <==> LockActive(preferences, now)
    {
      LockActive(preferences, now)
    }
  }

  /** A lock just enabled for `h` hours is active now exactly when `h` is positive: zero or
      negative hours set an end time that has already passed. */
  lemma {:induction false} EnabledLockActiveIff(p: Preferences, h: int, now: int)
    requires LockEnd(Some(h), now).Some?
    ensures LockActive(p.(lockMode := true, lockEndTime := LockEnd(Some(h), now)), now) <==> h > 0
  {
    var end := now + h * HourMs;
    if h > 0 {
      assert h * HourMs >= HourMs;
    } else {
      assert h * HourMs <= 0;
    }
  }
}
