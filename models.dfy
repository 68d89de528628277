/** The records of the backend (backend/models.py): object ids and their validation, the
    user and preference records with their defaults, the request and response bodies. */
module Models {
  import opened Wrappers
  import opened Text

  type Byte = x: int | 0 <= x < 256

  /** A MongoDB ObjectId: twelve bytes. */
  type ObjectId = s: seq<Byte> | |s| == 12 witness [0, 0, 0, 0, 0, 0, 0, 0, 0, 0, 0, 0]

  predicate AllHex(s: string) { forall i :: 0 <= i < |s| ==> IsHexDigit(s[i]) }

  predicate IsUpperHexChar(c: char) { IsDigit(c) || 'A' <= c <= 'F' }

  predicate IsLowerHexChar(c: char) { IsDigit(c) || 'a' <= c <= 'f' }

  function LowerHexDigit(d: nat): (c: char)
    requires d < 16
    ensures IsLowerHexChar(c) && IsHexDigit(c) && HexValue(c) == d
  {
    if d < 10 then DigitChar(d) else (('a' as int) + d - 10) as char
  }

  function BytesToHex(bs: seq<Byte>): (s: string)
    ensures |s| == 2 * |bs|
    ensures forall i :: 0 <= i < |s| ==> IsLowerHexChar(s[i]) && IsHexDigit(s[i])
  {
    if bs == [] then [] else [LowerHexDigit(bs[0] / 16), LowerHexDigit(bs[0] % 16)] + BytesToHex(bs[1..])
  }

  function HexToBytes(s: string): (bs: seq<Byte>)
    requires |s| % 2 == 0 && AllHex(s)
    ensures |bs| == |s| / 2
    decreases |s|
  {
    if s == [] then [] else [HexValue(s[0]) * 16 + HexValue(s[1])] + HexToBytes(s[2..])
  }

  lemma {:induction false} HexRoundTrip(bs: seq<Byte>)
    ensures HexToBytes(BytesToHex(bs)) == bs
  {
    if bs != [] {
      HexRoundTrip(bs[1..]);
      assert BytesToHex(bs)[2..] == BytesToHex(bs[1..]);
    }
  }

  /** `str(oid)`: twenty-four lower-case hexadecimal digits. */
  function IdString(oid: ObjectId): (s: string)
    ensures |s| == 24 && AllHex(s)
    ensures forall i :: 0 <= i < |s| ==> IsLowerHexChar(s[i])
  {
    BytesToHex(oid)
  }

  /** `ObjectId(s)` for a text: it succeeds exactly on twenty-four hexadecimal digits, in
      either case; the caller sees bson's InvalidId otherwise. */
  function ParseObjectId(s: string): (r: Option<ObjectId>)
    ensures r.Some? <==> |s| == 24 && AllHex(s)
  {
    if |s| == 24 && AllHex(s) then Some(HexToBytes(s)) else None
  }

  /** The text form of an id is read back as the same id. */
  lemma IdStringRoundTrip(oid: ObjectId)
    ensures ParseObjectId(IdString(oid)) == Some(oid)
  {
    HexRoundTrip(oid);
  }

  /** Two ids with the same text are the same id. */
  lemma IdStringInjective(a: ObjectId, b: ObjectId)
    requires IdString(a) == IdString(b)
    ensures a == b
  {
    IdStringRoundTrip(a);
    IdStringRoundTrip(b);
  }

  /** The kinds of value `PyObjectId.validate` can be handed. */
  datatype IdCandidate = IdText(text: string) | IdBytes(bytes: seq<Byte>) | IdObject(oid: ObjectId) | IdOther

  const InvalidObjectId := "Invalid objectid"

  /** `PyObjectId.validate`: an ObjectId, twelve raw bytes or a twenty-four-digit hexadecimal
      text is accepted and converted; anything else raises ValueError("Invalid objectid"). */
  function Validate(v: IdCandidate): (r: Result<ObjectId, string>)
    ensures r.Failure? ==> r.error == InvalidObjectId
    ensures v.IdObject? ==> r == Success(v.oid)
    ensures v.IdText? ==> (r.Success? <==> |v.text| == 24 && AllHex(v.text))
    ensures v.IdText? && r.Success? ==> IdString(r.value) == Lower24(v.text)
    ensures v.IdBytes? ==> (r.Success? <==> |v.bytes| == 12)
    ensures v.IdBytes? && r.Success? ==> r.value == v.bytes
    ensures v.IdOther? ==> r.Failure?
  {
    match v
    case IdObject(o) => Success(o)
    case IdBytes(b) => if |b| == 12 then Success(b) else Failure(InvalidObjectId)
    case IdText(t) =>
      if |t| == 24 && AllHex(t) then
        LowerAfterParse(t);
        Success(HexToBytes(t))
      else Failure(InvalidObjectId)
    case IdOther => Failure(InvalidObjectId)
  }

  function LowerHexChar(c: char): char
    requires IsHexDigit(c)
  {
    LowerHexDigit(HexValue(c))
  }

  /** A hexadecimal text with its letters in lower case. */
  function Lower24(t: string): string
    requires AllHex(t)
  {
    seq(|t|, i requires 0 <= i < |t| => LowerHexChar(t[i]))
  }

  /** A byte's two hexadecimal digits are its quotient and remainder by sixteen. */
  lemma ByteDigits(hi: nat, lo: nat)
    requires hi < 16 && lo < 16
    ensures (hi * 16 + lo) / 16 == hi && (hi * 16 + lo) % 16 == lo
  {
  }

  lemma {:induction false} LowerAfterParse(t: string)
    requires |t| % 2 == 0 && AllHex(t)
    ensures BytesToHex(HexToBytes(t)) == Lower24(t)
    decreases |t|
  {
    if t != [] {
      var rest := t[2..];
      LowerAfterParse(rest);
      var hi := HexValue(t[0]);
      var lo := HexValue(t[1]);
      ByteDigits(hi, lo);
      var b: Byte := hi * 16 + lo;
      assert HexToBytes(t) == [b] + HexToBytes(rest);
      assert BytesToHex(HexToBytes(t)) == [LowerHexDigit(hi), LowerHexDigit(lo)] + BytesToHex(HexToBytes(rest));
      LowerFirstPair(t);
    }
  }

  lemma LowerFirstPair(t: string)
    requires |t| >= 2 && AllHex(t)
    ensures Lower24(t) == [LowerHexChar(t[0]), LowerHexChar(t[1])] + Lower24(t[2..])
  {
    var l := Lower24(t);
    var r := [LowerHexChar(t[0]), LowerHexChar(t[1])] + Lower24(t[2..]);
    assert |l| == |r|;
    forall i | 0 <= i < |l|
      ensures l[i] == r[i]
    {
      if i >= 2 {
        assert r[i] == Lower24(t[2..])[i - 2];
      }
    }
  }

  /** `str(uuid.uuid4())`: 8-4-4-4-12 lower-case hexadecimal digits, version 4. */
  predicate IsUuid4Text(u: string) {
    && |u| == 36
    && (forall i :: 0 <= i < 36 && (i == 8 || i == 13 || i == 18 || i == 23) ==> u[i] == '-')
    && (forall i :: 0 <= i < 36 && i != 8 && i != 13 && i != 18 && i != 23 ==> IsLowerHexChar(u[i]))
    && u[14] == '4'
  }

  /** `str(uuid.uuid4())[:8].upper()`: eight upper-case hexadecimal digits. */
  function ReferralCode(uuidText: string): (code: string)
    requires IsUuid4Text(uuidText)
    ensures |code| == 8
    ensures forall i :: 0 <= i < 8 ==> IsUpperHexChar(code[i])
  {
    Upper(uuidText[..8])
  }

  /** The `User` record (timestamps are integer milliseconds). */
  datatype User = User(
    id: ObjectId, name: string, email: string, password: string,
    avatar: Option<string>, bio: Option<string>,
    subscription: string, timeSaved: int, referralCode: string,
    createdAt: int, updatedAt: int)

  /** `User(name=…, email=…, password=…, bio=…)`: every other field takes its default — no
      avatar, the free subscription, no time saved, a fresh referral code, both timestamps now. */
  function NewUser(id: ObjectId, name: string, email: string, password: string,
                   bio: Option<string>, uuidText: string, now: int): (u: User)
    requires IsUuid4Text(uuidText)
    ensures u.id == id && u.name == name && u.email == email && u.password == password && u.bio == bio
    ensures u.avatar.None? && u.subscription == "free" && u.timeSaved == 0
    ensures |u.referralCode| == 8 && u.createdAt == now && u.updatedAt == now
  {
    User(id, name, email, password, None, bio, "free", 0, ReferralCode(uuidText), now, now)
  }

  /** The `UserPreferences` record. */
  datatype UserPreferences = UserPreferences(
    userId: ObjectId, hideReels: bool, hideStories: bool, hideSuggestions: bool,
    lockMode: bool, lockEndTime: Option<int>, updatedAt: int)

  /** `UserPreferences(user_id=…)`: reels and suggestions hidden, stories shown, no lock. */
  function DefaultUserPreferences(userId: ObjectId, now: int): (p: UserPreferences)
    ensures p.userId == userId && p.updatedAt == now
    ensures p.hideReels && !p.hideStories && p.hideSuggestions
    ensures !p.lockMode && p.lockEndTime.None?
  {
    UserPreferences(userId, true, false, true, false, None, now)
  }

  /** `PreferencesUpdate`: every field optional; `None` means "leave unchanged". */
  datatype PreferencesUpdate = PreferencesUpdate(
    hideReels: Option<bool>, hideStories: Option<bool>, hideSuggestions: Option<bool>,
    lockMode: Option<bool>, lockEndTime: Option<int>)

  const EmptyUpdate := PreferencesUpdate(None, None, None, None, None)

  datatype PreferencesResponse = PreferencesResponse(
    hideReels: bool, hideStories: bool, hideSuggestions: bool,
    lockMode: bool, lockEndTime: Option<int>)

  /** `TimeSavedCreate`: an unconstrained number of minutes and a platform tag. */
  datatype TimeSavedCreate = TimeSavedCreate(minutes: int, platform: string)

  /** The body as parsed when the platform field may be absent: it defaults to "instagram". */
  function TimeSavedBody(minutes: int, platform: Option<string>): (b: TimeSavedCreate)
    ensures b.minutes == minutes
    ensures platform.None? ==> b.platform == "instagram"
    ensures platform.Some? ==> b.platform == platform.value
  {
    TimeSavedCreate(minutes, platform.GetOr("instagram"))
  }

  /** `StatsResponse`: exactly four integer counters. */
  datatype StatsResponse = StatsResponse(
    timeSaved: int, sessionsCount: int, weeklyTimeSaved: int, totalSessions: int)

  datatype UserCreate = UserCreate(name: string, email: string, password: string)

  datatype UserLogin = UserLogin(email: string, password: string)

  /** `UserResponse`, the user as the client receives it. */
  datatype UserResponse = UserResponse(
    id: string, name: string, email: string, avatar: Option<string>, bio: Option<string>,
    subscription: string, timeSaved: int, referralCode: string, createdAt: int)

  datatype AuthResponse = AuthResponse(
    success: bool, user: Option<UserResponse>, token: Option<string>, message: Option<string>)

  /** A text-valued member of the JSON object the server sends for a `UserResponse`, looked up
      by its key. The keys are the field names as declared, in snake case; `None` is a missing
      key or a null. */
  function UserJsonText(u: UserResponse, key: string): (r: Option<string>)
    ensures key == "referral_code" ==> r == Some(u.referralCode)
    ensures key == "subscription" ==> r == Some(u.subscription)
    ensures key == "name" ==> r == Some(u.name)
    ensures key == "id" ==> r == Some(u.id)
    ensures key !in UserJsonKeys ==> r.None?
  {
    if key == "id" then Some(u.id)
    else if key == "name" then Some(u.name)
    else if key == "email" then Some(u.email)
    else if key == "avatar" then u.avatar
    else if key == "bio" then u.bio
    else if key == "subscription" then Some(u.subscription)
    else if key == "referral_code" then Some(u.referralCode)
    else None
  }

  const UserJsonKeys: set<string> :=
    {"id", "name", "email", "avatar", "bio", "subscription", "time_saved", "referral_code", "created_at"}
}
