/** The profile page (frontend/src/pages/Profile.js): the saved time in days, hours or
    minutes, the initials, the derived counters, the subscription badge and the referral
    code. The page reads the user object the server sent, whose keys are in snake case.

    `Math.floor(t * 0.15)` is taken as the exact `15 * t / 100` and
    `Math.floor(t / 1440 * 100)` as `100 * t / 1440`; the model assumes the floating-point
    rounding never moves a result across an integer. */
module ProfilePage {
  import opened Wrappers
  import opened Text
  import opened Models
  import opened LocalStorage

  /** `formatTime(minutes)` of the profile: whole days and the hours left over from one day
      on, hours and minutes from one hour on, minutes below. */
  function FormatDuration(minutes: int): string {
    var hours := minutes / 60;
    var days := hours / 24;
    if days > 0 then IntToString(days) + "j " + IntToString(JsRem(hours, 24)) + "h"
    else if hours > 0 then IntToString(hours) + "h " + IntToString(JsRem(minutes, 60)) + "min"
    else IntToString(minutes) + "min"
  }

  /** Whole days of whole hours are whole days of minutes. */
  lemma DaysOfMinutes(minutes: int)
    ensures minutes / 60 / 24 == minutes / 1440
  {
    var h := minutes / 60;
    var d := h / 24;
    assert 60 * h <= minutes < 60 * h + 60;
    assert 24 * d <= h < 24 * d + 24;
    assert 1440 * d <= minutes < 1440 * d + 1440;
  }

  /** The three forms and where each begins: at 1440 minutes the days, at 60 the hours. */
  lemma FormatDurationRegimes(minutes: int)
    ensures minutes >= 1440 ==>
      FormatDuration(minutes) == IntToString(minutes / 1440) + "j " + IntToString(minutes / 60 % 24) + "h"
    ensures 60 <= minutes < 1440 ==>
      FormatDuration(minutes) == IntToString(minutes / 60) + "h " + IntToString(minutes % 60) + "min"
    ensures minutes < 60 ==> FormatDuration(minutes) == IntToString(minutes) + "min"
  {
    DaysOfMinutes(minutes);
  }

  /** In days the display drops the minutes: the days and hours shown account for the time
      saved to within the hour. */
  lemma DaysFormDropsUnderAnHour(minutes: int)
    requires minutes >= 1440
    ensures var d := minutes / 1440; var h := minutes / 60 % 24;
      0 <= h < 24 && 1440 * d + 60 * h <= minutes < 1440 * d + 60 * h + 60
  {
    DaysOfMinutes(minutes);
    var hours := minutes / 60;
    assert hours == 24 * (hours / 24) + hours % 24;
  }

  /** The first character of every non-empty piece, in order. */
  function FirstChars(pieces: seq<string>): (s: string)
    ensures |s| <= |pieces|
    decreases |pieces|
  {
    if pieces == [] then ""
    else
      var last := pieces[|pieces| - 1];
      FirstChars(pieces[..|pieces| - 1]) + (if last == "" then "" else [last[0]])
  }

  /** `getInitials(name)`: the upper-cased first letter of every word, or "U" when the name is
      missing or has no word. */
  function Initials(name: Option<string>): (r: string)
    ensures r != ""
    ensures forall i :: 0 <= i < |r| ==> !IsLowerAscii(r[i])
    ensures name.None? ==> r == "U"
  {
    match name
    case None => "U"
    case Some(n) =>
      var initials := Upper(FirstChars(Split(n, ' ')));
      if initials == "" then "U" else initials
  }

  /** A first and a last name give their two capitals ("Utilisateur Demo" gives "UD"); an
      empty name gives "U". */
  lemma TwoWordInitials(first: string, last: string)
    requires first != "" && last != "" && ' ' !in first && ' ' !in last
    ensures Initials(Some(first + [' '] + last)) == Upper([first[0], last[0]])
    ensures Initials(Some("")) == "U"
  {
    SplitTwo(first, last, ' ');
    var pieces := [first, last];
    assert pieces[..1] == [first];
    assert [first][..0] == [];
    assert FirstChars(pieces) == [first[0], last[0]];
    assert Split("", ' ') == [""];
    assert [""][..0] == [];
    assert FirstChars([""]) == "";
  }

  /** `Math.floor(timeSaved / 15)`: one protected session per quarter hour. */
  function SessionsProtected(timeSaved: int): (n: int)
    ensures 15 * n <= timeSaved < 15 * n + 15
  {
    timeSaved / 15
  }

  /** `Math.floor(timeSaved * 0.15)`, the "this week" figure. */
  function WeeklyEstimate(timeSaved: int): (n: int)
    ensures 100 * n <= 15 * timeSaved < 100 * n + 100
  {
    15 * timeSaved / 100
  }

  /** The one-day achievement is unlocked from 1440 minutes on. */
  predicate AchievementUnlocked(timeSaved: int) {
    timeSaved >= 1440
  }

  /** `Math.floor(timeSaved / 1440 * 100)`, the progress shown while the achievement is locked. */
  function AchievementProgress(timeSaved: int): (p: int)
    ensures !AchievementUnlocked(timeSaved) ==> p < 100
    ensures timeSaved >= 0 ==> p >= 0
    ensures 1440 * p <= 100 * timeSaved < 1440 * p + 1440
  {
    100 * timeSaved / 1440
  }

  /** The badge next to the name. */
  datatype Badge = SuperICare | Gratuit

  function SubscriptionOf(user: Option<UserResponse>): Option<string> {
    match user
    case None => None
    case Some(u) => UserJsonText(u, "subscription")
  }

  /** "Super iCare" exactly for a premium subscription; "Gratuit" for anything else, a
      missing user included. */
  function SubscriptionBadge(user: Option<UserResponse>): (b: Badge)
    ensures b == SuperICare <==> user.Some? && user.value.subscription == "premium"
  {
    if SubscriptionOf(user) == Some("premium") then SuperICare else Gratuit
  }

  /** The upgrade button shows exactly for a free subscription. */
  function ShowUpgrade(user: Option<UserResponse>): (show: bool)
    ensures show <==> user.Some? && user.value.subscription == "free"
  {
    SubscriptionOf(user) == Some("free")
  }

  /** The two can never show together. */
  lemma BadgeAndUpgradeExclusive(user: Option<UserResponse>)
    ensures !(SubscriptionBadge(user) == SuperICare && ShowUpgrade(user))
  {
  }

  const DemoReferral := "DEMO2024"

  /** `user?.referralCode || 'DEMO2024'` as written: the page looks the code up under the
      camel-case key, which the server's user object does not have. */
  function ReferralCodeAsWritten(user: Option<UserResponse>): string {
    match user
    case None => DemoReferral
    case Some(u) => OrElseText(UserJsonText(u, "referralCode"), DemoReferral)
  }

  function OrElseText(v: Option<string>, fallback: string): string {
    if Truthy(v) then v.value else fallback
  }

  /** As written, every user is shown and copies the demo code, however real their own. */
  lemma ReferralAlwaysDemo(u: UserResponse)
    ensures ReferralCodeAsWritten(Some(u)) == DemoReferral
    ensures |u.referralCode| == 8 && u.referralCode != DemoReferral ==>
      ReferralCodeAsWritten(Some(u)) != u.referralCode
  {
    assert "referralCode" !in UserJsonKeys;
  }

  /** The code the page evidently means to show: the user's own `referral_code`, the demo
      code only when there is none. */
  function ReferralCodeShown(user: Option<UserResponse>): (code: string)
    ensures user.Some? && user.value.referralCode != "" ==> code == user.value.referralCode
    ensures user.None? || user.value.referralCode == "" ==> code == DemoReferral
  {
    match user
    case None => DemoReferral
    case Some(u) => OrElseText(UserJsonText(u, "referral_code"), DemoReferral)
  }

  /** A user fresh from registration sees its own eight-character code. */
  lemma RegisteredUserSeesOwnCode(u: UserResponse)
    requires |u.referralCode| == 8
    ensures ReferralCodeShown(Some(u)) == u.referralCode
  {
  }
}
