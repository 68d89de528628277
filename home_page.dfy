/** The home page (frontend/src/pages/Home.js): the greeting with the first name, the time
    saved in hours and minutes, the lock banner and the three protection indicators. */
module HomePage {
  import opened Wrappers
  import opened Text
  import opened Models
  import opened UserContext
  import opened InstagramSimulator
  import ProfilePage

  /** `formatTime(minutes)` of the home page: hours and minutes from one hour on, minutes
      below. There is no day unit. */
  function FormatTime(minutes: int): string {
    var hours := minutes / 60;
    var mins := JsRem(minutes, 60);
    if hours > 0 then IntToString(hours) + "h " + IntToString(mins) + "min"
    else IntToString(mins) + "min"
  }

  /** The displayed total: a NaN total prints "NaNmin", since NaN is never above 0. */
  function TimeSavedText(timeSaved: Option<int>): (s: string)
    ensures timeSaved.None? ==> s == "NaNmin"
  {
    match timeSaved
    case None => "NaNmin"
    case Some(m) => FormatTime(m)
  }

  /** The two forms, with the hour count growing past 24: 1500 minutes read "25h 0min". */
  lemma FormatTimeForms(minutes: int)
    ensures minutes >= 60 ==>
      FormatTime(minutes) == IntToString(minutes / 60) + "h " + IntToString(minutes % 60) + "min"
    ensures 0 <= minutes < 60 ==> FormatTime(minutes) == IntToString(minutes) + "min"
    ensures FormatTime(1500) == "25h 0min"
  {
    assert IntToString(25) == "25" by {
      assert NatToString(25) == NatToString(2) + [DigitChar(5)];
    }
    assert IntToString(0) == "0";
  }

  /** A displayed total read back: the hours before the `h`, the minutes after it. */
  function ReadTime(text: string): Option<int> {
    var parts := Split(text, 'h');
    if |parts| == 1 then ParseInt(parts[0])
    else if |parts| == 2 then
      match (ParseInt(parts[0]), ParseInt(parts[1]))
      case (Some(h), Some(m)) => Some(h * 60 + m)
      case _ => None
    else None
  }

  lemma NoHInNumber(n: nat)
    ensures 'h' !in NatToString(n)
  {
  }

  /** The minutes form read back. */
  lemma ReadMinutesForm(r: nat)
    ensures ReadTime(NatToString(r) + "min") == Some(r as int)
  {
    var mins := NatToString(r) + "min";
    NoHInNumber(r);
    assert 'h' !in mins;
    ParseNatWithin("", r, "min");
    assert "" + NatToString(r) + "min" == mins;
  }

  /** Two texts without an `h`, joined by one, read back as hours and minutes. */
  lemma ReadTwoParts(text: string, hours: string, tail: string, h: int, r: int)
    requires Split(text, 'h') == [hours, tail]
    requires ParseInt(hours) == Some(h) && ParseInt(tail) == Some(r)
    ensures ReadTime(text) == Some(h * 60 + r)
  {
    var parts := Split(text, 'h');
    assert |parts| == 2;
    assert ParseInt(parts[0]) == Some(h);
    assert ParseInt(parts[1]) == Some(r);
  }

  /** The minutes after the `h`, with the space before them and the unit after them. */
  lemma ReadMinutesTail(r: nat)
    ensures ParseInt(" " + NatToString(r) + "min") == Some(r as int)
    ensures 'h' !in " " + NatToString(r) + "min"
  {
    NoHInNumber(r);
    ParseNatWithin(" ", r, "min");
  }

  /** The hours before the `h`. */
  lemma ReadHours(h: nat)
    ensures ParseInt(NatToString(h)) == Some(h as int)
    ensures 'h' !in NatToString(h)
  {
    NoHInNumber(h);
    ParseNatWithin("", h, "");
    assert "" + NatToString(h) + "" == NatToString(h);
  }

  /** The text of a non-negative total, in the shape the read-back splits. */
  lemma FormatTimeShape(minutes: int)
    requires minutes >= 0
    ensures minutes >= 60 ==>
      FormatTime(minutes) == NatToString(minutes / 60) + ['h'] + (" " + NatToString(minutes % 60) + "min")
    ensures minutes < 60 ==> FormatTime(minutes) == NatToString(minutes) + "min"
  {
    var h := minutes / 60;
    var r := minutes % 60;
    assert JsRem(minutes, 60) == r;
    assert IntToString(h) == NatToString(h);
    assert IntToString(r) == NatToString(r);
    if minutes >= 60 {
      var hours := NatToString(h);
      var mins := NatToString(r);
      assert hours + "h " + mins + "min" == hours + ['h'] + (" " + mins + "min");
    }
  }

  /** Nothing of a non-negative total is lost on the home page: the text reads back as the
      same number of minutes. */
  lemma FormatTimeReadsBack(minutes: int)
    requires minutes >= 0
    ensures ReadTime(FormatTime(minutes)) == Some(minutes)
  {
    var h := minutes / 60;
    var r := minutes % 60;
    assert h * 60 + r == minutes;
    FormatTimeShape(minutes);
    if minutes >= 60 {
      ReadHours(h);
      ReadMinutesTail(r);
      var hours := NatToString(h);
      var tail := " " + NatToString(r) + "min";
      SplitTwo(hours, tail, 'h');
      ReadTwoParts(FormatTime(minutes), hours, tail, h, r);
    } else {
      ReadMinutesForm(minutes);
    }
  }

  /** Below a day the home page and the profile show the same text; from a day on they
      differ, 1500 minutes being "25h 0min" here and "1j 1h" on the profile. */
  lemma AgreesWithProfileBelowADay(minutes: int)
    ensures 0 <= minutes < 1440 ==> FormatTime(minutes) == ProfilePage.FormatDuration(minutes)
    ensures FormatTime(1500) != ProfilePage.FormatDuration(1500)
  {
    ProfilePage.DaysOfMinutes(minutes);
    ProfilePage.DaysOfMinutes(1500);
    FormatTimeForms(1500);
    assert ProfilePage.FormatDuration(1500)[1] == 'j';
  }

  /** `user?.name?.split(' ')[0]`: the name up to its first space; nothing without a user. */
  function FirstName(user: Option<UserResponse>): (first: Option<string>)
    ensures user.None? <==> first.None?
    ensures first.Some? ==> ' ' !in first.value && first.value <= user.value.name
    ensures first.Some? && ' ' in user.value.name ==> user.value.name[|first.value|] == ' '
  {
    match user
    case None => None
    case Some(u) =>
      FirstPiece(u.name, ' ');
      Some(Split(u.name, ' ')[0])
  }

  /** "Bonjour", the first name (nothing for a missing user) and the wave. */
  function Greeting(user: Option<UserResponse>): (s: string)
    ensures StartsWith(s, "Bonjour ")
  {
    var shown := match FirstName(user) case None => "" case Some(f) => f;
    "Bonjour " + shown + " \U{1F44B}"
  }

  /** A first and a last name greet by the first one. */
  lemma GreetsByFirstName(u: UserResponse, first: string, last: string)
    requires u.name == first + [' '] + last && ' ' !in first && ' ' !in last
    ensures FirstName(Some(u)) == Some(first)
  {
    SplitTwo(first, last, ' ');
  }

  /** The lock banner and the time it shows: present exactly while the lock is active. */
  function LockBanner(p: Preferences, now: int): (until: Option<int>)
    ensures until.Some? <==> LockActive(p, now)
    ensures until.Some? ==> until == p.lockEndTime && now < until.value
  {
    if LockActive(p, now) then p.lockEndTime else None
  }

  /** The colour of a protection dot. */
  datatype Dot = Green | Gray

  function Indicator(hidden: bool): (d: Dot)
    ensures d == Green <==> hidden
  {
    if hidden then Green else Gray
  }

  /** The three dots of the Instagram card: reels, stories, suggestions. */
  function Indicators(p: Preferences): (dots: (Dot, Dot, Dot))
    ensures dots.0 == Green <==> p.hideReels
    ensures dots.1 == Green <==> p.hideStories
    ensures dots.2 == Green <==> p.hideSuggestions
  {
    (Indicator(p.hideReels), Indicator(p.hideStories), Indicator(p.hideSuggestions))
  }

  /** A green dot means the feed really hides that block: a reel gives way to its
      placeholder, the stories to theirs, the suggestions to nothing. */
  lemma GreenMeansHidden(p: Preferences, reel: Post, suggested: seq<string>)
    requires reel.isReel
    ensures Indicators(p).0 == Green <==> RenderPost(reel, p).ReelPlaceholder?
    ensures Indicators(p).1 == Green <==> RenderStories(p).StoriesPlaceholder?
    ensures Indicators(p).2 == Green <==> RenderSuggestions(p, suggested).None?
  {
  }
}
