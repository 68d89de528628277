/** The viewing page of a network (frontend/src/pages/SocialView.js): the seconds elapsed
    since the page opened, the `m:ss` clock, the minutes credited on closing and the estimate
    shown on screen. `now` is `Date.now()` in milliseconds.

    The page multiplies by the floating-point 0.3; here that is the exact rational 3/10, so
    `Math.floor(m * 0.3)` is `3 * m / 10` and `Math.floor(t * 0.3 / 60)` is `3 * t / 600`. The
    model assumes the floating-point rounding never moves a result across an integer. */
module SocialView {
  import opened Wrappers
  import opened Text
  import opened UserContext

  /** An entry of the list of supported networks. */
  datatype Network = Network(id: string, name: string, url: string)

  /** The supported networks: Instagram only. */
  const SocialNetworks := [Network("instagram", "Instagram", "https://www.instagram.com")]

  /** `socialNetworks.find(n => n.id === platform)`. */
  function FindNetwork(networks: seq<Network>, platform: string): (r: Option<Network>)
    ensures r.Some? ==> r.value in networks && r.value.id == platform
    ensures r.None? ==> forall n :: n in networks ==> n.id != platform
  {
    if networks == [] then None
    else if networks[0].id == platform then Some(networks[0])
    else FindNetwork(networks[1..], platform)
  }

  /** What the page renders: the network's page, or the "not found" text. */
  datatype View = NetworkPage(network: Network) | NotFound(text: string)

  const NotFoundText := "R\U{E9}seau social non trouv\U{E9}"

  function PageView(platform: string): (v: View)
    ensures v.NotFound? <==> platform != "instagram"
    ensures v.NotFound? ==> v.text == NotFoundText
    ensures v.NetworkPage? ==> v.network.id == platform
  {
    match FindNetwork(SocialNetworks, platform)
    case None => NotFound(NotFoundText)
    case Some(n) => NetworkPage(n)
  }

  /** `Math.floor((now - sessionStart) / 1000)`. */
  function ElapsedSeconds(sessionStart: int, now: int): (s: int)
    ensures s * 1000 <= now - sessionStart < s * 1000 + 1000
  {
    (now - sessionStart) / 1000
  }

  /** The elapsed count never goes down while the clock goes forward. */
  lemma ElapsedMonotone(sessionStart: int, t1: int, t2: int)
    requires t1 <= t2
    ensures ElapsedSeconds(sessionStart, t1) <= ElapsedSeconds(sessionStart, t2)
  {
  }

  /** `Math.floor(Math.floor(t / 60) * 0.3)`: three tenths of the whole minutes, rounded down. */
  function CreditedMinutes(t: int): (c: int)
    ensures 10 * c <= 3 * (t / 60) < 10 * c + 10
  {
    3 * (t / 60) / 10
  }

  /** `Math.floor(t * 0.3 / 60)`, the minutes the page shows as saved. */
  function DisplayedEstimate(t: int): (e: int)
    ensures 600 * e <= 3 * t < 600 * e + 600
  {
    3 * t / 600
  }

  /** Something is credited exactly from four minutes on: 240 seconds and more. */
  lemma CreditPositiveIff(t: int)
    ensures CreditedMinutes(t) > 0 <==> t >= 240
  {
    var m := t / 60;
    if t >= 240 {
      assert m >= 4;
    } else {
      assert m <= 3;
    }
  }

  /** Ten minutes credit three. */
  lemma TenMinutesCreditThree()
    ensures CreditedMinutes(600) == 3
  {
  }

  /** The credit never exceeds what the page shows, and is not the same formula: after 200
      seconds the page shows one minute saved and closing credits none. */
  lemma CreditAtMostEstimate(t: int)
    ensures CreditedMinutes(t) <= DisplayedEstimate(t)
    ensures CreditedMinutes(200) == 0 && DisplayedEstimate(200) == 1
  {
    var m := t / 60;
    var c := CreditedMinutes(t);
    var e := DisplayedEstimate(t);
    assert 60 * m <= t;
    assert 10 * c <= 3 * m;
    assert 600 * c <= 3 * t;
  }

  /** `formatTime(seconds)`: the whole minutes, a colon, and the remaining seconds padded to
      two digits. */
  function FormatClock(seconds: int): (s: string)
  {
    IntToString(seconds / 60) + ":" + PadStart(IntToString(JsRem(seconds, 60)), 2, '0')
  }

  /** 65 seconds read "1:05". */
  lemma SixtyFiveSeconds()
    ensures FormatClock(65) == "1:05"
  {
    assert IntToString(1) == "1";
    assert IntToString(5) == "5";
    assert PadStart("5", 2, '0') == "05";
  }

  /** A clock text read back: minutes before the colon, seconds after it. */
  function ClockSeconds(text: string): Option<int> {
    var parts := Split(text, ':');
    if |parts| != 2 then None
    else match (ParseInt(parts[0]), ParseInt(parts[1]))
      case (Some(m), Some(s)) => Some(m * 60 + s)
      case _ => None
  }

  lemma NoColonInNumber(i: int)
    ensures ':' !in IntToString(i)
  {
  }

  /** A text that splits at its one colon into a minutes and a seconds text reads back as
      their total. */
  lemma ClockOfParts(text: string, mins: string, secs: string, m: int, r: int)
    requires Split(text, ':') == [mins, secs]
    requires ParseInt(mins) == Some(m) && ParseInt(secs) == Some(r)
    ensures ClockSeconds(text) == Some(m * 60 + r)
  {
  }

  /** Two digits read back as a two-digit number, a leading zero included. */
  lemma ReadTwoDigits(hi: char, lo: char)
    requires IsDigit(hi) && IsDigit(lo)
    ensures ParseInt([hi, lo]) == Some(DigitValue(hi) * 10 + DigitValue(lo))
  {
    var u := [hi, lo];
    TrimStartKeeps(u);
    MagnitudeOfDigits(u);
    assert u[..1] == [hi];
    assert [hi][..0] == [];
    assert DecimalValue([hi]) == DigitValue(hi);
    assert DecimalValue(u) == DigitValue(hi) * 10 + DigitValue(lo);
    assert ParseSigned(u) == Some(DecimalValue(u) as int);
  }

  /** A remainder below ten is padded with one zero. */
  lemma PadOneDigit(r: int)
    requires 0 <= r < 10
    ensures PadStart(IntToString(r), 2, '0') == ['0', DigitChar(r)]
  {
    assert IntToString(r) == [DigitChar(r)];
  }

  /** A remainder from ten to 59 is printed with two digits and not padded. */
  lemma PaddedTwoDigits(r: int)
    requires 10 <= r < 60
    ensures ParseInt(PadStart(IntToString(r), 2, '0')) == Some(r)
    ensures ':' !in PadStart(IntToString(r), 2, '0')
  {
    assert NatToString(r / 10) == [DigitChar(r / 10)];
    assert PadStart(IntToString(r), 2, '0') == IntToString(r);
    NoColonInNumber(r);
    ParseIntRoundTrip(r);
  }

  /** Two padded digits of a remainder below 60 read back as that remainder. */
  lemma PaddedSecondsRead(r: int)
    requires 0 <= r < 60
    ensures ParseInt(PadStart(IntToString(r), 2, '0')) == Some(r)
    ensures ':' !in PadStart(IntToString(r), 2, '0')
  {
    if r < 10 {
      PadOneDigit(r);
      ReadTwoDigits('0', DigitChar(r));
    } else {
      PaddedTwoDigits(r);
    }
  }

  /** For a non-negative count the remainder is the ordinary one. */
  lemma FormatClockShape(seconds: int)
    requires seconds >= 0
    ensures FormatClock(seconds)
      == IntToString(seconds / 60) + [':'] + PadStart(IntToString(seconds % 60), 2, '0')
  {
    assert JsRem(seconds, 60) == seconds % 60;
  }

  /** The clock shown for a non-negative count reads back as that count. */
  lemma FormatClockReadsBack(seconds: int)
    requires seconds >= 0
    ensures ClockSeconds(FormatClock(seconds)) == Some(seconds)
  {
    var m := seconds / 60;
    var r := seconds % 60;
    assert m * 60 + r == seconds;
    var mins := IntToString(m);
    var secs := PadStart(IntToString(r), 2, '0');
    FormatClockShape(seconds);
    NoColonInNumber(m);
    PaddedSecondsRead(r);
    ParseIntRoundTrip(m);
    SplitTwo(mins, secs, ':');
    ClockOfParts(FormatClock(seconds), mins, secs, m, r);
  }

  /** An open viewing page: where it was opened, when, and the seconds shown. */
  class SocialSession {
    const user: UserProvider
    const platform: string
    const sessionStart: int
    var timeSpent: int
    var navigatedTo: Option<string>

    constructor (user: UserProvider, platform: string, now: int)
      ensures this.user == user && this.platform == platform && sessionStart == now
      ensures timeSpent == 0 && navigatedTo.None?
    {
      this.user := user;
      this.platform := platform;
      sessionStart := now;
      timeSpent := 0;
      navigatedTo := None;
    }

    /** One interval tick at time `now`. */
    method Tick(now: int)
      modifies this
      ensures timeSpent == ElapsedSeconds(sessionStart, now) && navigatedTo == old(navigatedTo)
    {
      timeSpent := ElapsedSeconds(sessionStart, now);
    }

    /** `handleClose`: the credit for the seconds shown is added to the user's total only
        when positive, and the page always goes back to "/". */
    method HandleClose()
      modifies this, user, user.auth.storage
      ensures navigatedTo == Some("/") && timeSpent == old(timeSpent)
      ensures user.preferences == old(user.preferences)
      ensures CreditedMinutes(timeSpent) > 0 ==>
        && user.timeSaved == AddMinutes(old(user.timeSaved), CreditedMinutes(timeSpent))
        && (user.auth.user.Some? ==>
              user.auth.storage.items == old(user.auth.storage.items)[TimeKey(user.auth.user.value.id) := NumberText(user.timeSaved)])
        && (user.auth.user.None? ==> user.auth.storage.items == old(user.auth.storage.items))
      ensures CreditedMinutes(timeSpent) <= 0 ==>
        user.timeSaved == old(user.timeSaved) && user.auth.storage.items == old(user.auth.storage.items)
    {
      var minutesSpent := timeSpent / 60;
      var estimatedSaved := 3 * minutesSpent / 10;
      if estimatedSaved > 0 {
        user.AddTimeSaved(estimatedSaved);
      }
      navigatedTo := Some("/");
    }
  }
}
