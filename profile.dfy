/**
 * The profile countdown of `app/sevoke/profile.tsx`: an end time 72 hours
 * after the first visit, kept in storage, and a once-a-second text of the
 * time left.  The stored value is read as a number, the clock reading is a
 * parameter, and the interval is a `running` flag.
 */
module Profile {
  import opened Wrappers
  import Text

  const MsPerSecond := 1000
  const MsPerMinute := 60 * 1000
  const MsPerHour := 60 * 60 * 1000
  /** `72 * 60 * 60 * 1000`. */
  const Lifetime := 72 * MsPerHour

  /** Whole hours, minutes and seconds of a positive remaining time in milliseconds. */
  datatype Clock = Clock(hours: nat, minutes: nat, seconds: nat)

  /**
   * `Math.floor(remaining / 3600000)`, `Math.floor((remaining % 3600000) / 60000)`
   * and `Math.floor((remaining % 60000) / 1000)`; for a positive `remaining`
   * JavaScript's `%` and `Math.floor` agree with Euclidean division.
   */
  function Decompose(remaining: int): (c: Clock)
    requires remaining > 0
    ensures c.minutes < 60 && c.seconds < 60
    ensures var whole := c.hours * MsPerHour + c.minutes * MsPerMinute + c.seconds * MsPerSecond;
      whole <= remaining < whole + MsPerSecond
  {
    var h := remaining / MsPerHour;
    var rh := remaining % MsPerHour;
    var m := rh / MsPerMinute;
    var rm := rh % MsPerMinute;
    assert remaining % MsPerMinute == rm by {
      assert remaining == h * MsPerHour + m * MsPerMinute + rm;
      assert h * MsPerHour == (h * 60) * MsPerMinute;
      ModSplit(remaining, h * 60 + m, rm);
    }
    var s := (remaining % MsPerMinute) / MsPerSecond;
    Clock(h, m, s)
  }

  lemma ModSplit(x: int, q: int, r: int)
    requires 0 <= r < MsPerMinute && x == q * MsPerMinute + r
    ensures x % MsPerMinute == r
  {
  }

  /** `${hours}h ${minutes}m ${seconds}s`. */
  function CountdownText(c: Clock): string {
    Text.NatToString(c.hours) + "h " + Text.NatToString(c.minutes) + "m " + Text.NatToString(c.seconds) + "s"
  }

  /**
   * Reading the text back: the digits before `h` give the hours, the digits
   * between `h ` and `m` the minutes, and those between `m ` and the final
   * `s` the seconds; minutes and seconds below 60 take one or two digits.
   */
  lemma CountdownTextRoundTrip(c: Clock)
    requires c.minutes < 60 && c.seconds < 60
    ensures var r := CountdownText(c);
      var a := |Text.NatToString(c.hours)|; var b := |Text.NatToString(c.minutes)|;
      var e := |Text.NatToString(c.seconds)|;
      && 1 <= b <= 2 && 1 <= e <= 2 && |r| == a + b + e + 5
      && Text.AllDigits(r[..a]) && Text.ParseDecimal(r[..a]) == c.hours
      && r[a] == 'h' && r[a + 1] == ' '
      && Text.AllDigits(r[a + 2..a + 2 + b]) && Text.ParseDecimal(r[a + 2..a + 2 + b]) == c.minutes
      && r[a + 2 + b] == 'm' && r[a + 3 + b] == ' '
      && Text.AllDigits(r[a + 4 + b..|r| - 1]) && Text.ParseDecimal(r[a + 4 + b..|r| - 1]) == c.seconds
      && r[|r| - 1] == 's'
  {
    var hs, ms, ss := Text.NatToString(c.hours), Text.NatToString(c.minutes), Text.NatToString(c.seconds);
    TwoDigitsBelowSixty(c.minutes);
    TwoDigitsBelowSixty(c.seconds);
    Text.ParseNatToString(c.hours);
    Text.ParseNatToString(c.minutes);
    Text.ParseNatToString(c.seconds);
    TextFields(hs, ms, ss);
  }

  lemma TextFields(hs: string, ms: string, ss: string)
    ensures var r := hs + "h " + ms + "m " + ss + "s"; var a, b := |hs|, |ms|;
      && |r| == a + b + |ss| + 5
      && r[..a] == hs && r[a] == 'h' && r[a + 1] == ' '
      && r[a + 2..a + 2 + b] == ms && r[a + 2 + b] == 'm' && r[a + 3 + b] == ' '
      && r[a + 4 + b..|r| - 1] == ss && r[|r| - 1] == 's'
  {
    var r := hs + "h " + ms + "m " + ss + "s";
    var a, b := |hs|, |ms|;
    assert r[..a] == hs;
    assert r[a + 2..a + 2 + b] == ms;
    assert r[a + 4 + b..|r| - 1] == ss;
  }

  lemma TwoDigitsBelowSixty(n: nat)
    requires n < 60
    ensures 1 <= |Text.NatToString(n)| <= 2
  {
    if n >= 10 {
      assert Text.NatToString(n) == Text.NatToString(n / 10) + [Text.DigitChar(n % 10)];
    }
  }

  const ExpiredText := "Expired"

  /** No countdown text reads as the expiry text: every one ends in `s`, the expiry text in `d`. */
  lemma CountdownNeverExpired(c: Clock)
    ensures CountdownText(c) != ExpiredText
  {
    var t := CountdownText(c);
    assert t[|t| - 1] == 's';
  }

  class ProfileTimer {
    /** `localStorage.getItem("profileEndTime")`, read as a number. */
    var storedEndTime: Option<int>
    var endTime: int
    var timeLeft: string
    /** Whether the interval is still set. */
    var running: bool

    /** The component's first render: `timeLeft` is "" and storage holds what it held. */
    constructor (stored: Option<int>)
      ensures storedEndTime == stored && timeLeft == "" && !running
    {
      storedEndTime := stored;
      endTime := 0;
      timeLeft := "";
      running := false;
    }

    /** The mount effect: reuse the stored end time, or store one 72 hours from `now`; then start the interval. */
    method Mount(now: int)
      modifies this
      ensures old(storedEndTime).None? ==> endTime == now + Lifetime && storedEndTime == Some(endTime)
      ensures old(storedEndTime).Some? ==> endTime == old(storedEndTime).value && storedEndTime == old(storedEndTime)
      ensures running && timeLeft == old(timeLeft)
    {
      if storedEndTime.None? {
        var newEndTime := now + Lifetime;
        storedEndTime := Some(newEndTime);
      }
      endTime := storedEndTime.value;
      running := true;
    }

    /** One interval tick at time `now`. */
    method Tick(now: int)
      requires running
      modifies this
      ensures endTime - now <= 0 ==> !running && timeLeft == ExpiredText && storedEndTime == None
      ensures endTime - now > 0 ==>
        && running && timeLeft == CountdownText(Decompose(endTime - now))
        && storedEndTime == old(storedEndTime)
      ensures endTime == old(endTime)
    {
      var remaining := endTime - now;
      if remaining <= 0 {
        running := false;
        timeLeft := ExpiredText;
        storedEndTime := None;
      } else {
        timeLeft := CountdownText(Decompose(remaining));
      }
    }
  }
}
