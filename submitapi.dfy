/**
 * `pages/api/submitForm.ts`: the timestamp text stored with each submission
 * and the handler's answer.  The clock reading is given as its calendar
 * fields, and whether the database connection and insert succeed is a
 * parameter.
 */
module SubmitApi {
  import opened Wrappers
  import Text
  import opened FormCommon

  /** The offset the source adds "to convert to IST": zero. */
  const IstOffset := 0

  /** `date.getTime() + istOffset`: the instant is not moved. */
  function IstShift(t: int): (r: int)
    ensures r == t
  {
    t + IstOffset
  }

  /** `hours % 12`, then `12` in place of `0`. */
  function TwelveHour(h: nat): (r: nat)
    requires h < 24
    ensures 1 <= r <= 12
    ensures h == 0 || h == 12 ==> r == 12
    ensures h % 12 != 0 ==> r == h % 12
  {
    var x := h % 12;
    if x != 0 then x else 12
  }

  /** `hours >= 12 ? "pm" : "am"`. */
  function Meridiem(h: nat): (r: string)
    ensures r == "pm" || r == "am"
    ensures r == "pm" <==> h >= 12
  {
    if h >= 12 then "pm" else "am"
  }

  /** `minutes < 10 ? "0" + minutes : minutes`. */
  function MinuteField(m: nat): (r: string)
    requires m < 60
    ensures |r| == 2 && Text.AllDigits(r) && Text.ParseDecimal(r) == m
  {
    var s := Text.NatToString(m);
    Text.ParseNatToString(m);
    if m < 10 then
      Text.ParseLeadingZero(s);
      "0" + s
    else
      assert |s| == 2 by {
        assert s == Text.NatToString(m / 10) + [Text.DigitChar(m % 10)];
      }
      s
  }

  /** The 12-hour text and the suffix together determine the 24-hour hour. */
  lemma HourRoundTrip(h: nat)
    requires h < 24
    ensures TwelveHour(h) % 12 + (if Meridiem(h) == "pm" then 12 else 0) == h
  {
  }

  /** What `getDate`, the long month name, `getFullYear`, `getHours` and `getMinutes` read. */
  datatype DateParts = DateParts(day: nat, month: string, year: nat, hours: nat, minutes: nat)

  predicate ValidClock(d: DateParts) {
    d.hours < 24 && d.minutes < 60
  }

  /** `formatDateToIST`: `"<day> <month> <year> <h>:<mm> <am|pm>"`. */
  function FormatDateToIst(d: DateParts): string
    requires ValidClock(d)
  {
    Text.NatToString(d.day) + " " + d.month + " " + Text.NatToString(d.year) + " "
      + Text.NatToString(TwelveHour(d.hours)) + ":" + MinuteField(d.minutes) + " " + Meridiem(d.hours)
  }

  /** The 12-hour hour is written with one digit below 10 and two from 10 on. */
  lemma HourDigits(h: nat)
    requires 1 <= h <= 12
    ensures |Text.NatToString(h)| == (if h < 10 then 1 else 2)
  {
    if h >= 10 {
      assert Text.NatToString(h) == Text.NatToString(h / 10) + [Text.DigitChar(h % 10)];
    }
  }

  /**
   * The text ends in the clock: a space, the 12-hour hour's digits (reading
   * back as `TwelveHour(hours)`), a colon, two minute digits that read back as
   * the minutes, a space and the suffix; what comes before is
   * `<day> <month> <year>`.
   */
  lemma {:induction false} FormatDateTail(d: DateParts)
    requires ValidClock(d)
    ensures var r := FormatDateToIst(d); var n := |r|; var k := |Text.NatToString(TwelveHour(d.hours))|;
      && k == (if TwelveHour(d.hours) < 10 then 1 else 2) && n >= k + 7
      && r[n - 2..] == Meridiem(d.hours) && r[n - 3] == ' '
      && r[n - 5..n - 3] == MinuteField(d.minutes) && Text.ParseDecimal(r[n - 5..n - 3]) == d.minutes
      && r[n - 6] == ':'
      && Text.AllDigits(r[n - 6 - k..n - 6]) && Text.ParseDecimal(r[n - 6 - k..n - 6]) == TwelveHour(d.hours)
      && r[n - 7 - k] == ' '
      && r[..n - 7 - k] == Text.NatToString(d.day) + " " + d.month + " " + Text.NatToString(d.year)
  {
    var head := Text.NatToString(d.day) + " " + d.month + " " + Text.NatToString(d.year) + " ";
    var hour := Text.NatToString(TwelveHour(d.hours));
    var mm := MinuteField(d.minutes);
    var ap := Meridiem(d.hours);
    var r := FormatDateToIst(d);
    HourDigits(TwelveHour(d.hours));
    Text.ParseNatToString(TwelveHour(d.hours));
    var tail := ":" + mm + " " + ap;
    assert r == head + hour + tail;
    assert |tail| == 6;
    var n, k := |r|, |hour|;
    assert r[n - 6..] == tail;
    assert r[n - 6 - k..n - 6] == hour;
    assert r[n - 7 - k] == head[|head| - 1] == ' ';
    assert r[..|head|] == head;
  }

  /**
   * The text starts with the date: the day's digits (reading back as the
   * day), a space, the month name, a space, and the year's digits (reading
   * back as the year) just before the space that opens the clock.
   */
  lemma FormatDateHead(d: DateParts)
    requires ValidClock(d)
    ensures var r := FormatDateToIst(d); var n := |r|;
      var k := |Text.NatToString(TwelveHour(d.hours))|;
      var a := |Text.NatToString(d.day)|; var y := |Text.NatToString(d.year)|;
      && n >= a + |d.month| + y + k + 9
      && Text.AllDigits(r[..a]) && Text.ParseDecimal(r[..a]) == d.day && r[a] == ' '
      && r[a + 1..a + 1 + |d.month|] == d.month && r[a + 1 + |d.month|] == ' '
      && r[n - 7 - k - y..n - 7 - k] == Text.NatToString(d.year)
      && Text.AllDigits(r[n - 7 - k - y..n - 7 - k]) && Text.ParseDecimal(r[n - 7 - k - y..n - 7 - k]) == d.year
  {
    var day, year := Text.NatToString(d.day), Text.NatToString(d.year);
    var hour := Text.NatToString(TwelveHour(d.hours));
    var rest := " " + hour + ":" + MinuteField(d.minutes) + " " + Meridiem(d.hours);
    assert |rest| == |hour| + 7;
    assert FormatDateToIst(d) == day + " " + d.month + " " + year + rest;
    Text.ParseNatToString(d.day);
    Text.ParseNatToString(d.year);
    DateFields(day, d.month, year, rest);
  }

  lemma DateFields(day: string, month: string, year: string, rest: string)
    ensures var r := day + " " + month + " " + year + rest; var a, e := |day|, |r| - |rest|;
      && e == a + |month| + |year| + 2
      && r[..a] == day && r[a] == ' ' && r[a + 1..a + 1 + |month|] == month && r[a + 1 + |month|] == ' '
      && r[e - |year|..e] == year
  {
    var r := day + " " + month + " " + year + rest;
    var a, e := |day|, |r| - |rest|;
    assert r[..a] == day;
    assert r[a + 1..a + 1 + |month|] == month;
    assert r[e - |year|..e] == year;
  }

  /** A request as the handler reads it: its HTTP method, and the body when it has one. */
  datatype Request = Request(verb: string, body: Option<FormData>)

  /** The document `insertOne` stores. */
  datatype StoredSong = StoredSong(location: string, youtubeLink: string, name: string, timestamp: string)

  /** The answer, and the document stored while producing it. */
  datatype Outcome = Outcome(response: Reply, inserted: Option<StoredSong>)

  const SaveFailedMessage := "Unable to save data"

  /**
   * The handler: a non-POST gets 405 with an empty body; a POST whose body
   * reads and whose insert succeeds gets 200 and stores the fields with the
   * formatted time; anything that throws gets 500 with an `error` field.
   */
  function Handle(req: Request, dbSucceeds: bool, now: DateParts): (o: Outcome)
    requires ValidClock(now)
    ensures o.response.Reply?
    ensures o.response.status == 405 <==> req.verb != "POST"
    ensures o.response.status == 200 <==> o.inserted.Some?
    ensures o.response.status == 200 <==> req.verb == "POST" && req.body.Some? && dbSucceeds
    ensures o.response.status in {200, 405, 500}
    ensures o.response.status == 405 ==> o.response.body.None?
    ensures o.response.status == 500 ==> o.response.body == Some(JsonBody(Some(SaveFailedMessage)))
    ensures o.inserted.Some? ==>
      var f := req.body.value;
      o.inserted.value == StoredSong(f.location, f.youtubeLink, f.name, FormatDateToIst(now))
  {
    if req.verb != "POST" then Outcome(Reply(405, None), None)
    else if req.body.None? || !dbSucceeds then Outcome(Reply(500, Some(JsonBody(Some(SaveFailedMessage)))), None)
    else
      var f := req.body.value;
      Outcome(Reply(200, Some(JsonBody(None))), Some(StoredSong(f.location, f.youtubeLink, f.name, FormatDateToIst(now))))
  }

  /** No duplicate check exists: the handler never answers 400, whatever it is sent. */
  lemma NeverBadRequest(req: Request, dbSucceeds: bool, now: DateParts)
    requires ValidClock(now)
    ensures Handle(req, dbSucceeds, now).response.status != 400
    ensures Handle(req, dbSucceeds, now).response.status == 200 || !IsOk(Handle(req, dbSucceeds, now).response.status)
  {
  }
}
