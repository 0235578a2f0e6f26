/**
 * Digest-mode resolution, the look-back window and the title texts.
 *
 * A local time is an integer number of seconds counted from a local midnight
 * (the local epoch); a UTC time is the same count in UTC.  The time zone is a
 * fixed offset in seconds: local = UTC + offset.  The current time is passed
 * in as `now` instead of being read from the clock.
 */
module TimeUtils {
  import opened Wrappers
  import opened Text

  /** The values `get_digest_type` can return other than `None`. */
  datatype DigestType = Morning | Midday | Evening

  const SecondsPerMinute: int := 60
  const SecondsPerHour: int := 3600
  const SecondsPerDay: int := 86400

  /** The hour of the day (0..23) of a local time. */
  function Hour(t: int): (h: nat)
    ensures h < 24
  {
    (t % SecondsPerDay) / SecondsPerHour
  }

  /** The minute of the hour (0..59) of a local time. */
  function Minute(t: int): (m: nat)
    ensures m < 60
  {
    (t % SecondsPerHour) / SecondsPerMinute
  }

  /** The calendar day of a local time, counted from the local epoch. */
  function Day(t: int): int
  {
    t / SecondsPerDay
  }

  /** `datetime.combine(now.date(), time(hour, 0))`: the given hour on the day of `t`. */
  function AtHourOfDay(t: int, hour: nat): (r: int)
    requires hour < 24
    ensures Day(r) == Day(t) && Hour(r) == hour && Minute(r) == 0 && r % SecondsPerHour == 0
  {
    Day(t) * SecondsPerDay + hour * SecondsPerHour
  }

  /** The hour of the day at which each mode is scheduled. */
  function TriggerHour(m: DigestType): nat
  {
    match m
    case Morning => 7
    case Midday => 12
    case Evening => 18
  }

  /** `get_digest_type`: the mode whose trigger hour is the current hour, or `None`. */
  function GetDigestType(now: int): (r: Option<DigestType>)
  {
    var h := Hour(now);
    if h == 7 then Some(Morning)
    else if h == 12 then Some(Midday)
    else if h == 18 then Some(Evening)
    else None
  }

  /** A mode is chosen exactly during the hour it is scheduled for; every other hour gives `None`. */
  lemma GetDigestTypeSpec(now: int, m: DigestType)
    ensures GetDigestType(now) == Some(m) <==> Hour(now) == TriggerHour(m)
    ensures GetDigestType(now) == None <==> Hour(now) !in {7, 12, 18}
  {
  }

  /** Hour of the day at which the window of a mode starts: 07:00, 17:00, otherwise midnight. */
  function WindowStartHour(dt: Option<DigestType>): (h: nat)
    ensures h < 24
  {
    match dt
    case Some(Midday) => 7
    case Some(Evening) => 17
    case _ => 0
  }

  /** `get_time_window_local`: from the window's start hour on the day of `now`, up to `now`. */
  function GetTimeWindowLocal(dt: Option<DigestType>, now: int): (w: (int, int))
    ensures w.1 == now
    ensures Day(w.0) == Day(now) && Hour(w.0) == WindowStartHour(dt) && w.0 % SecondsPerHour == 0
  {
    (AtHourOfDay(now, WindowStartHour(dt)), now)
  }

  /** The window is non-empty exactly when `now` is at or after the start hour. */
  lemma {:induction false} WindowOrderedIff(dt: Option<DigestType>, now: int)
    ensures GetTimeWindowLocal(dt, now).0 <= now <==> Hour(now) >= WindowStartHour(dt)
  {
    var h := WindowStartHour(dt);
    var start := GetTimeWindowLocal(dt, now).0;
    assert start == Day(now) * SecondsPerDay + h * SecondsPerHour;
    assert now == Day(now) * SecondsPerDay + (now % SecondsPerDay);
    assert now % SecondsPerDay == Hour(now) * SecondsPerHour + (now % SecondsPerDay) % SecondsPerHour;
  }

  /** For the mode resolved from the same `now`, the window start is never after its end. */
  lemma ResolvedWindowOrdered(now: int)
    requires GetDigestType(now).Some?
    ensures GetTimeWindowLocal(GetDigestType(now), now).0 <= now
  {
    WindowOrderedIff(GetDigestType(now), now);
  }

  /** The three texts `titles_and_subject` returns: subject, header and subtitle. */
  datatype Titles = Titles(subject: string, header: string, subtitle: string)

  const MorningSubjectPrefix: string := "[Ryto santrauka] LRT naujienos — "
  const MorningHeaderPrefix: string := "LRT ryto naujienų santrauka — "
  const MorningSubtitle: string := "Svarbiausios šios dienos naujienos (nuo 00:00)."
  const MiddaySubjectPrefix: string := "[Vidurdienio atnaujinimas] LRT naujienos — "
  const MiddayHeaderPrefix: string := "LRT vidurdienio naujienų atnaujinimas — "
  const MiddaySubtitle: string := "Naujos naujienos nuo 07:00 (ryto santraukos)."

  /** `titles_and_subject`: morning texts for "morning", midday texts for any other value. */
  function TitlesAndSubject(dateStr: string, dt: Option<DigestType>): (t: Titles)
    ensures |t.subject| >= |dateStr| && t.subject[|t.subject| - |dateStr|..] == dateStr
    ensures |t.header| >= |dateStr| && t.header[|t.header| - |dateStr|..] == dateStr
    ensures t.subject == MorningSubjectPrefix + dateStr <==> dt == Some(Morning)
  {
    if dt == Some(Morning) then
      Titles(MorningSubjectPrefix + dateStr, MorningHeaderPrefix + dateStr, MorningSubtitle)
    else
      assert MiddaySubjectPrefix[1] != MorningSubjectPrefix[1];
      assert (MiddaySubjectPrefix + dateStr)[1] != (MorningSubjectPrefix + dateStr)[1];
      Titles(MiddaySubjectPrefix + dateStr, MiddayHeaderPrefix + dateStr, MiddaySubtitle)
  }

  /** The evening digest, and an unresolved mode, get exactly the midday texts. */
  lemma EveningUsesMiddayTitles(dateStr: string)
    ensures TitlesAndSubject(dateStr, Some(Evening)) == TitlesAndSubject(dateStr, Some(Midday))
    ensures TitlesAndSubject(dateStr, None) == TitlesAndSubject(dateStr, Some(Midday))
  {
  }

  /** `to_local_dt`: `None` stays `None`; a UTC time is shifted by the zone offset. */
  function ToLocalDt(st: Option<int>, offset: int): (r: Option<int>)
    ensures r.None? <==> st.None?
    ensures r.Some? ==> r.value - offset == st.value
  {
    match st
    case None => None
    case Some(utc) => Some(utc + offset)
  }

  /** Two decimal digits, zero-padded. */
  function TwoDigits(n: nat): (s: string)
    requires n < 100
    ensures |s| == 2 && IsDigit(s[0]) && IsDigit(s[1])
    ensures DigitsValue(s) == n
  {
    var s := [DigitChar(n / 10), DigitChar(n % 10)];
    assert s[..1] == [DigitChar(n / 10)] && s[..1][..0] == [];
    assert DigitsValue(s[..1]) == n / 10;
    assert 10 * (n / 10) + n % 10 == n;
    s
  }

  /** `strftime("%H:%M")`: the zero-padded hour and minute of a local time. */
  function FormatHourMinute(t: int): (s: string)
    ensures |s| == 5 && s[2] == ':'
    ensures IsDigit(s[0]) && IsDigit(s[1]) && IsDigit(s[3]) && IsDigit(s[4])
    ensures DigitsValue(s[..2]) == Hour(t) && DigitsValue(s[3..]) == Minute(t)
  {
    var hh := TwoDigits(Hour(t));
    var mm := TwoDigits(Minute(t));
    var s := hh + ":" + mm;
    assert s[..2] == hh && s[3..] == mm;
    s
  }
}
