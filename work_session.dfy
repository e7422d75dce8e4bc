/**
 * The work-session record (Models/WorkSession.cs) and its `h:m:s` duration
 * formatter. Instants are seconds on a common clock; the session id, which
 * the source draws from a fresh Guid, is given.
 */
module WorkSessions {
  import opened Wrappers
  import opened Formatting

  datatype WorkSession = WorkSession(
    id: string,
    projectName: string,
    startTime: int,
    endTime: Option<int>,
    durationSeconds: int,
    isActive: bool,
    notes: string)

  /** A session as `new WorkSession()` leaves it, before its initialiser runs. */
  function NewSession(id: string, startTime: int): (s: WorkSession)
    ensures s.id == id && s.startTime == startTime
    ensures s.projectName == "" && s.notes == "" && s.endTime == None
    ensures s.durationSeconds == 0 && !s.isActive
  {
    WorkSession(id, "", startTime, None, 0, false, "")
  }

  /** `FormattedDuration`: "{h:D2}:{m:D2}:{s:D2}". */
  function FormattedDuration(d: int): string
  {
    var (h, m, s) := ClockFields(d);
    IntToStringD2(h) + ":" + IntToStringD2(m) + ":" + IntToStringD2(s)
  }

  /** Reads an "h:m:s" clock back into seconds; None when it does not have
      three fields. */
  function ParseClock(text: string): Option<int>
  {
    var f := Split(text, ':');
    if |f| == 3 then Some(ParseInt(f[0]) * 3600 + ParseInt(f[1]) * 60 + ParseInt(f[2])) else None
  }

  lemma ParseClockFields(a: string, b: string, c: string)
    requires ':' !in a && ':' !in b && ':' !in c
    ensures ParseClock(a + ":" + b + ":" + c) == Some(ParseInt(a) * 3600 + ParseInt(b) * 60 + ParseInt(c))
  {
    assert a + ":" + b + ":" + c == a + [':'] + (b + [':'] + c);
    SplitAt(a, ':', b + [':'] + c);
    SplitAt(b, ':', c);
    SplitFree(c, ':');
  }

  /** Formatting loses nothing: the clock text reads back as the duration,
      for every duration, negative ones included. */
  lemma FormattedDurationRoundTrip(d: int)
    ensures ParseClock(FormattedDuration(d)) == Some(d)
  {
    var f := ClockFields(d);
    ParseClockFields(IntToStringD2(f.0), IntToStringD2(f.1), IntToStringD2(f.2));
    ParseIntToStringD2(f.0);
    ParseIntToStringD2(f.1);
    ParseIntToStringD2(f.2);
    ClockFieldsExact(d);
  }

  /** For a non-negative duration the text is "HH:MM:SS": the hours, minutes
      and seconds of a clock reading of d, each padded to at least two digits,
      with exactly two minute and second digits. */
  lemma FormattedDurationShape(d: int)
    requires d >= 0
    ensures var (h, m, s) := ClockFields(d);
      FormattedDuration(d) == IntToStringD2(h) + ":" + IntToStringD2(m) + ":" + IntToStringD2(s)
      && 0 <= h && 0 <= m < 60 && 0 <= s < 60 && h * 3600 + m * 60 + s == d
    ensures var r := FormattedDuration(d);
      |r| >= 8 && r[|r| - 3] == ':' && r[|r| - 6] == ':'
      && AllDigits(r[|r| - 5..|r| - 3]) && AllDigits(r[|r| - 2..])
  {
    ClockFieldsExact(d);
    var (h, m, s) := ClockFields(d);
    D2TwoDigits(m);
    D2TwoDigits(s);
    var r := FormattedDuration(d);
    var H, M, S := IntToStringD2(h), IntToStringD2(m), IntToStringD2(s);
    assert r == H + ":" + M + ":" + S;
    assert r[|r| - 5..|r| - 3] == M;
    assert r[|r| - 2..] == S;
  }

  lemma FormattedDurationZero()
    ensures FormattedDuration(0) == "00:00:00"
  {
  }
}
