/**
 * The video recommendation tab of video/video.js: its two display formatters
 * (`formatDuration`, `formatViewCount`), the curriculum-based search query,
 * and the search and paging state of `VideoRecommendationTab`.
 */
module VideoTab {
  import opened Common
  import Store

  // ---------------------------------------------------------------------
  // formatDuration
  // ---------------------------------------------------------------------

  /** `s` has the two characters "PT" at position `j`. */
  predicate PTAt(s: string, j: int) {
    0 <= j && j + 1 < |s| && s[j] == 'P' && s[j + 1] == 'T'
  }

  /** The first position at or after `from` where "PT" occurs, if any. */
  function FindPTFrom(s: string, from: nat): (r: Option<nat>)
    requires from <= |s|
    ensures r.Some? ==> from <= r.value && PTAt(s, r.value)
    ensures forall j :: from <= j && (r.None? || j < r.value) ==> !PTAt(s, j)
    decreases |s| - from
  {
    if from + 1 >= |s| then None
    else if PTAt(s, from) then Some(from)
    else FindPTFrom(s, from + 1)
  }

  /** Where the unanchored regex for durations starts its match: the first "PT" in `s`. */
  function FindPT(s: string): (r: Option<nat>)
    ensures r.Some? ==> PTAt(s, r.value) && forall j :: 0 <= j < r.value ==> !PTAt(s, j)
    ensures r.None? ==> forall j :: 0 <= j < |s| ==> !PTAt(s, j)
  {
    FindPTFrom(s, 0)
  }

  /** What an optional group `(?:(\d+)X)?` captures, and where the match continues. */
  datatype Taken = Taken(value: Option<nat>, rest: string)

  /**
   * The optional group `(?:(\d+)U)?` for the designator `u` at the start of
   * `s`: a run of digits directly followed by `u` is captured and consumed;
   * otherwise the group matches nothing.
   */
  function Component(s: string, u: char): (r: Taken)
    ensures |r.rest| <= |s|
  {
    var k := DigitRun(s);
    if 1 <= k < |s| && s[k] == u then Taken(Some(ParseNat(s[..k])), s[k + 1..]) else Taken(None, s)
  }

  /** The text of one duration component: its digits and designator, or nothing when absent. */
  function Part(n: Option<nat>, u: char): string {
    match n
    case Some(v) => Dec(v) + [u]
    case None => ""
  }

  /** `n.toString().padStart(2, '0')`. */
  function Pad2(n: nat): (r: string)
    ensures |r| >= 2 && AllDigits(r)
    ensures |r| == if n < 10 then 2 else |Dec(n)|
    ensures ParseNat(r) == n
  {
    ParseDec(n);
    if n < 10 then
      assert Dec(n) == [DigitChar(n)];
      assert ParseNat("0" + Dec(n)) == n by {
        assert ("0" + Dec(n))[..1] == "0";
      }
      "0" + Dec(n)
    else Dec(n)
  }

  /** The clock text for a duration: "h:mm:ss" when there are hours, "m:ss" otherwise. */
  function Clock(h: nat, m: nat, s: nat): string {
    if h > 0 then Dec(h) + ":" + Pad2(m) + ":" + Pad2(s) else Dec(m) + ":" + Pad2(s)
  }

  /**
   * `formatDuration`, exactly as written: the match starts at the first "PT"
   * anywhere in the text and reads optional hours, minutes and seconds;
   * missing parts count as 0 and text without "PT" gives "0:00".
   */
  function FormatDuration(duration: string): string {
    match FindPT(duration)
    case None => "0:00"
    case Some(i) => TimeClock(duration[i + 2..])
  }

  /** The hours, minutes and seconds groups read from `t`, as a clock. */
  function TimeClock(t: string): string {
    var h := Component(t, 'H');
    var m := Component(h.rest, 'M');
    var s := Component(m.rest, 'S');
    Clock(h.value.GetOr(0), m.value.GetOr(0), s.value.GetOr(0))
  }

  lemma ComponentHit(n: nat, u: char, rest: string)
    requires !IsDigit(u)
    ensures Component(Dec(n) + [u] + rest, u) == Taken(Some(n), rest)
  {
    var s := Dec(n) + [u] + rest;
    assert s == Dec(n) + ([u] + rest);
    DigitRunOf(Dec(n), [u] + rest);
    assert s[..|Dec(n)|] == Dec(n);
    assert s[|Dec(n)| + 1..] == rest;
    ParseDec(n);
  }

  /** The group for `u` matches nothing at the start of `s`. */
  predicate NoComponent(s: string, u: char) {
    Component(s, u).value.None?
  }

  lemma ComponentMiss(n: nat, v: char, u: char, rest: string)
    requires v != u && !IsDigit(v)
    ensures NoComponent(Dec(n) + [v] + rest, u)
  {
    assert Dec(n) + [v] + rest == Dec(n) + ([v] + rest);
    DigitRunOf(Dec(n), [v] + rest);
  }

  /** A component that is present is captured; an absent one leaves the group empty. */
  lemma ComponentOfPart(p: Option<nat>, u: char, rest: string)
    requires !IsDigit(u) && NoComponent(rest, u)
    ensures Component(Part(p, u) + rest, u) == Taken(p, rest)
  {
    match p
    case Some(n) => ComponentHit(n, u, rest);
    case None => assert Part(p, u) + rest == rest;
  }

  /** A component with another designator in front of `rest` does not feed the group for `u`. */
  lemma NoComponentBefore(p: Option<nat>, v: char, u: char, rest: string)
    requires v != u && !IsDigit(v)
    requires NoComponent(rest, u)
    ensures NoComponent(Part(p, v) + rest, u)
  {
    match p
    case Some(n) => ComponentMiss(n, v, u, rest);
    case None => assert Part(p, v) + rest == rest;
  }

  /** The time designators of an ISO 8601 duration in the order they appear: hours, minutes, seconds. */
  function TimeParts(h: Option<nat>, m: Option<nat>, s: Option<nat>): string {
    Part(h, 'H') + Part(m, 'M') + Part(s, 'S')
  }

  lemma ReadSeconds(s: Option<nat>)
    ensures Component(Part(s, 'S'), 'S').value == s
    ensures NoComponent(Part(s, 'S'), 'M') && NoComponent(Part(s, 'S'), 'H')
  {
    assert NoComponent("", 'S') && NoComponent("", 'M') && NoComponent("", 'H');
    assert Part(s, 'S') == Part(s, 'S') + "";
    ComponentOfPart(s, 'S', "");
    NoComponentBefore(s, 'S', 'M', "");
    NoComponentBefore(s, 'S', 'H', "");
  }

  lemma ReadMinutes(m: Option<nat>, s: Option<nat>)
    ensures Component(Part(m, 'M') + Part(s, 'S'), 'M') == Taken(m, Part(s, 'S'))
    ensures NoComponent(Part(m, 'M') + Part(s, 'S'), 'H')
  {
    ReadSeconds(s);
    ComponentOfPart(m, 'M', Part(s, 'S'));
    NoComponentBefore(m, 'M', 'H', Part(s, 'S'));
  }

  /** Reading the hour, minute and second components of a time part gives back their values. */
  lemma ReadTimeParts(h: Option<nat>, m: Option<nat>, s: Option<nat>)
    ensures Component(TimeParts(h, m, s), 'H') == Taken(h, Part(m, 'M') + Part(s, 'S'))
    ensures Component(Part(m, 'M') + Part(s, 'S'), 'M') == Taken(m, Part(s, 'S'))
    ensures Component(Part(s, 'S'), 'S').value == s
  {
    ReadSeconds(s);
    ReadMinutes(m, s);
    assert TimeParts(h, m, s) == Part(h, 'H') + (Part(m, 'M') + Part(s, 'S'));
    ComponentOfPart(h, 'H', Part(m, 'M') + Part(s, 'S'));
  }

  /**
   * For every duration of the form `PT[h H][m M][s S]`, the formatter shows
   * exactly those hours, minutes and seconds, an absent component counting as 0.
   */
  lemma FormatDurationOfTime(h: Option<nat>, m: Option<nat>, s: Option<nat>)
    ensures FormatDuration("PT" + TimeParts(h, m, s)) == Clock(h.GetOr(0), m.GetOr(0), s.GetOr(0))
  {
    var d := "PT" + TimeParts(h, m, s);
    assert PTAt(d, 0);
    assert FindPT(d) == Some(0);
    assert d[2..] == TimeParts(h, m, s);
    ReadTimeParts(h, m, s);
  }

  /** Text without "PT" is shown as "0:00". */
  lemma FormatDurationWithoutPT(d: string)
    requires forall j :: 0 <= j < |d| ==> !PTAt(d, j)
    ensures FormatDuration(d) == "0:00"
  {
  }

  /** The written-out clock reads back: the seconds field holds `s`, minutes `m`, and hours `h` when shown. */
  lemma ClockReadsBack(h: nat, m: nat, s: nat)
    ensures h > 0 ==> Clock(h, m, s) == Dec(h) + ":" + Pad2(m) + ":" + Pad2(s)
                      && ParseNat(Dec(h)) == h && ParseNat(Pad2(m)) == m && ParseNat(Pad2(s)) == s
    ensures h == 0 ==> Clock(h, m, s) == Dec(m) + ":" + Pad2(s) && ParseNat(Dec(m)) == m && ParseNat(Pad2(s)) == s
  {
    ParseDec(h);
    ParseDec(m);
  }

  // ---------------------------------------------------------------------
  // formatDuration with days
  // ---------------------------------------------------------------------

  /** The first position of `c` in `s`, if any. */
  function FindChar(s: string, c: char): (r: Option<nat>)
    ensures r.Some? ==> r.value < |s| && s[r.value] == c && forall j :: 0 <= j < r.value ==> s[j] != c
    ensures r.None? ==> c !in s
  {
    if s == [] then None
    else if s[0] == c then Some(0)
    else match FindChar(s[1..], c)
      case Some(k) => Some(k + 1)
      case None => None
  }

  /**
   * The duration formatter with the day designator read as well: the match
   * starts at the first "P", takes an optional `nD`, an optional "T" and the
   * optional hours, minutes and seconds; each day adds 24 hours.
   */
  function FormatDurationWithDays(duration: string): string {
    match FindChar(duration, 'P')
    case None => "0:00"
    case Some(i) => DaysClock(duration[i + 1..])
  }

  /** `s` without its first character when that is the time designator "T". */
  function SkipT(s: string): string {
    if s != [] && s[0] == 'T' then s[1..] else s
  }

  /** The days group, an optional "T", then the hours, minutes and seconds groups read from `t`, as a clock. */
  function DaysClock(t: string): string {
    var d := Component(t, 'D');
    ClockAfterDays(d.value.GetOr(0), SkipT(d.rest))
  }

  /** The hours, minutes and seconds groups read from `time`, with `days` times 24 hours added. */
  function ClockAfterDays(days: nat, time: string): string {
    var h := Component(time, 'H');
    var m := Component(h.rest, 'M');
    var s := Component(m.rest, 'S');
    Clock(24 * days + h.value.GetOr(0), m.value.GetOr(0), s.value.GetOr(0))
  }

  /**
   * For every ISO 8601 duration `P[n D]T[h H][m M][s S]` the days-aware
   * formatter shows the whole duration, days folded into the hours.
   */
  lemma FormatDurationWithDaysOfIso(days: Option<nat>, h: Option<nat>, m: Option<nat>, s: Option<nat>)
    ensures FormatDurationWithDays("P" + Part(days, 'D') + "T" + TimeParts(h, m, s))
         == Clock(24 * days.GetOr(0) + h.GetOr(0), m.GetOr(0), s.GetOr(0))
  {
    WithDaysAroundT(Part(days, 'D'), TimeParts(h, m, s));
    DaysClockOfIso(days, h, m, s);
  }

  /** A duration "P" + `date` + "T" + `time` is read from the character after the "P". */
  lemma WithDaysAroundT(date: string, time: string)
    ensures FormatDurationWithDays("P" + date + "T" + time) == DaysClock(date + "T" + time)
  {
    Regroup("P", date, "T", time);
    WithDaysAfterP(date + "T" + time);
  }

  /** A duration that starts with "P" is read from the character after it. */
  lemma WithDaysAfterP(rest: string)
    ensures FormatDurationWithDays("P" + rest) == DaysClock(rest)
  {
    assert FindChar("P" + rest, 'P') == Some(0);
    assert ("P" + rest)[1..] == rest;
  }

  lemma DaysComponentOfIso(days: Option<nat>, rest: string)
    ensures Component(Part(days, 'D') + "T" + rest, 'D') == Taken(days, "T" + rest)
  {
    var t := "T" + rest;
    assert Part(days, 'D') + "T" + rest == Part(days, 'D') + t;
    assert DigitRun(t) == 0;
    ComponentOfPart(days, 'D', t);
  }

  lemma DaysClockOfIso(days: Option<nat>, h: Option<nat>, m: Option<nat>, s: Option<nat>)
    ensures DaysClock(Part(days, 'D') + "T" + TimeParts(h, m, s)) == Clock(24 * days.GetOr(0) + h.GetOr(0), m.GetOr(0), s.GetOr(0))
  {
    DaysThenTime(days, TimeParts(h, m, s));
    ClockAfterDaysOfTime(days.GetOr(0), h, m, s);
  }

  /** After the days group and the "T", the time part is read on its own. */
  lemma DaysThenTime(days: Option<nat>, time: string)
    ensures DaysClock(Part(days, 'D') + "T" + time) == ClockAfterDays(days.GetOr(0), time)
  {
    DaysComponentOfIso(days, time);
    SkipTime(time);
  }

  lemma SkipTime(rest: string)
    ensures SkipT("T" + rest) == rest
  {
    assert ("T" + rest)[1..] == rest;
  }

  /** The time part `[h H][m M][s S]` is read back as those hours, minutes and seconds. */
  lemma ClockAfterDaysOfTime(n: nat, h: Option<nat>, m: Option<nat>, s: Option<nat>)
    ensures ClockAfterDays(n, TimeParts(h, m, s)) == Clock(24 * n + h.GetOr(0), m.GetOr(0), s.GetOr(0))
  {
    ReadTimeParts(h, m, s);
  }

  /** A duration of whole days only, `P[n D]`, is shown as that many times 24 hours. */
  lemma FormatDurationWithDaysOfDate(days: Option<nat>)
    ensures FormatDurationWithDays("P" + Part(days, 'D')) == Clock(24 * days.GetOr(0), 0, 0)
  {
    WithDaysAfterP(Part(days, 'D'));
    DaysClockOfDate(days);
  }

  lemma DaysClockOfDate(days: Option<nat>)
    ensures DaysClock(Part(days, 'D')) == Clock(24 * days.GetOr(0), 0, 0)
  {
    DaysComponentOfDate(days);
    NothingLeft('H');
    NothingLeft('M');
    NothingLeft('S');
    assert ClockAfterDays(days.GetOr(0), "") == Clock(24 * days.GetOr(0), 0, 0);
  }

  lemma DaysComponentOfDate(days: Option<nat>)
    ensures Component(Part(days, 'D'), 'D') == Taken(days, "")
  {
    assert Part(days, 'D') == Part(days, 'D') + "";
    assert NoComponent("", 'D');
    ComponentOfPart(days, 'D', "");
  }

  /** Nothing is read from the empty text, and there is no "T" to skip. */
  lemma NothingLeft(u: char)
    ensures SkipT("") == "" && Component("", u) == Taken(None, "")
  {
  }

  /** On durations without days both formatters agree. */
  lemma FormattersAgreeWithoutDays(h: Option<nat>, m: Option<nat>, s: Option<nat>)
    ensures FormatDurationWithDays("PT" + TimeParts(h, m, s)) == FormatDuration("PT" + TimeParts(h, m, s))
  {
    FormatDurationOfTime(h, m, s);
    FormatDurationWithDaysOfIso(None, h, m, s);
    NoDatePart(TimeParts(h, m, s));
  }

  lemma NoDatePart(time: string)
    ensures "P" + Part(None, 'D') + "T" + time == "PT" + time
  {
    assert Part(None, 'D') == "";
  }

  /** As written, a duration of one day and two hours has no "PT" and is shown as "0:00". */
  lemma DaysShownAsZero()
    ensures FormatDuration("P1DT2H") == "0:00"
  {
    var d := "P1DT2H";
    assert !PTAt(d, 0) && !PTAt(d, 1) && !PTAt(d, 2) && !PTAt(d, 3) && !PTAt(d, 4) && !PTAt(d, 5);
    FormatDurationWithoutPT(d);
  }

  /** Read with its days, the same duration is shown as 26 hours. */
  lemma DaysShownAsHours()
    ensures FormatDurationWithDays("P1DT2H") == Clock(26, 0, 0)
  {
    assert "P1DT2H" == "P" + Part(Some(1), 'D') + "T" + TimeParts(Some(2), None, None) by {
      assert Dec(1) == "1" && Dec(2) == "2";
    }
    FormatDurationWithDaysOfIso(Some(1), Some(2), None, None);
  }

  /** As written, every duration with a day part, `P{d}DT…`, is shown as "0:00", whatever its length. */
  lemma AsWrittenDropsDayDurations(d: nat, h: Option<nat>, m: Option<nat>, s: Option<nat>)
    ensures FormatDuration("P" + Dec(d) + "DT" + TimeParts(h, m, s)) == "0:00"
  {
    var tail := Dec(d) + "DT" + TimeParts(h, m, s);
    assert "P" + Dec(d) + "DT" + TimeParts(h, m, s) == "P" + tail;
    NoPInTimeParts(h, m, s);
    assert 'P' !in Dec(d);
    assert 'P' !in tail;
    assert tail[0] == Dec(d)[0];
    NoPTAfterLoneP(tail);
    FormatDurationWithoutPT("P" + tail);
  }

  /** A "P" followed by text holding no other "P" and not starting with "T" contains no "PT". */
  lemma NoPTAfterLoneP(tail: string)
    requires 'P' !in tail && tail != [] && tail[0] != 'T'
    ensures forall j :: 0 <= j < |"P" + tail| ==> !PTAt("P" + tail, j)
  {
    var x := "P" + tail;
    forall j | 0 <= j < |x| ensures !PTAt(x, j) {
      if j > 0 { assert x[j] == tail[j - 1]; }
    }
  }

  lemma NoPInTimeParts(h: Option<nat>, m: Option<nat>, s: Option<nat>)
    ensures 'P' !in TimeParts(h, m, s)
  {
    NoPInPart(h, 'H');
    NoPInPart(m, 'M');
    NoPInPart(s, 'S');
  }

  lemma NoPInPart(n: Option<nat>, u: char)
    requires u != 'P'
    ensures 'P' !in Part(n, u)
  {
    if n.Some? {
      assert 'P' !in Dec(n.value);
    }
  }

  // ---------------------------------------------------------------------
  // formatViewCount
  // ---------------------------------------------------------------------

  predicate IsHexDigit(c: char) {
    IsDigit(c) || ('a' <= c <= 'f') || ('A' <= c <= 'F')
  }

  function HexValue(c: char): (d: nat)
    requires IsHexDigit(c)
    ensures d < 16
  {
    if IsDigit(c) then DigitValue(c)
    else if 'a' <= c <= 'f' then c as int - 'a' as int + 10
    else c as int - 'A' as int + 10
  }

  /** The length of the run of hexadecimal digits at the start of `s`. */
  function HexRun(s: string): (k: nat)
    ensures k <= |s| && forall i :: 0 <= i < k ==> IsHexDigit(s[i])
  {
    if s != [] && IsHexDigit(s[0]) then 1 + HexRun(s[1..]) else 0
  }

  function ParseHex(s: string): nat
    requires forall i :: 0 <= i < |s| ==> IsHexDigit(s[i])
  {
    if s == [] then 0 else ParseHex(s[..|s| - 1]) * 16 + HexValue(s[|s| - 1])
  }

  /**
   * `parseInt(s)` with no radix, on integers: leading whitespace is skipped,
   * one sign is read, a "0x"/"0X" prefix selects hexadecimal, and the longest
   * run of digits is read; None stands for NaN (no digits at all).
   */
  function ParseInt(s: string): (r: Option<int>)
  {
    var t := TrimStart(s);
    var negative := t != [] && t[0] == '-';
    var u := if t != [] && (t[0] == '-' || t[0] == '+') then t[1..] else t;
    var magnitude: Option<nat> :=
      if |u| >= 2 && u[0] == '0' && (u[1] == 'x' || u[1] == 'X') then
        var k := HexRun(u[2..]);
        if k == 0 then None else Some(ParseHex(u[2..][..k]))
      else
        var k := DigitRun(u);
        if k == 0 then None else Some(ParseNat(u[..k]));
    match magnitude
    case None => None
    case Some(n) =>
      var v: int := if negative then 0 - n as int else n as int;
      Some(v)
  }

  /** The decimal text of a number written in base 10 reads back as that number. */
  lemma ParseIntDec(n: nat)
    ensures ParseInt(Dec(n)) == Some(n)
  {
    var d := Dec(n);
    assert !IsJsWhitespace(d[0]);
    assert TrimStart(d) == d;
    DigitRunOf(d, "");
    assert d + "" == d && d[..|d|] == d;
    ParseDec(n);
  }

  /** `n.toString()` for an integer. */
  function IntText(n: int): string {
    if n < 0 then "-" + Dec(-n) else Dec(n)
  }

  /**
   * The text of `q / 10` as JavaScript prints a number: the whole part, and a
   * decimal point and the tenths digit only when that digit is not 0.
   */
  function Tenths(q: nat): (r: string)
    ensures |r| >= 1 && r[|r| - 1] != '.'
    ensures |r| >= 2 && r[|r| - 2] == '.' ==> r[|r| - 1] != '0'
  {
    if q % 10 == 0 then Dec(q / 10) else Dec(q / 10) + "." + [DigitChar(q % 10)]
  }

  /** Reads "a" or "a.b" back as a number of tenths. */
  function ReadTenths(r: string): Option<nat> {
    if |r| >= 2 && r[|r| - 2] == '.' && IsDigit(r[|r| - 1]) && AllDigits(r[..|r| - 2]) then
      Some(ParseNat(r[..|r| - 2]) * 10 + DigitValue(r[|r| - 1]))
    else if AllDigits(r) then Some(ParseNat(r) * 10)
    else None
  }

  /** The printed tenths read back as the number printed: no precision is lost and none is invented. */
  lemma TenthsReadBack(q: nat)
    ensures ReadTenths(Tenths(q)) == Some(q)
  {
    var w, d := q / 10, q % 10;
    assert q == w * 10 + d;
    ParseDec(w);
    if d != 0 {
      ReadTenthsFraction(Dec(w), DigitChar(d));
    } else {
      ReadTenthsWhole(Dec(w));
    }
  }

  /** "a.b" with a digit after the point reads as a * 10 + b tenths. */
  lemma ReadTenthsFraction(w: string, c: char)
    requires AllDigits(w) && IsDigit(c)
    ensures ReadTenths(w + "." + [c]) == Some(ParseNat(w) * 10 + DigitValue(c))
  {
    var r := w + "." + [c];
    assert r[|r| - 2] == '.' && r[|r| - 1] == c;
    assert r[..|r| - 2] == w;
  }

  /** A run of digits reads as that many whole units, ten tenths each. */
  lemma ReadTenthsWhole(w: string)
    requires AllDigits(w)
    ensures ReadTenths(w) == Some(ParseNat(w) * 10)
  {
    if |w| >= 2 {
      assert IsDigit(w[|w| - 2]);
    }
  }

  /**
   * `formatViewCount`: NaN when the text holds no number; millions truncated
   * to one decimal with "M" from 1,000,000 on; thousands the same way with
   * "K" from 1,000 on; the plain number below that.
   */
  function FormatViewCount(viewCount: string): string {
    match ParseInt(viewCount)
    case None => "NaN"
    case Some(count) =>
      if count >= 1000000 then Tenths(count / 100000) + "M"
      else if count >= 1000 then Tenths(count / 100) + "K"
      else IntText(count)
  }

  /**
   * For a count written in decimal, the abbreviation truncates: the tenths of
   * a million (or of a thousand) it shows, read back, are at most the count
   * and less than one tenth below it. Negative counts and texts with
   * whitespace, a sign or a hexadecimal prefix are covered only by the
   * definition of `ParseInt`.
   */
  lemma FormatViewCountTruncates(count: nat)
    ensures count >= 1000000 ==>
              exists t :: FormatViewCount(Dec(count)) == t + "M" && ReadTenths(t) == Some(count / 100000)
                          && (count / 100000) * 100000 <= count < (count / 100000 + 1) * 100000
    ensures 1000 <= count < 1000000 ==>
              exists t :: FormatViewCount(Dec(count)) == t + "K" && ReadTenths(t) == Some(count / 100)
                          && (count / 100) * 100 <= count < (count / 100 + 1) * 100
    ensures count < 1000 ==> FormatViewCount(Dec(count)) == Dec(count)
  {
    ParseIntDec(count);
    if count >= 1000000 {
      TenthsReadBack(count / 100000);
      assert FormatViewCount(Dec(count)) == Tenths(count / 100000) + "M";
    } else if count >= 1000 {
      TenthsReadBack(count / 100);
      assert FormatViewCount(Dec(count)) == Tenths(count / 100) + "K";
    }
  }

  /**
   * Text that holds no number is shown as "NaN": after the leading
   * whitespace and at most one sign, nothing or a non-digit follows.
   */
  lemma FormatViewCountNaN(s: string)
    requires var t := TrimStart(s);
             var u := if t != [] && (t[0] == '-' || t[0] == '+') then t[1..] else t;
             u == [] || !IsDigit(u[0])
    ensures FormatViewCount(s) == "NaN"
  {
  }

  // ---------------------------------------------------------------------
  // Search queries
  // ---------------------------------------------------------------------

  /** The lookup table from content elements to English search terms, in the order it is written. */
  const ElementTable: seq<(string, string)> := [
      ("힘", "force"),
      ("운동", "motion"),
      ("운동량", "momentum"),
      ("관성", "inertia"),
      ("관성력", "fictitious force"),
      ("탄성력", "restoring force"),
      ("가속도", "acceleration"),
      ("중력가속도", "gravitational acceleration"),
      ("평형", "equilibrium"),
      ("에너지", "energy"),
      ("위치에너지", "potential energy"),
      ("탄성에너지", "elastic potential energy"),
      ("운동에너지", "kinetic energy"),
      ("전기", "electricity"),
      ("전류", "electric current"),
      ("자기", "magnetism"),
      ("자기장", "magnetic field"),
      ("전기장", "electric field"),
      ("파동", "wave"),
      ("빛", "light"),
      ("빛의 세기", "intensity of light"),
      ("소리", "sound"),
      ("온도", "temperature"),
      ("열", "heat"),
      ("압력", "pressure"),
      ("속도", "velocity"),
      ("속력", "speed"),
      ("질량", "mass"),
      ("부피", "volume"),
      ("밀도", "density"),
      ("전압", "voltage"),
      ("저항", "resistance"),
      ("옴의 법칙", "ohms law"),
      ("쿨롱의 법칙", "coulombs law"),
      ("패러데이 법칙", "faradays law"),
      ("뉴턴의 법칙", "newtons laws"),
      ("뉴턴의 운동 법칙", "newtons laws of motion"),
      ("만유인력의 법칙", "law of universal gravitation"),
      ("훅의 법칙", "hookes law"),
      ("베르누이 정리", "bernoulli principle"),
      ("아르키메데스 원리", "archimedes principle"),
      ("도플러 효과", "doppler effect"),
      ("원자", "atom"),
      ("분자", "molecule"),
      ("이온", "ion"),
      ("원소", "element"),
      ("화합물", "compound"),
      ("반응", "reaction"),
      ("산화", "oxidation"),
      ("환원", "reduction"),
      ("중화", "neutralization"),
      ("용해", "dissolution"),
      ("결정", "crystal"),
      ("촉매", "catalyst"),
      ("pH", "pH"),
      ("산", "acid"),
      ("염기", "base"),
      ("염", "salt"),
      ("세포", "cell"),
      ("광합성", "photosynthesis"),
      ("호흡", "respiration"),
      ("효소", "enzyme"),
      ("DNA", "DNA"),
      ("RNA", "RNA"),
      ("단백질", "protein"),
      ("유전", "genetics"),
      ("진화", "evolution"),
      ("생태계", "ecosystem"),
      ("환경", "environment"),
      ("지구", "earth"),
      ("대기", "atmosphere"),
      ("날씨", "weather"),
      ("기후", "climate"),
      ("지진", "earthquake"),
      ("화산", "volcano"),
      ("암석", "rock"),
      ("광물", "mineral"),
      ("태양계", "solar system"),
      ("별", "star"),
      ("행성", "planet"),
      ("실험", "experiment"),
      ("관찰", "observation"),
      ("측정", "measurement"),
      ("분석", "analysis"),
      ("탐구", "inquiry"),
      ("가설", "hypothesis"),
      ("변인", "variable"),
      ("대조군", "control group"),
      ("실험군", "experimental group")
  ]

  /**
   * The entry for `key` in `table`, if it has one; when a key is written
   * twice in an object literal, the later entry is the one that counts.
   */
  function Lookup(table: seq<(string, string)>, key: string): (r: Option<string>)
    ensures r.Some? <==> exists i :: 0 <= i < |table| && table[i].0 == key
    ensures r.Some? ==> exists i :: 0 <= i < |table| && table[i] == (key, r.value)
  {
    if table == [] then None
    else if table[|table| - 1].0 == key then
      assert table[|table| - 1] == (key, table[|table| - 1].1);
      Some(table[|table| - 1].1)
    else
      var r := Lookup(table[..|table| - 1], key);
      assert forall i :: 0 <= i < |table| - 1 ==> table[..|table| - 1][i] == table[i];
      r
  }

  /** A JavaScript string value that is falsy: absent or empty. */
  predicate Falsy(s: Option<string>) {
    s.None? || s.value == ""
  }

  /**
   * The English term the curriculum search is built around: the first
   * selected element through the lookup table, else its translation (None
   * when the translation request fails), else the element itself;
   * "general science" when no element is selected.
   */
  function SearchTerm(elements: seq<string>, translation: Option<string>): string {
    if elements == [] then "general science"
    else match Lookup(ElementTable, elements[0])
      case Some(term) => term
      case None => translation.GetOr(elements[0])
  }

  /** The query text around a search term. */
  function TermQuery(term: string): string {
    "science " + term + " experiment education"
  }

  /** The term inside a query built by `TermQuery`. */
  function QueryTerm(query: string): string
    requires |query| >= 29
  {
    query[8..|query| - 21]
  }

  /** The term can always be read back out of the query built around it. */
  lemma QueryTermOfTermQuery(term: string)
    ensures |TermQuery(term)| >= 29 && QueryTerm(TermQuery(term)) == term
  {
    var q := TermQuery(term);
    assert q == "science " + (term + " experiment education");
    assert q[8..] == term + " experiment education";
    assert q[8..|q| - 21] == q[8..][..|term|];
  }

  /**
   * The query `loadCurriculumVideos` builds for a curriculum, or None when the
   * curriculum has a falsy subject or unit (the search is then not started).
   */
  function BaseQuery(c: Store.Curriculum, translation: Option<string>): (r: Option<string>)
    ensures r.None? <==> Falsy(c.subject) || Falsy(c.unit)
    ensures r.Some? ==> |r.value| >= 29 && QueryTerm(r.value) == SearchTerm(c.selectedElements, translation)
  {
    if Falsy(c.subject) || Falsy(c.unit) then None
    else
      QueryTermOfTermQuery(SearchTerm(c.selectedElements, translation));
      Some(TermQuery(SearchTerm(c.selectedElements, translation)))
  }

  /** An element in the lookup table is searched by its table entry, and the translation is never used. */
  lemma MappedElementIgnoresTranslation(elements: seq<string>, t1: Option<string>, t2: Option<string>)
    requires elements != [] && Lookup(ElementTable, elements[0]).Some?
    ensures SearchTerm(elements, t1) == SearchTerm(elements, t2) == Lookup(ElementTable, elements[0]).value
  {
  }

  /** An element outside the table is searched by its translation, or by itself when translation fails. */
  lemma UnmappedElementFallsBack(elements: seq<string>, translated: string)
    requires elements != [] && Lookup(ElementTable, elements[0]).None?
    ensures SearchTerm(elements, Some(translated)) == translated
    ensures SearchTerm(elements, None) == elements[0]
  {
  }

  /** Only the first selected element shapes the term. */
  lemma OnlyFirstElementCounts(elements: seq<string>, more: seq<string>, translation: Option<string>)
    requires elements != []
    ensures SearchTerm(elements + more, translation) == SearchTerm(elements[..1], translation)
  {
    assert (elements + more)[0] == elements[..1][0];
  }

  /** The table entry for "실험군" is "experimental group". */
  lemma ExperimentalGroupLookup()
    ensures Lookup(ElementTable, "실험군") == Some("experimental group")
  {
  }

  /**
   * The query `handleSearch` runs: None (an error is shown) when there is no
   * base query; the base query for blank input; otherwise the base query, a
   * space and the trimmed input.
   */
  function SearchQuery(baseQuery: string, input: string): (r: Option<string>)
    ensures r.None? <==> baseQuery == ""
    ensures r.Some? && IsBlank(input) ==> r.value == baseQuery
    ensures r.Some? && !IsBlank(input) ==>
              |r.value| > |baseQuery| + 1 && r.value[..|baseQuery|] == baseQuery
              && r.value[|baseQuery|] == ' ' && r.value[|baseQuery| + 1..] == Trim(input)
  {
    var userQuery := Trim(input);
    if userQuery == "" then
      if baseQuery == "" then None else Some(baseQuery)
    else
      if baseQuery == "" then None
      else
        var q := baseQuery + " " + userQuery;
        assert q[..|baseQuery|] == baseQuery && q[|baseQuery| + 1..] == userQuery;
        Some(q)
  }

  /** The query a filter tag runs: None without a base query, else the base query, a space and the filter. */
  function FilterQuery(baseQuery: string, filter: string): (r: Option<string>)
    ensures r.None? <==> baseQuery == ""
    ensures r.Some? ==> |r.value| == |baseQuery| + 1 + |filter| && r.value[..|baseQuery|] == baseQuery
                        && r.value[|baseQuery|] == ' ' && r.value[|baseQuery| + 1..] == filter
  {
    if baseQuery == "" then None
    else
      var q := baseQuery + " " + filter;
      assert q[..|baseQuery|] == baseQuery && q[|baseQuery| + 1..] == filter;
      Some(q)
  }

  // ---------------------------------------------------------------------
  // Search and paging state
  // ---------------------------------------------------------------------

  /** One search request: the query, the page size and the page token. */
  datatype SearchRequest = SearchRequest(query: string, maxResults: nat, pageToken: string)

  /**
   * What the search request comes back with: a page of items and the next
   * page token, a reported failure, or an exception with its message.
   */
  datatype SearchResponse =
    | Success(items: Option<seq<Store.Video>>, nextPageToken: Option<string>)
    | Failure(error: Option<string>)
    | Thrown(message: string)

  const VideosPerPage: nat := 12
  const SearchFailed := "영상 검색 중 오류가 발생했습니다."
  const LoadFailed := "영상을 불러오는 중 오류가 발생했습니다."
  const NoBaseQuery := "교육과정 기반 검색어가 설정되지 않았습니다. 잠시 후 다시 시도해주세요."
  const NoCurriculum := "교육과정 정보를 찾을 수 없습니다. 실험 설계안 탭에서 교육과정을 먼저 선택해주세요."

  /** The message shown for a response that is not a success; never empty. */
  function ErrorMessage(response: SearchResponse): (m: string)
    requires !response.Success?
    ensures m != ""
    ensures response.Failure? && !Falsy(response.error) ==> m == response.error.value
    ensures response.Thrown? && response.message != "" ==> m == response.message
    ensures response.Failure? && Falsy(response.error) ==> m == SearchFailed
    ensures response.Thrown? && response.message == "" ==> m == LoadFailed
  {
    match response
    case Failure(e) => if Falsy(e) then SearchFailed else e.value
    case Thrown(msg) => if msg == "" then LoadFailed else msg
  }

  /** The search and paging state of the video tab. */
  class VideoRecommendationTab {
    var videos: seq<Store.Video>
    var originalVideos: seq<Store.Video>
    var currentQuery: string
    var baseQuery: string
    var nextPageToken: string
    var isLoading: bool
    var hasMoreVideos: bool
    var currentFilter: string
    /** The search requests sent, in order. */
    var requests: seq<SearchRequest>
    /** The message in the error box, when it is showing. */
    var errorShown: Option<string>

    /** The shown and the unfiltered lists are the same, and no more pages are expected only when there is no token. */
    ghost predicate Valid()
      reads this
    {
      videos == originalVideos && (!hasMoreVideos ==> nextPageToken == "")
    }

    constructor ()
      ensures Valid()
      ensures videos == [] && originalVideos == [] && currentQuery == "" && baseQuery == ""
      ensures nextPageToken == "" && !isLoading && hasMoreVideos && currentFilter == ""
      ensures requests == [] && errorShown == None
    {
      videos := [];
      originalVideos := [];
      currentQuery := "";
      baseQuery := "";
      nextPageToken := "";
      isLoading := false;
      hasMoreVideos := true;
      currentFilter := "";
      requests := [];
      errorShown := None;
    }

    /**
     * The state a search for `query` leaves behind, given the response to its
     * one request: the query is current, the filter is cleared, the lists hold
     * the first page (or nothing, with the message shown) and loading is over.
     */
    ghost predicate Searched(query: string, response: SearchResponse, requests0: seq<SearchRequest>, baseQuery0: string)
      reads this
    {
      && !isLoading && currentQuery == query && currentFilter == "" && baseQuery == baseQuery0
      && requests == requests0 + [SearchRequest(query, VideosPerPage, "")]
      && (response.Success? ==>
            && videos == response.items.GetOr([]) && originalVideos == videos
            && nextPageToken == response.nextPageToken.GetOr("")
            && (hasMoreVideos <==> nextPageToken != "")
            && errorShown == None)
      && (!response.Success? ==>
            && videos == [] && originalVideos == [] && nextPageToken == "" && hasMoreVideos
            && errorShown == Some(ErrorMessage(response)))
    }

    /** Only the error box changed, and it now shows `m`. */
    twostate predicate ShowedError(m: string)
      reads this
    {
      && errorShown == Some(m)
      && videos == old(videos) && originalVideos == old(originalVideos)
      && currentQuery == old(currentQuery) && baseQuery == old(baseQuery)
      && nextPageToken == old(nextPageToken) && isLoading == old(isLoading)
      && hasMoreVideos == old(hasMoreVideos) && currentFilter == old(currentFilter)
      && requests == old(requests)
    }

    /** The guard of `loadMoreVideos`, which the infinite-scroll trigger also checks. */
    predicate CanLoadMore()
      reads this
    {
      !isLoading && hasMoreVideos && currentQuery != ""
    }

    /** `loadVideos` up to its `await`: loading starts, the error box is hidden and the request goes out. */
    method BeginLoad()
      modifies this
      requires Valid()
      ensures Valid()
      ensures isLoading && errorShown == None
      ensures requests == old(requests) + [SearchRequest(currentQuery, VideosPerPage, nextPageToken)]
      ensures videos == old(videos) && originalVideos == old(originalVideos)
      ensures nextPageToken == old(nextPageToken) && hasMoreVideos == old(hasMoreVideos)
      ensures currentQuery == old(currentQuery) && baseQuery == old(baseQuery) && currentFilter == old(currentFilter)
    {
      isLoading := true;
      errorShown := None;
      requests := requests + [SearchRequest(currentQuery, VideosPerPage, nextPageToken)];
    }

    /**
     * `loadVideos` after its `await`: a page is appended to both lists and
     * sets the token; anything else shows its message and changes no list;
     * loading ends either way.
     */
    method FinishLoad(response: SearchResponse)
      modifies this
      requires Valid()
      ensures Valid()
      ensures !isLoading
      ensures response.Success? ==>
                && videos == old(videos) + response.items.GetOr([])
                && originalVideos == old(originalVideos) + response.items.GetOr([])
                && nextPageToken == response.nextPageToken.GetOr("")
                && (hasMoreVideos <==> nextPageToken != "")
                && errorShown == old(errorShown)
      ensures !response.Success? ==>
                && videos == old(videos) && originalVideos == old(originalVideos)
                && nextPageToken == old(nextPageToken) && hasMoreVideos == old(hasMoreVideos)
                && errorShown == Some(ErrorMessage(response))
      ensures currentQuery == old(currentQuery) && baseQuery == old(baseQuery) && currentFilter == old(currentFilter)
      ensures requests == old(requests)
    {
      isLoading := false;
      match response
      case Success(items, token) =>
        var newVideos := items.GetOr([]);
        videos := videos + newVideos;
        originalVideos := originalVideos + newVideos;
        nextPageToken := token.GetOr("");
        hasMoreVideos := nextPageToken != "";
      case _ =>
        errorShown := Some(ErrorMessage(response));
    }

    /** `loadVideos`, run to completion with the response the request gets. */
    method LoadVideos(response: SearchResponse)
      modifies this
      requires Valid()
      ensures Valid()
      ensures !isLoading
      ensures requests == old(requests) + [SearchRequest(currentQuery, VideosPerPage, old(nextPageToken))]
      ensures response.Success? ==>
                && videos == old(videos) + response.items.GetOr([])
                && originalVideos == old(originalVideos) + response.items.GetOr([])
                && nextPageToken == response.nextPageToken.GetOr("")
                && (hasMoreVideos <==> nextPageToken != "")
                && errorShown == None
      ensures !response.Success? ==>
                && videos == old(videos) && originalVideos == old(originalVideos)
                && nextPageToken == old(nextPageToken) && hasMoreVideos == old(hasMoreVideos)
                && errorShown == Some(ErrorMessage(response))
      ensures currentQuery == old(currentQuery) && baseQuery == old(baseQuery) && currentFilter == old(currentFilter)
    {
      BeginLoad();
      FinishLoad(response);
    }

    /**
     * `performSearch`: ignored while a load is running; otherwise the query
     * becomes current, the lists, token, filter and error box are reset and
     * the first page is loaded.
     */
    method PerformSearch(query: string, response: SearchResponse)
      modifies this
      requires Valid()
      ensures Valid()
      ensures old(isLoading) ==> unchanged(this)
      ensures !old(isLoading) ==> Searched(query, response, old(requests), old(baseQuery))
    {
      if isLoading {
        return;
      }
      currentQuery := query;
      videos := [];
      originalVideos := [];
      nextPageToken := "";
      hasMoreVideos := true;
      currentFilter := "";
      errorShown := None;
      LoadVideos(response);
      if response.Success? {
        assert [] + response.items.GetOr([]) == response.items.GetOr([]);
      }
    }

    /** `loadMoreVideos`: no request at all unless the guard holds; otherwise the next page is loaded. */
    method LoadMoreVideos(response: SearchResponse)
      modifies this
      requires Valid()
      ensures Valid()
      ensures !old(CanLoadMore()) ==> unchanged(this)
      ensures old(CanLoadMore()) ==>
                && !isLoading && currentQuery == old(currentQuery) && baseQuery == old(baseQuery)
                && currentFilter == old(currentFilter)
                && requests == old(requests) + [SearchRequest(old(currentQuery), VideosPerPage, old(nextPageToken))]
                && (response.Success? ==>
                      && videos == old(videos) + response.items.GetOr([])
                      && originalVideos == old(originalVideos) + response.items.GetOr([])
                      && nextPageToken == response.nextPageToken.GetOr("")
                      && (hasMoreVideos <==> nextPageToken != "")
                      && errorShown == None)
                && (!response.Success? ==>
                      && videos == old(videos) && originalVideos == old(originalVideos)
                      && nextPageToken == old(nextPageToken) && hasMoreVideos
                      && errorShown == Some(ErrorMessage(response)))
    {
      if isLoading || !hasMoreVideos || currentQuery == "" {
        return;
      }
      LoadVideos(response);
    }

    /** `handleSearch`: the combined query is searched, or the missing-base-query message is shown. */
    method HandleSearch(input: string, response: SearchResponse)
      modifies this
      requires Valid()
      ensures Valid()
      ensures SearchQuery(old(baseQuery), input).None? ==> ShowedError(NoBaseQuery)
      ensures SearchQuery(old(baseQuery), input).Some? && old(isLoading) ==> unchanged(this)
      ensures SearchQuery(old(baseQuery), input).Some? && !old(isLoading) ==>
                Searched(SearchQuery(old(baseQuery), input).value, response, old(requests), old(baseQuery))
    {
      match SearchQuery(baseQuery, input)
      case None =>
        errorShown := Some(NoBaseQuery);
      case Some(q) =>
        PerformSearch(q, response);
    }

    /** A click on a filter tag: the base query and the filter are searched, or the missing-base-query message is shown. */
    method ApplyFilter(filter: string, response: SearchResponse)
      modifies this
      requires Valid()
      ensures Valid()
      ensures old(baseQuery) == "" ==> ShowedError(NoBaseQuery)
      ensures old(baseQuery) != "" && old(isLoading) ==> unchanged(this)
      ensures old(baseQuery) != "" && !old(isLoading) ==>
                Searched(old(baseQuery) + " " + filter, response, old(requests), old(baseQuery))
    {
      match FilterQuery(baseQuery, filter)
      case None =>
        errorShown := Some(NoBaseQuery);
      case Some(q) =>
        PerformSearch(q, response);
    }

    /**
     * `loadCurriculumVideos`: without a subject or unit the search is not
     * started and the curriculum message is shown; otherwise the query becomes
     * the base query and is searched (a load already running leaves all but
     * the base query as it was).
     */
    method LoadCurriculumVideos(curriculum: Store.Curriculum, translation: Option<string>, response: SearchResponse)
      modifies this
      requires Valid()
      ensures Valid()
      ensures BaseQuery(curriculum, translation).None? ==> ShowedError(NoCurriculum)
      ensures BaseQuery(curriculum, translation).Some? && old(isLoading) ==>
                && baseQuery == BaseQuery(curriculum, translation).value
                && videos == old(videos) && originalVideos == old(originalVideos)
                && currentQuery == old(currentQuery) && nextPageToken == old(nextPageToken)
                && isLoading && hasMoreVideos == old(hasMoreVideos) && currentFilter == old(currentFilter)
                && requests == old(requests) && errorShown == old(errorShown)
      ensures BaseQuery(curriculum, translation).Some? && !old(isLoading) ==>
                var q := BaseQuery(curriculum, translation).value;
                Searched(q, response, old(requests), q)
    {
      match BaseQuery(curriculum, translation)
      case None =>
        errorShown := Some(NoCurriculum);
      case Some(q) =>
        baseQuery := q;
        PerformSearch(q, response);
    }
  }
}
