/**
 * `DashboardHeader`'s `formatLastUpdate`: how long ago the stats were stamped,
 * in whole minutes or whole hours, or the date itself once a day has passed.
 * The difference `now - lastUpdateTime` in milliseconds and the locale's date
 * label are parameters.
 */
module Header {

  import opened JsText

  const MINUTE_MS: int := 1000 * 60
  const HOUR_MS: int := 60 * MINUTE_MS
  const DAY_MS: int := 24 * HOUR_MS

  const JUST_NOW: Text := Lit("Just now")
  const MINUTES_SUFFIX: Text := Lit("m ago")
  const HOURS_SUFFIX: Text := Lit("h ago")

  /**
   * The label as the component computes it. `Math.floor(diffMs / 60000)` is
   * Dafny's `/` here: for a positive divisor both round towards minus infinity.
   */
  function FormatLastUpdate(diffMs: int, dateLabel: Text): (shown: Text)
  {
    var diffMins := diffMs / MINUTE_MS;
    if diffMins < 1 then JUST_NOW
    else if diffMins < 60 then Decimal(diffMins) + MINUTES_SUFFIX
    else
      var diffHours := diffMins / 60;
      if diffHours < 24 then Decimal(diffHours) + HOURS_SUFFIX
      else dateLabel
  }

  // ------------------------------------------------------------ reference

  /** The four kinds of label, with the number a relative label shows. */
  datatype Age = JustNow | Minutes(m: nat) | Hours(h: nat) | OnDate

  /** The age of a difference, read off the millisecond ranges directly. */
  function AgeOf(diffMs: int): (a: Age)
    ensures a.JustNow? <==> diffMs < MINUTE_MS
    ensures a.Minutes? <==> MINUTE_MS <= diffMs < HOUR_MS
    ensures a.Hours? <==> HOUR_MS <= diffMs < DAY_MS
    ensures a.OnDate? <==> DAY_MS <= diffMs
    ensures a.Minutes? ==> 1 <= a.m <= 59 && a.m * MINUTE_MS <= diffMs < (a.m + 1) * MINUTE_MS
    ensures a.Hours? ==> 1 <= a.h <= 23 && a.h * HOUR_MS <= diffMs < (a.h + 1) * HOUR_MS
  {
    if diffMs < MINUTE_MS then JustNow
    else if diffMs < HOUR_MS then Minutes(diffMs / MINUTE_MS)
    else if diffMs < DAY_MS then Hours(diffMs / HOUR_MS)
    else OnDate
  }

  /** The text of an age. */
  function AgeText(a: Age, dateLabel: Text): Text
  {
    match a
    case JustNow => JUST_NOW
    case Minutes(m) => Decimal(m) + MINUTES_SUFFIX
    case Hours(h) => Decimal(h) + HOURS_SUFFIX
    case OnDate => dateLabel
  }

  /** Whole hours of whole minutes are whole hours: flooring twice is flooring once. */
  lemma {:induction false} HoursOfMinutes(diffMs: int)
    ensures (diffMs / MINUTE_MS) / 60 == diffMs / HOUR_MS
  {
    var m, h := diffMs / MINUTE_MS, (diffMs / MINUTE_MS) / 60;
    assert m * MINUTE_MS <= diffMs < (m + 1) * MINUTE_MS;
    assert h * 60 <= m < (h + 1) * 60;
    assert h * HOUR_MS <= m * MINUTE_MS;
    assert (m + 1) * MINUTE_MS <= (h + 1) * HOUR_MS;
  }

  /** The component's nested floors pick the same label as the millisecond ranges. */
  lemma {:induction false} FormatMatchesAge(diffMs: int, dateLabel: Text)
    ensures FormatLastUpdate(diffMs, dateLabel) == AgeText(AgeOf(diffMs), dateLabel)
  {
    var mins := diffMs / MINUTE_MS;
    assert mins * MINUTE_MS <= diffMs < (mins + 1) * MINUTE_MS;
    if diffMs < MINUTE_MS {
      assert mins < 1;
    } else if diffMs < HOUR_MS {
      assert 1 <= mins < 60;
    } else {
      HoursOfMinutes(diffMs);
      var hours := mins / 60;
      assert 60 <= mins && hours == diffMs / HOUR_MS;
      assert hours < 24 <==> diffMs < DAY_MS;
    }
  }

  /** A timestamp in the future, or less than a minute old, reads "Just now". */
  lemma FutureIsJustNow(diffMs: int, dateLabel: Text)
    requires diffMs < MINUTE_MS
    ensures FormatLastUpdate(diffMs, dateLabel) == JUST_NOW
  {
  }

  /** The rank of an age: the labels come in this order as the timestamp gets older. */
  function Rank(a: Age): nat
  {
    match a
    case JustNow => 0
    case Minutes(_) => 1
    case Hours(_) => 2
    case OnDate => 3
  }

  /** An older timestamp never gets an earlier kind of label, nor a smaller number within the same kind. */
  lemma AgeMonotone(d1: int, d2: int)
    requires d1 <= d2
    ensures Rank(AgeOf(d1)) <= Rank(AgeOf(d2))
    ensures AgeOf(d1).Minutes? && AgeOf(d2).Minutes? ==> AgeOf(d1).m <= AgeOf(d2).m
    ensures AgeOf(d1).Hours? && AgeOf(d2).Hours? ==> AgeOf(d1).h <= AgeOf(d2).h
  {
  }

  /** Every label of a relative kind can be read back: the digits before the suffix are the number of minutes or hours. */
  lemma {:induction false} LabelReadsBack(diffMs: int, dateLabel: Text)
    ensures AgeOf(diffMs).Minutes? ==>
      var shown := FormatLastUpdate(diffMs, dateLabel);
      shown[|shown| - |MINUTES_SUFFIX|..] == MINUTES_SUFFIX
      && DigitsValue(shown[..|shown| - |MINUTES_SUFFIX|]) == diffMs / MINUTE_MS
    ensures AgeOf(diffMs).Hours? ==>
      var shown := FormatLastUpdate(diffMs, dateLabel);
      shown[|shown| - |HOURS_SUFFIX|..] == HOURS_SUFFIX
      && DigitsValue(shown[..|shown| - |HOURS_SUFFIX|]) == diffMs / HOUR_MS
  {
    FormatMatchesAge(diffMs, dateLabel);
    var a := AgeOf(diffMs);
    var shown := FormatLastUpdate(diffMs, dateLabel);
    if a.Minutes? {
      DecimalRoundTrip(a.m);
      assert shown[..|shown| - |MINUTES_SUFFIX|] == Decimal(a.m);
    } else if a.Hours? {
      DecimalRoundTrip(a.h);
      assert shown[..|shown| - |HOURS_SUFFIX|] == Decimal(a.h);
    }
  }
}
