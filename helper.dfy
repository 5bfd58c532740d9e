/**
 * `Helper.formatTime(minutes:)`: a travel time in minutes as the text the
 * assistant puts into its store reply, and a reader that gets the minutes
 * back from that text.
 */
module Helper {
  import opened Wrappers
  import opened Text

  /** The plural ending of a unit: none for a count of exactly one. */
  function Plural(count: int): string
  {
    if count == 1 then "" else "s"
  }

  /** `count` followed by the unit, singular exactly when the count is 1. */
  function Quantity(count: int, unit: string): string
  {
    IntToString(count) + " " + unit + Plural(count)
  }

  /** `formatTime(minutes:)`: below an hour in minutes, otherwise in hours and, when not whole, minutes. */
  function FormatTime(minutes: int): string
  {
    if minutes < 60 then Quantity(minutes, "min") else InHours(minutes)
  }

  /** The hours branch: whole hours, followed by the remaining minutes when there are any. */
  function InHours(minutes: int): string
  {
    var hours := minutes / 60;
    var remainingMinutes := minutes % 60;
    if remainingMinutes == 0 then Quantity(hours, "hour")
    else Quantity(hours, "hour") + " " + Quantity(remainingMinutes, "min")
  }

  /** Splits a leading decimal numeral off the text: its value and what follows it. */
  function ReadCount(text: string): Option<(nat, string)>
  {
    var k := LeadingDigits(text);
    if k == 0 then None else Some((ParseNat(text[..k]), text[k..]))
  }

  predicate IsMinutesUnit(unit: string)
  {
    unit == " min" || unit == " mins"
  }

  /** What may follow the hour count: the hour unit alone, or the hour unit, a space and the minutes. */
  function ReadAfterHours(hours: nat, unit: string): Option<int>
  {
    if unit == " hour" || unit == " hours" then Some(hours * 60)
    else
      var rest :=
        if |unit| >= 7 && unit[..7] == " hours " then Some(unit[7..])
        else if |unit| >= 6 && unit[..6] == " hour " then Some(unit[6..])
        else None;
      match rest
      case None => None
      case Some(tail) =>
        match ReadCount(tail)
        case Some((r, minutesUnit)) => if IsMinutesUnit(minutesUnit) then Some(hours * 60 + r) else None
        case None => None
  }

  /** Reads back a duration in the form `FormatTime` writes. */
  function ParseDuration(text: string): Option<int>
  {
    if |text| > 0 && text[0] == '-' then
      match ReadCount(text[1..])
      case Some((n, unit)) => if IsMinutesUnit(unit) then Some(-(n as int)) else None
      case None => None
    else
      match ReadCount(text)
      case Some((n, unit)) => if IsMinutesUnit(unit) then Some(n) else ReadAfterHours(n, unit)
      case None => None
  }

  /** A numeral followed by text that starts with a non-digit splits back into its value and that text. */
  lemma SplitNumeral(n: nat, rest: string)
    requires rest == [] || !IsDigit(rest[0])
    ensures ReadCount(NatToString(n) + rest) == Some((n, rest))
  {
    var d := NatToString(n);
    LeadingDigitsOfNumeral(d, rest);
    assert (d + rest)[..|d|] == d;
    assert (d + rest)[|d|..] == rest;
    ParseNatToString(n);
  }

  /** A quantity is the numeral of its count followed by the spaced unit and its ending. */
  lemma QuantityText(count: int, unit: string)
    ensures Quantity(count, unit) == IntToString(count) + (" " + unit + Plural(count))
  {
    var n := IntToString(count);
    assert n + " " + unit + Plural(count) == n + (" " + unit + Plural(count));
  }

  /** A negative duration prints as a minus sign, its magnitude and the plural minutes unit. */
  lemma NegativeText(n: nat)
    requires n > 0
    ensures FormatTime(-(n as int)) == "-" + (NatToString(n) + " mins")
  {
    var digits := NatToString(n);
    assert Quantity(-(n as int), "min") == "-" + digits + " " + "min" + "s";
    assert "-" + digits + " " + "min" + "s" == "-" + (digits + " mins");
  }

  /** A minus sign, a numeral and a minutes unit read back as the negated count. */
  lemma ReadNegative(n: nat, unit: string)
    requires IsMinutesUnit(unit)
    ensures ParseDuration("-" + (NatToString(n) + unit)) == Some(-(n as int))
  {
    var text := "-" + (NatToString(n) + unit);
    assert text[0] == '-' && text[1..] == NatToString(n) + unit;
    SplitNumeral(n, unit);
  }

  /** Stated over the magnitude `n` of the negative duration. */
  lemma RoundTripNegative(n: nat)
    requires n > 0
    ensures ParseDuration(FormatTime(-(n as int))) == Some(-(n as int))
  {
    NegativeText(n);
    ReadNegative(n, " mins");
  }

  lemma RoundTripFewMinutes(minutes: int)
    requires 0 <= minutes < 60
    ensures ParseDuration(FormatTime(minutes)) == Some(minutes)
  {
    var text := FormatTime(minutes);
    var unit := " min" + Plural(minutes);
    QuantityText(minutes, "min");
    assert " " + "min" == " min";
    assert text == NatToString(minutes) + unit;
    SplitNumeral(minutes, unit);
  }

  lemma RoundTripBelowAnHour(minutes: int)
    requires minutes < 60
    ensures ParseDuration(FormatTime(minutes)) == Some(minutes)
  {
    if minutes < 0 {
      RoundTripNegative(-minutes);
    } else {
      RoundTripFewMinutes(minutes);
    }
  }

  lemma RoundTripWholeHours(minutes: int)
    requires minutes >= 60 && minutes % 60 == 0
    ensures ParseDuration(FormatTime(minutes)) == Some(minutes)
  {
    var hours := minutes / 60;
    var unit := " hour" + Plural(hours);
    QuantityText(hours, "hour");
    assert " " + "hour" == " hour";
    assert FormatTime(minutes) == NatToString(hours) + unit;
    SplitNumeral(hours, unit);
    assert !IsMinutesUnit(unit) by { assert unit[1] == 'h'; }
    assert ReadAfterHours(hours, unit) == Some(hours * 60);
  }

  /** After one hour, a space and a minutes quantity, the reader adds those minutes to 60. */
  lemma ReadOneHourThen(tail: string, r: nat, minutesUnit: string)
    requires ReadCount(tail) == Some((r, minutesUnit)) && IsMinutesUnit(minutesUnit)
    ensures ReadAfterHours(1, " hour " + tail) == Some(60 + r)
  {
    var unit := " hour " + tail;
    assert unit[..6] == " hour " && unit[6..] == tail;
    assert unit[5] == ' ';
    assert !(|unit| >= 7 && unit[..7] == " hours ") by { assert unit[5] == ' '; }
  }

  /** After several hours, a space and a minutes quantity, the reader adds those minutes to the hours' worth. */
  lemma ReadHoursThen(hours: nat, tail: string, r: nat, minutesUnit: string)
    requires ReadCount(tail) == Some((r, minutesUnit)) && IsMinutesUnit(minutesUnit)
    ensures ReadAfterHours(hours, " hours " + tail) == Some(hours * 60 + r)
  {
    var unit := " hours " + tail;
    assert unit[..7] == " hours " && unit[7..] == tail;
    assert |unit| > 6;
  }

  /** The hour unit, a space and a minutes quantity read back as the total number of minutes. */
  lemma ReadHoursThenMinutes(hours: nat, r: nat)
    requires hours >= 1
    ensures ReadAfterHours(hours, " hour" + Plural(hours) + " " + (NatToString(r) + (" min" + Plural(r))))
         == Some(hours * 60 + r)
  {
    var minutesUnit := " min" + Plural(r);
    var tail := NatToString(r) + minutesUnit;
    SplitNumeral(r, minutesUnit);
    if hours == 1 {
      assert " hour" + Plural(hours) + " " + tail == " hour " + tail;
      ReadOneHourThen(tail, r, minutesUnit);
    } else {
      assert " hour" + Plural(hours) + " " + tail == " hours " + tail;
      ReadHoursThen(hours, tail, r, minutesUnit);
    }
  }

  /** The hours branch splits the duration into whole hours and the minutes left over. */
  lemma InHoursParts(minutes: int)
    requires minutes >= 60 && minutes % 60 != 0
    ensures FormatTime(minutes) == Quantity(minutes / 60, "hour") + " " + Quantity(minutes % 60, "min")
  {
  }

  /** A count of hours as its numeral followed by the hour unit. */
  lemma HourQuantity(count: nat)
    ensures Quantity(count, "hour") == NatToString(count) + (" hour" + Plural(count))
  {
    QuantityText(count, "hour");
    assert " " + "hour" == " hour";
  }

  /** A count of minutes as its numeral followed by the minutes unit. */
  lemma MinuteQuantity(count: nat)
    ensures Quantity(count, "min") == NatToString(count) + (" min" + Plural(count))
  {
    QuantityText(count, "min");
    assert " " + "min" == " min";
  }

  /** Two quantities joined by a space, regrouped as the numeral of the first and everything after it. */
  lemma MixedText(hours: nat, r: nat)
    ensures Quantity(hours, "hour") + " " + Quantity(r, "min")
         == NatToString(hours) + (" hour" + Plural(hours) + " " + (NatToString(r) + (" min" + Plural(r))))
  {
    HourQuantity(hours);
    MinuteQuantity(r);
    var h, hu := NatToString(hours), " hour" + Plural(hours);
    var m, mu := NatToString(r), " min" + Plural(r);
    assert (h + hu) + " " + (m + mu) == h + (hu + " " + (m + mu));
  }

  /** A numeral followed by anything the hours reader accepts reads back as what that reader gives. */
  lemma ReadAfterNumeral(n: nat, unit: string, total: int)
    requires unit != [] && !IsDigit(unit[0]) && !IsMinutesUnit(unit)
    requires ReadAfterHours(n, unit) == Some(total)
    ensures ParseDuration(NatToString(n) + unit) == Some(total)
  {
    SplitNumeral(n, unit);
    var text := NatToString(n) + unit;
    assert text[0] != '-';
  }

  /** What follows the hour count starts with a space and is not a minutes unit. */
  lemma HourUnitStart(hours: nat, tail: string)
    ensures var unit := " hour" + Plural(hours) + " " + tail;
      unit != [] && !IsDigit(unit[0]) && !IsMinutesUnit(unit)
  {
    var hourUnit := " hour" + Plural(hours);
    var unit := hourUnit + " " + tail;
    assert unit[..|hourUnit|] == hourUnit;
    assert hourUnit[0] == ' ' && hourUnit[1] == 'h';
    assert unit[1] == 'h';
  }

  /** Hours followed by minutes read back as the total number of minutes. */
  lemma ReadMixed(hours: nat, r: nat, total: int)
    requires hours >= 1 && total == hours * 60 + r
    ensures ParseDuration(Quantity(hours, "hour") + " " + Quantity(r, "min")) == Some(total)
  {
    var tail := NatToString(r) + (" min" + Plural(r));
    MixedText(hours, r);
    HourUnitStart(hours, tail);
    ReadHoursThenMinutes(hours, r);
    ReadAfterNumeral(hours, " hour" + Plural(hours) + " " + tail, total);
  }

  lemma RoundTripHoursAndMinutes(minutes: int)
    requires minutes >= 60 && minutes % 60 != 0
    ensures ParseDuration(FormatTime(minutes)) == Some(minutes)
  {
    var hours, r := minutes / 60, minutes % 60;
    var text := Quantity(hours, "hour") + " " + Quantity(r, "min");
    assert FormatTime(minutes) == text by { InHoursParts(minutes); }
    assert ParseDuration(text) == Some(minutes) by { ReadMixed(hours, r, minutes); }
  }

  /** The text is enough to recover the number of minutes: every duration reads back as itself. */
  lemma FormatTimeRoundTrip(minutes: int)
    ensures ParseDuration(FormatTime(minutes)) == Some(minutes)
  {
    if minutes < 60 {
      RoundTripBelowAnHour(minutes);
    } else if minutes % 60 == 0 {
      RoundTripWholeHours(minutes);
    } else {
      RoundTripHoursAndMinutes(minutes);
    }
  }

  /** Two durations that print the same are the same duration. */
  lemma FormatTimeInjective(m: int, n: int)
    ensures FormatTime(m) == FormatTime(n) ==> m == n
  {
    FormatTimeRoundTrip(m);
    FormatTimeRoundTrip(n);
  }

  /** Renderings below an hour and of whole hours, singular and plural. */
  lemma FormatTimeShortExamples()
    ensures FormatTime(1) == "1 min"
    ensures FormatTime(5) == "5 mins"
    ensures FormatTime(60) == "1 hour"
  {
  }

  /** Renderings of hours and minutes: each unit takes its own plural ending. */
  lemma FormatTimeMixedExample()
    ensures FormatTime(65) == "1 hour 5 mins"
  {
    assert Quantity(1, "hour") == "1 hour" && Quantity(5, "min") == "5 mins";
  }

  lemma FormatTimeMixedPluralExample()
    ensures FormatTime(121) == "2 hours 1 min"
  {
    assert Quantity(2, "hour") == "2 hours" && Quantity(1, "min") == "1 min";
  }
}
