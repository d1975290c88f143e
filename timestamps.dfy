/** The Synthea timestamp parsers: `YYYY-MM-DD` dates and
    `YYYY-MM-DDTHH:MM:SSZ` date-times, with the formatters they invert. */
module Timestamps {
  import opened Base
  import opened Text
  import opened Cells

  datatype Date = Date(year: nat, month: nat, day: nat)

  datatype DateTime = DateTime(year: nat, month: nat, day: nat, hour: nat, minute: nat, second: nat)

  /** parse_date: blank or NaN is absent; otherwise exactly three "-"-separated
      digit strings. */
  function ParseDate(c: Cell): (r: Result<Option<Date>>)
    ensures r == Ok(None) <==> IsBlank(c)
    ensures c.Num? ==> r == Err(AttributeError)
    ensures c.Str? && c.s != "" && |Split(c.s, '-')| != 3 ==> r == Err(ValueError)
    ensures c.Str? && c.s != "" && |Split(c.s, '-')| == 3 ==>
      var parts := Split(c.s, '-');
      && (r.Ok? <==> ParseNat(parts[0]).Some? && ParseNat(parts[1]).Some? && ParseNat(parts[2]).Some?)
      && (r.Err? ==> r.error == ValueError)
    ensures r.Ok? && r.value.Some? ==>
      c.Str? && var parts := Split(c.s, '-');
      && |parts| == 3
      && ParseNat(parts[0]).Some? && ParseNat(parts[1]).Some? && ParseNat(parts[2]).Some?
      && r.value.value == Date(ParseNat(parts[0]).value, ParseNat(parts[1]).value, ParseNat(parts[2]).value)
  {
    if IsBlank(c) then Ok(None)
    else if c.Num? then Err(AttributeError)
    else
      var parts := Split(c.s, '-');
      if |parts| != 3 then Err(ValueError)
      else
        match (ParseNat(parts[0]), ParseNat(parts[1]), ParseNat(parts[2]))
        case (Some(y), Some(m), Some(d)) => Ok(Some(Date(y, m, d)))
        case _ => Err(ValueError)
  }

  /** parse_datetime: blank or NaN is absent; otherwise trailing "Z"s are
      stripped, the rest must split on "T" into exactly a date part and a time
      part, which split on "-" and ":" into exactly three digit strings each. */
  function ParseDateTime(c: Cell): (r: Result<Option<DateTime>>)
    ensures r == Ok(None) <==> IsBlank(c)
    ensures c.Num? ==> r == Err(AttributeError)
    ensures c.Str? && c.s != "" && |Split(RStrip(c.s, 'Z'), 'T')| != 2 ==> r == Err(ValueError)
    ensures c.Str? && c.s != "" && |Split(RStrip(c.s, 'Z'), 'T')| == 2 ==>
      var halves := Split(RStrip(c.s, 'Z'), 'T');
      var date := Split(halves[0], '-');
      var time := Split(halves[1], ':');
      && (|date| != 3 || |time| != 3 ==> r == Err(ValueError))
      && (|date| == 3 && |time| == 3 ==>
            (r.Ok? <==> && ParseNat(date[0]).Some? && ParseNat(date[1]).Some? && ParseNat(date[2]).Some?
                         && ParseNat(time[0]).Some? && ParseNat(time[1]).Some? && ParseNat(time[2]).Some?))
      && (r.Err? ==> r.error == ValueError)
    ensures r.Ok? && r.value.Some? ==>
      c.Str? && var halves := Split(RStrip(c.s, 'Z'), 'T');
      && |halves| == 2
      && var date := Split(halves[0], '-');
      && var time := Split(halves[1], ':');
      && |date| == 3 && |time| == 3
      && ParseNat(date[0]).Some? && ParseNat(date[1]).Some? && ParseNat(date[2]).Some?
      && ParseNat(time[0]).Some? && ParseNat(time[1]).Some? && ParseNat(time[2]).Some?
      && r.value.value == DateTime(ParseNat(date[0]).value, ParseNat(date[1]).value, ParseNat(date[2]).value,
                                   ParseNat(time[0]).value, ParseNat(time[1]).value, ParseNat(time[2]).value)
  {
    if IsBlank(c) then Ok(None)
    else if c.Num? then Err(AttributeError)
    else
      var halves := Split(RStrip(c.s, 'Z'), 'T');
      if |halves| != 2 then Err(ValueError)
      else
        var date := Split(halves[0], '-');
        if |date| != 3 then Err(ValueError)
        else
          var time := Split(halves[1], ':');
          if |time| != 3 then Err(ValueError)
          else
            match (ParseNat(date[0]), ParseNat(date[1]), ParseNat(date[2]),
                   ParseNat(time[0]), ParseNat(time[1]), ParseNat(time[2]))
            case (Some(y), Some(mo), Some(d), Some(h), Some(mi), Some(s)) =>
              Ok(Some(DateTime(y, mo, d, h, mi, s)))
            case _ => Err(ValueError)
  }

  /** The Synthea spelling of a date, zero-padded: YYYY-MM-DD. */
  function FormatDate(d: Date): string
  {
    Join([Padded(d.year, 4), Padded(d.month, 2), Padded(d.day, 2)], '-')
  }

  function FormatDatePart(t: DateTime): string
  {
    Join([Padded(t.year, 4), Padded(t.month, 2), Padded(t.day, 2)], '-')
  }

  function FormatTimePart(t: DateTime): string
  {
    Join([Padded(t.hour, 2), Padded(t.minute, 2), Padded(t.second, 2)], ':')
  }

  /** The Synthea spelling of a date-time: YYYY-MM-DDTHH:MM:SSZ. */
  function FormatDateTime(t: DateTime): string
  {
    FormatDatePart(t) + "T" + FormatTimePart(t) + "Z"
  }

  /** A character that is neither the separator nor in any piece is not in the join. */
  lemma {:induction false} JoinExcludes(parts: seq<string>, sep: char, c: char)
    requires |parts| >= 1 && c != sep
    requires forall i :: 0 <= i < |parts| ==> c !in parts[i]
    ensures c !in Join(parts, sep)
    decreases |parts|
  {
    if |parts| > 1 {
      JoinExcludes(parts[1..], sep, c);
    }
  }

  lemma {:induction false} JoinEndsWithLastPiece(parts: seq<string>, sep: char)
    requires |parts| >= 1 && |parts[|parts| - 1]| > 0
    ensures |Join(parts, sep)| > 0
    ensures Join(parts, sep)[|Join(parts, sep)| - 1] == parts[|parts| - 1][|parts[|parts| - 1]| - 1]
    decreases |parts|
  {
    if |parts| > 1 {
      JoinEndsWithLastPiece(parts[1..], sep);
    }
  }

  /** Three zero-padded numbers: digit strings that read back as the numbers. */
  lemma PaddedTriple(a: nat, wa: nat, b: nat, c: nat, seps: set<char>)
    requires forall ch :: ch in seps ==> !IsDigit(ch)
    ensures var ps := [Padded(a, wa), Padded(b, 2), Padded(c, 2)];
      && (forall i, ch :: 0 <= i < 3 && ch in seps ==> ch !in ps[i])
      && ParseNat(ps[0]) == Some(a) && ParseNat(ps[1]) == Some(b) && ParseNat(ps[2]) == Some(c)
      && |ps[2]| > 0 && IsDigit(ps[2][|ps[2]| - 1])
  {
    var ps := [Padded(a, wa), Padded(b, 2), Padded(c, 2)];
    PaddedRoundTrip(a, wa);
    PaddedRoundTrip(b, 2);
    PaddedRoundTrip(c, 2);
  }

  /** Any three digit strings joined by "-", padded or not, parse to the date
      of their decimal values: int() does not ask for leading zeros. */
  lemma ParseDateDigits(y: string, m: string, d: string)
    requires |y| > 0 && AllDigits(y) && |m| > 0 && AllDigits(m) && |d| > 0 && AllDigits(d)
    ensures ParseDate(Str(Join([y, m, d], '-'))) == Ok(Some(Date(DigitsValue(y), DigitsValue(m), DigitsValue(d))))
  {
    var ps := [y, m, d];
    forall i | 0 <= i < 3
      ensures '-' !in ps[i]
    {
      assert forall k :: 0 <= k < |ps[i]| ==> ps[i][k] != '-';
    }
    SplitJoin(ps, '-');
    JoinEndsWithLastPiece(ps, '-');
  }

  /** Formatting a date and parsing it back gives the same date. */
  lemma ParseDateRoundTrip(d: Date)
    ensures ParseDate(Str(FormatDate(d))) == Ok(Some(d))
  {
    var ps := [Padded(d.year, 4), Padded(d.month, 2), Padded(d.day, 2)];
    PaddedTriple(d.year, 4, d.month, d.day, {'-'});
    SplitJoin(ps, '-');
    JoinEndsWithLastPiece(ps, '-');
  }

  /** The date part splits on "-" into the three numbers, and holds no "T". */
  lemma DatePartReadsBack(t: DateTime)
    ensures var ps := Split(FormatDatePart(t), '-');
      |ps| == 3 && ParseNat(ps[0]) == Some(t.year) && ParseNat(ps[1]) == Some(t.month)
      && ParseNat(ps[2]) == Some(t.day)
    ensures 'T' !in FormatDatePart(t)
  {
    var dps := [Padded(t.year, 4), Padded(t.month, 2), Padded(t.day, 2)];
    PaddedTriple(t.year, 4, t.month, t.day, {'-', 'T'});
    SplitJoin(dps, '-');
    JoinExcludes(dps, '-', 'T');
  }

  /** The time part splits on ":" into the three numbers, holds no "T" and
      ends in a digit. */
  lemma TimePartReadsBack(t: DateTime)
    ensures var ps := Split(FormatTimePart(t), ':');
      |ps| == 3 && ParseNat(ps[0]) == Some(t.hour) && ParseNat(ps[1]) == Some(t.minute)
      && ParseNat(ps[2]) == Some(t.second)
    ensures 'T' !in FormatTimePart(t)
    ensures |FormatTimePart(t)| > 0 && IsDigit(FormatTimePart(t)[|FormatTimePart(t)| - 1])
  {
    var tps := [Padded(t.hour, 2), Padded(t.minute, 2), Padded(t.second, 2)];
    PaddedTriple(t.hour, 2, t.minute, t.second, {':', 'T'});
    SplitJoin(tps, ':');
    JoinExcludes(tps, ':', 'T');
    JoinEndsWithLastPiece(tps, ':');
  }

  /** Stripping the "Z" and splitting on "T" gives the date and time parts. */
  lemma DateTimeHalves(t: DateTime)
    ensures Split(RStrip(FormatDateTime(t), 'Z'), 'T') == [FormatDatePart(t), FormatTimePart(t)]
  {
    var dp, tp := FormatDatePart(t), FormatTimePart(t);
    DatePartReadsBack(t);
    TimePartReadsBack(t);
    var body := dp + "T" + tp;
    assert FormatDateTime(t) == body + "Z";
    assert body[|body| - 1] == tp[|tp| - 1];
    RStripOne(body, 'Z');
    assert Join([dp, tp], 'T') == body;
    SplitJoin([dp, tp], 'T');
  }

  /** Formatting a date-time and parsing it back gives the same date-time. */
  lemma ParseDateTimeRoundTrip(t: DateTime)
    ensures ParseDateTime(Str(FormatDateTime(t))) == Ok(Some(t))
  {
    DateTimeHalves(t);
    DatePartReadsBack(t);
    TimePartReadsBack(t);
  }

  /** The cell Synthea writes for an optional date. */
  function DateCell(d: Option<Date>): (c: Cell)
    ensures ParseDate(c) == Ok(d)
  {
    match d
    case None => Missing
    case Some(x) => ParseDateRoundTrip(x); Str(FormatDate(x))
  }

  /** The cell Synthea writes for an optional date-time. */
  function DateTimeCell(t: Option<DateTime>): (c: Cell)
    ensures ParseDateTime(c) == Ok(t)
  {
    match t
    case None => Missing
    case Some(x) => ParseDateTimeRoundTrip(x); Str(FormatDateTime(x))
  }
}
