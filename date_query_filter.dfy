/**
 * `DateQueryFilter`: the `createdDate` filter of the list endpoint. A value
 * that is a real `Y-m-d` date becomes the SQL `LIKE` pattern `date%`; any other
 * value becomes the empty string. The other constructor arguments reach the
 * parent `Filter` unchanged.
 */
module DateQueryFilters {
  import opened Wrappers
  import opened Php

  /** What the parent `Filter` constructor receives; `None` marks an argument left at its default or `null`. */
  datatype Filter = Filter(
    column: Option<string>,
    value: Option<string>,
    isJsonColumn: bool,
    id: Option<string>,
    operator: Option<string>)

  predicate IsLeapYear(year: int)
  {
    year % 4 == 0 && (year % 100 != 0 || year % 400 == 0)
  }

  function DaysInMonth(year: int, month: int): int
    requires 1 <= month <= 12
  {
    if month == 2 then (if IsLeapYear(year) then 29 else 28)
    else if month == 4 || month == 6 || month == 9 || month == 11 then 30
    else 31
  }

  /**
   * `isValidDate`: `DateTime::createFromFormat("Y-m-d", $date)` succeeds with
   * no warning. Here: four-digit year, two-digit month and day, nothing after
   * the day, and a day that exists in that month of that year.
   */
  predicate IsValidDate(date: string)
    ensures IsValidDate(date) ==> |date| == 10
    ensures IsValidDate(date) ==> forall i :: 0 <= i < |date| ==> IsDigit(date[i]) || date[i] == '-'
  {
    && |date| == 10
    && date[4] == '-' && date[7] == '-'
    && AllDigits(date[..4]) && AllDigits(date[5..7]) && AllDigits(date[8..])
    && var year := DigitsValue(date[..4]);
       var month := DigitsValue(date[5..7]);
       var day := DigitsValue(date[8..]);
       && 1 <= month <= 12
       && 1 <= day <= DaysInMonth(year, month)
  }

  /** The `DateQueryFilter` constructor. */
  function DateQueryFilter(filterColumn: string, filterValue: string, isJsonColumn: bool,
                           id: string, operator: string): (filter: Filter)
    ensures filter.column == Some(filterColumn) && filter.isJsonColumn == isJsonColumn
    ensures filter.id == Some(id) && filter.operator == Some(operator)
    ensures IsValidDate(filterValue) ==> filter.value == Some(filterValue + "%")
    ensures !IsValidDate(filterValue) ==> filter.value == Some("")
    ensures filter.value.value == "" || (filter.value.value == filterValue + "%" && '%' !in filterValue)
  {
    var value := if IsValidDate(filterValue) then filterValue + "%" else "";
    Filter(Some(filterColumn), Some(value), isJsonColumn, Some(id), Some(operator))
  }

  /**
   * SQL `LIKE`: `%` matches any run of characters, `_` any one character, and
   * every other character itself (escapes are not modelled; a date has none).
   */
  predicate Like(s: string, pattern: string)
    decreases |s|, |pattern|
  {
    if pattern == [] then s == []
    else if pattern[0] == '%' then Like(s, pattern[1..]) || (s != [] && Like(s[1..], pattern))
    else s != [] && (pattern[0] == '_' || s[0] == pattern[0]) && Like(s[1..], pattern[1..])
  }

  lemma {:induction false} LikeAnything(s: string)
    ensures Like(s, "%")
  {
    if s != [] {
      LikeAnything(s[1..]);
    }
  }

  /** A pattern made of a wildcard-free prefix and one trailing `%` matches exactly the strings with that prefix. */
  lemma {:induction false} LikePrefix(s: string, prefix: string)
    requires '%' !in prefix && '_' !in prefix
    ensures Like(s, prefix + "%") <==> prefix <= s
  {
    if prefix == [] {
      assert prefix + "%" == "%";
      LikeAnything(s);
    } else {
      var pattern := prefix + "%";
      assert pattern[0] == prefix[0] && pattern[1..] == prefix[1..] + "%";
      assert prefix[0] != '%' && prefix[0] != '_';
      if s != [] {
        LikePrefix(s[1..], prefix[1..]);
      }
    }
  }

  /**
   * The list endpoint's filter `createdDate LIKE 'date%'` holds of a row's
   * creation date exactly when that date string starts with `date`.
   */
  lemma DateFilterMatchesPrefix(date: string, createdDate: string)
    requires IsValidDate(date)
    ensures Like(createdDate, DateQueryFilter("createdDate", date, false, "", "LIKE").value.value)
            <==> date <= createdDate
  {
    forall i | 0 <= i < |date| ensures date[i] != '%' && date[i] != '_' {
    }
    LikePrefix(createdDate, date);
  }

  /** With an invalid date the pattern is empty, and `LIKE ''` holds only of the empty string. */
  lemma InvalidDateFilterMatchesOnlyEmpty(date: string, createdDate: string)
    requires !IsValidDate(date)
    ensures Like(createdDate, DateQueryFilter("createdDate", date, false, "", "LIKE").value.value)
            <==> createdDate == ""
  {
  }

  lemma TwoDigitsValue(s: string)
    requires |s| == 2 && AllDigits(s)
    ensures DigitsValue(s) == DigitValue(s[0]) * 10 + DigitValue(s[1])
  {
    var first := s[..1];
    assert first[..0] == [] && first[0] == s[0];
    assert DigitsValue(first) == DigitValue(s[0]);
  }

  lemma FourDigitsValue(s: string)
    requires |s| == 4 && AllDigits(s)
    ensures DigitsValue(s) == DigitValue(s[0]) * 1000 + DigitValue(s[1]) * 100 + DigitValue(s[2]) * 10 + DigitValue(s[3])
  {
    assert s[..3][..2] == s[..2];
    TwoDigitsValue(s[..2]);
  }

  /** Reads the three numbers of a `Y-m-d`-shaped string. */
  lemma DateFields(date: string, year: nat, month: nat, day: nat)
    requires |date| == 10 && date[4] == '-' && date[7] == '-'
    requires AllDigits(date[..4]) && AllDigits(date[5..7]) && AllDigits(date[8..])
    requires year == DigitValue(date[0]) * 1000 + DigitValue(date[1]) * 100 + DigitValue(date[2]) * 10 + DigitValue(date[3])
    requires month == DigitValue(date[5]) * 10 + DigitValue(date[6])
    requires day == DigitValue(date[8]) * 10 + DigitValue(date[9])
    ensures DigitsValue(date[..4]) == year && DigitsValue(date[5..7]) == month && DigitsValue(date[8..]) == day
  {
    FourDigitsValue(date[..4]);
    TwoDigitsValue(date[5..7]);
    TwoDigitsValue(date[8..]);
  }

  /** The `Y-m-d` text of a year, a month and a day, each zero-padded to its width. */
  function DateText(year: nat, month: nat, day: nat): (date: string)
    requires year <= 9999 && month <= 99 && day <= 99
    ensures |date| == 10 && date[4] == '-' && date[7] == '-'
    ensures AllDigits(date[..4]) && AllDigits(date[5..7]) && AllDigits(date[8..])
  {
    [DigitChar(year / 1000), DigitChar(year / 100 % 10), DigitChar(year / 10 % 10), DigitChar(year % 10), '-',
     DigitChar(month / 10), DigitChar(month % 10), '-', DigitChar(day / 10), DigitChar(day % 10)]
  }

  /**
   * The calendar rule for every date in the format: the padded text of a
   * year, month and day passes exactly when the month is 1 to 12 and the day
   * exists in that month of that year.
   */
  lemma DateTextValid(year: nat, month: nat, day: nat)
    requires year <= 9999 && month <= 99 && day <= 99
    ensures IsValidDate(DateText(year, month, day)) <==> 1 <= month <= 12 && 1 <= day <= DaysInMonth(year, month)
  {
    var date := DateText(year, month, day);
    PaddedDigits(year, month, day);
    DateFields(date, year, month, day);
  }

  lemma PaddedDigits(year: nat, month: nat, day: nat)
    requires year <= 9999 && month <= 99 && day <= 99
    ensures var date := DateText(year, month, day);
            && year == DigitValue(date[0]) * 1000 + DigitValue(date[1]) * 100 + DigitValue(date[2]) * 10 + DigitValue(date[3])
            && month == DigitValue(date[5]) * 10 + DigitValue(date[6])
            && day == DigitValue(date[8]) * 10 + DigitValue(date[9])
  {
    assert year == year / 1000 * 1000 + year / 100 % 10 * 100 + year / 10 % 10 * 10 + year % 10;
    assert month == month / 10 * 10 + month % 10 && day == day / 10 * 10 + day % 10;
  }

  /** A real day passes. */
  lemma ValidDateExample()
    ensures IsValidDate("2017-06-19")
  {
    DateFields("2017-06-19", 2017, 6, 19);
  }

  /** February 29 passes in a leap year and fails in a common one. */
  lemma LeapDayExamples()
    ensures IsValidDate("2016-02-29")
    ensures !IsValidDate("2017-02-29")
  {
    DateFields("2016-02-29", 2016, 2, 29);
    DateFields("2017-02-29", 2017, 2, 29);
  }

  /** A day or month that does not exist, and text after the day, fail. */
  lemma InvalidDateExamples()
    ensures !IsValidDate("2017-02-30")
    ensures !IsValidDate("2017-13-01")
    ensures !IsValidDate("2017-06-19T16:29:25")
  {
    DateFields("2017-02-30", 2017, 2, 30);
    DateFields("2017-13-01", 2017, 13, 1);
  }
}
