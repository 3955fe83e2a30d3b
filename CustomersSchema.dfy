/** `customersSchema`: the body of a customer to create or replace. */
module CustomersSchema {
  import opened Wrappers
  import opened Pattern
  import opened Joi
  import opened Chars

  datatype Customer = Customer(name: Option<Value>, phone: Option<Value>, cpf: Option<Value>, birthday: Option<Value>)

  /** /^[0-9]+$/ */
  const DigitsOnly: Regex := Plus(Digit)

  /** (0[1-9]|1[012]) */
  const MonthPattern: Regex := Alt(Concat(Char('0'), Range('1', '9')), Concat(Char('1'), Range('0', '2')))

  /** (0[1-9]|[12][0-9]|3[01]) */
  const DayPattern: Regex :=
    Alt(Alt(Concat(Char('0'), Range('1', '9')), Concat(Range('1', '2'), Digit)), Concat(Char('3'), Range('0', '1')))

  /** /^\d{4}\-(0[1-9]|1[012])\-(0[1-9]|[12][0-9]|3[01])$/ */
  const BirthdayPattern: Regex :=
    Concat(Times(Digit, 4), Concat(Char('-'), Concat(MonthPattern, Concat(Char('-'), DayPattern))))

  predicate NameRule(v: Option<Value>) { IsRequiredString(v) }

  /** string, min(10), max(11), the digits pattern, required */
  predicate PhoneRule(v: Option<Value>)
  {
    IsRequiredString(v) && 10 <= |v.value.s| && |v.value.s| <= 11 && Matches(DigitsOnly, v.value.s)
  }

  /** string, length(11), the digits pattern, required */
  predicate CpfRule(v: Option<Value>)
  {
    IsRequiredString(v) && |v.value.s| == 11 && Matches(DigitsOnly, v.value.s)
  }

  /** string, length(10), the date pattern, required */
  predicate BirthdayRule(v: Option<Value>)
  {
    IsRequiredString(v) && |v.value.s| == 10 && Matches(BirthdayPattern, v.value.s)
  }

  function Validate(c: Customer): (r: Validation)
    ensures r == Valid <==>
      NameRule(c.name) && PhoneRule(c.phone) && CpfRule(c.cpf) && BirthdayRule(c.birthday)
    ensures r.Invalid? ==> r.key in ["name", "phone", "cpf", "birthday"]
    ensures !NameRule(c.name) ==> r == Invalid("name")
    ensures NameRule(c.name) && !PhoneRule(c.phone) ==> r == Invalid("phone")
    ensures NameRule(c.name) && PhoneRule(c.phone) && !CpfRule(c.cpf) ==> r == Invalid("cpf")
    ensures NameRule(c.name) && PhoneRule(c.phone) && CpfRule(c.cpf) && !BirthdayRule(c.birthday) ==>
      r == Invalid("birthday")
    ensures c.name.None? || c.phone.None? || c.cpf.None? || c.birthday.None? ==> r.Invalid?
  {
    var checks := [Check("name", NameRule(c.name)), Check("phone", PhoneRule(c.phone)),
                   Check("cpf", CpfRule(c.cpf)), Check("birthday", BirthdayRule(c.birthday))];
    assert checks[0].key == "name" && checks[1].key == "phone" && checks[2].key == "cpf" && checks[3].key == "birthday";
    FirstFailure(checks)
  }

  predicate AllDigits(s: string) { forall i :: 0 <= i < |s| ==> IsDigit(s[i]) }

  /** The number written by two decimal digits. */
  function TwoDigits(tens: char, units: char): int
  {
    10 * (tens as int - '0' as int) + (units as int - '0' as int)
  }

  /** Two decimal digits writing a number from low to high. */
  predicate IsTwoDigitsBetween(t: string, low: int, high: int)
  {
    |t| == 2 && IsDigit(t[0]) && IsDigit(t[1]) && low <= TwoDigits(t[0], t[1]) <= high
  }

  /** YYYY-MM-DD with any four-digit year, a month from 01 to 12 and a day from 01 to 31. */
  predicate IsDateShaped(s: string)
  {
    |s| == 10 && AllDigits(s[..4]) && s[4] == '-' && IsTwoDigitsBetween(s[5..7], 1, 12) &&
    s[7] == '-' && IsTwoDigitsBetween(s[8..10], 1, 31)
  }

  /** A phone is accepted exactly when it is 10 or 11 decimal digits. */
  lemma PhoneRuleMeaning(v: Option<Value>)
    ensures PhoneRule(v) <==> v.Some? && v.value.Str? && 10 <= |v.value.s| <= 11 && AllDigits(v.value.s)
  {
    if v.Some? && v.value.Str? {
      PlusRange('0', '9', v.value.s);
    }
  }

  /** A CPF is accepted exactly when it is 11 decimal digits. */
  lemma CpfRuleMeaning(v: Option<Value>)
    ensures CpfRule(v) <==> v.Some? && v.value.Str? && |v.value.s| == 11 && AllDigits(v.value.s)
  {
    if v.Some? && v.value.Str? {
      PlusRange('0', '9', v.value.s);
    }
  }

  /** The month part matches exactly the two-digit numbers 01 to 12. */
  lemma MonthMeaning(t: string)
    ensures Matches(MonthPattern, t) <==> IsTwoDigitsBetween(t, 1, 12)
  {
    ConcatFixed(Char('0'), Range('1', '9'), t);
    ConcatFixed(Char('1'), Range('0', '2'), t);
  }

  /** The day part matches exactly the two-digit numbers 01 to 31. */
  lemma DayMeaning(t: string)
    ensures Matches(DayPattern, t) <==> IsTwoDigitsBetween(t, 1, 31)
  {
    ConcatFixed(Char('0'), Range('1', '9'), t);
    ConcatFixed(Range('1', '2'), Digit, t);
    ConcatFixed(Char('3'), Range('0', '1'), t);
  }

  /** "-DD" */
  lemma DashDayMeaning(t: string)
    ensures Matches(Concat(Char('-'), DayPattern), t) <==>
      |t| == 3 && t[0] == '-' && IsTwoDigitsBetween(t[1..], 1, 31)
  {
    ConcatFixed(Char('-'), DayPattern, t);
    if |t| >= 1 {
      DayMeaning(t[1..]);
    }
  }

  /** "MM-DD" */
  lemma MonthDayMeaning(t: string)
    ensures Matches(Concat(MonthPattern, Concat(Char('-'), DayPattern)), t) <==>
      |t| == 5 && IsTwoDigitsBetween(t[..2], 1, 12) && t[2] == '-' && IsTwoDigitsBetween(t[3..], 1, 31)
  {
    assert FixedLength(MonthPattern) == Some(2);
    ConcatFixed(MonthPattern, Concat(Char('-'), DayPattern), t);
    if |t| >= 2 {
      MonthMeaning(t[..2]);
      DashDayMeaning(t[2..]);
      if |t| >= 3 { assert t[2..][1..] == t[3..]; }
    }
  }

  /** "-MM-DD" */
  lemma DashMonthDayMeaning(t: string)
    ensures Matches(Concat(Char('-'), Concat(MonthPattern, Concat(Char('-'), DayPattern))), t) <==>
      |t| == 6 && t[0] == '-' && IsTwoDigitsBetween(t[1..3], 1, 12) && t[3] == '-' &&
      IsTwoDigitsBetween(t[4..], 1, 31)
  {
    ConcatFixed(Char('-'), Concat(MonthPattern, Concat(Char('-'), DayPattern)), t);
    if |t| >= 1 {
      MonthDayMeaning(t[1..]);
      if |t| >= 3 { assert t[1..][..2] == t[1..3]; }
      if |t| >= 4 { assert t[1..][3..] == t[4..]; }
    }
  }

  /** The birthday pattern matches exactly the date-shaped strings. */
  lemma BirthdayPatternMeaning(s: string)
    ensures Matches(BirthdayPattern, s) <==> IsDateShaped(s)
  {
    var afterYear := Concat(Char('-'), Concat(MonthPattern, Concat(Char('-'), DayPattern)));
    TimesRange('0', '9', 4, s[..if |s| < 4 then |s| else 4]);
    ConcatFixed(Times(Digit, 4), afterYear, s);
    if |s| >= 4 {
      DashMonthDayMeaning(s[4..]);
      if |s| >= 7 { assert s[4..][1..3] == s[5..7]; }
      if |s| >= 8 { assert s[4..][4..] == s[8..]; }
    }
  }

  /** Every string the birthday pattern matches has length 10, so `.length(10)` adds nothing. */
  lemma BirthdayPatternFixesLength(s: string)
    requires Matches(BirthdayPattern, s)
    ensures |s| == 10
  {
    BirthdayPatternMeaning(s);
  }

  /** A birthday is accepted exactly when it is date-shaped. */
  lemma BirthdayRuleMeaning(v: Option<Value>)
    ensures BirthdayRule(v) <==> v.Some? && v.value.Str? && IsDateShaped(v.value.s)
  {
    if v.Some? && v.value.Str? {
      BirthdayPatternMeaning(v.value.s);
    }
  }

  function DaysInMonth(year: int, month: int): int
  {
    if month == 2 then (if (year % 4 == 0 && year % 100 != 0) || year % 400 == 0 then 29 else 28)
    else if month == 4 || month == 6 || month == 9 || month == 11 then 30
    else 31
  }

  /** A date-shaped string that names a day of the Gregorian calendar. */
  predicate IsCalendarDate(s: string)
  {
    IsDateShaped(s) &&
    var year := 100 * TwoDigits(s[0], s[1]) + TwoDigits(s[2], s[3]);
    TwoDigits(s[8], s[9]) <= DaysInMonth(year, TwoDigits(s[5], s[6]))
  }

  /** 2023-02-31 has the shape the pattern asks for. */
  lemma FebruaryThirtyFirstShaped()
    ensures IsDateShaped("2023-02-31")
  {
    var s := "2023-02-31";
    assert s[..4] == "2023" && s[5..7] == "02" && s[8..10] == "31";
  }

  /** 2023-02-31 is no day of the calendar: February 2023 has 28 days. */
  lemma FebruaryThirtyFirstNoDate()
    ensures !IsCalendarDate("2023-02-31")
  {
    assert DaysInMonth(2023, 2) == 28;
  }

  /** The pattern does not compare the day with the month: 2023-02-31 is accepted, yet is no day. */
  lemma ImpossibleBirthdayAccepted()
    ensures BirthdayRule(Some(Str("2023-02-31"))) && !IsCalendarDate("2023-02-31")
  {
    BirthdayRuleMeaning(Some(Str("2023-02-31")));
    FebruaryThirtyFirstShaped();
    FebruaryThirtyFirstNoDate();
  }

  lemma ExamplePhoneAccepted()
    ensures PhoneRule(Some(Str("21998765432")))
  {
    PhoneRuleMeaning(Some(Str("21998765432")));
  }

  lemma ExampleCpfAccepted()
    ensures CpfRule(Some(Str("12345678901")))
  {
    CpfRuleMeaning(Some(Str("12345678901")));
  }

  /** A whole customer born on 2023-02-31 validates. */
  lemma ImpossibleBirthdayCustomerValid()
    ensures Validate(Customer(Some(Str("Ana")), Some(Str("21998765432")), Some(Str("12345678901")),
                              Some(Str("2023-02-31")))) == Valid
  {
    ImpossibleBirthdayAccepted();
    ExamplePhoneAccepted();
    ExampleCpfAccepted();
    assert NameRule(Some(Str("Ana")));
  }
}
