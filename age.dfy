/**
 * Equipment age in whole months (`calculate_age_in_months`). The clock and
 * the date parser are parameters: `today` stands for `datetime.today()` and
 * `parse` for `datetime.strptime(_, '%Y-%m-%d')`, None where it raises.
 */
module Age {
  import opened Wrappers
  import opened Inventory

  datatype Date = Date(year: int, month: int, day: int)

  predicate ValidMonth(d: Date) {
    1 <= d.month <= 12
  }

  /** Months counted from January of year 0. */
  function MonthIndex(d: Date): int {
    d.year * 12 + d.month - 1
  }

  /** Whole months from the birth month to today's month; the day is not looked at and nothing is clamped. */
  function AgeInMonths(today: Date, birth: Date): int {
    (today.year - birth.year) * 12 + today.month - birth.month
  }

  /** The first day of the calendar month after `d`. */
  function NextMonth(d: Date): (n: Date)
    requires ValidMonth(d)
    ensures ValidMonth(n) && MonthIndex(n) == MonthIndex(d) + 1
  {
    if d.month == 12 then Date(d.year + 1, 1, 1) else Date(d.year, d.month + 1, 1)
  }

  /** `d` moved forward by `k` calendar months. */
  function AddMonths(d: Date, k: nat): (n: Date)
    requires ValidMonth(d)
    ensures ValidMonth(n)
    decreases k
  {
    if k == 0 then d else NextMonth(AddMonths(d, k - 1))
  }

  /** `calculate_age_in_months` on a custom-field value; None where strptime raises. */
  function AgeOfBirthday(birthday: Value, today: Date, parse: string -> Option<Date>): Option<int> {
    match birthday
    case Str(s) =>
      (match parse(s)
       case Some(b) => Some(AgeInMonths(today, b))
       case None => None)
    case _ => None  // strptime() refuses anything but a string
  }

  /** The age is the distance between the two calendar months. */
  lemma AgeIsMonthDistance(today: Date, birth: Date)
    ensures AgeInMonths(today, birth) == MonthIndex(today) - MonthIndex(birth)
  {
  }

  /** The day of the month, of today or of the birthday, never matters. */
  lemma AgeIgnoresDay(today: Date, birth: Date, todayDay: int, birthDay: int)
    ensures AgeInMonths(today.(day := todayDay), birth.(day := birthDay)) == AgeInMonths(today, birth)
  {
  }

  /** The age is zero exactly when birth and today fall in the same calendar month. */
  lemma AgeZeroIffSameMonth(today: Date, birth: Date)
    requires ValidMonth(today) && ValidMonth(birth)
    ensures AgeInMonths(today, birth) == 0 <==> today.year == birth.year && today.month == birth.month
  {
  }

  /** A birthday in a later month than today gives a negative age: there is no clamping. */
  lemma AgeNegativeIffFutureBirthday(today: Date, birth: Date)
    requires ValidMonth(today) && ValidMonth(birth)
    ensures AgeInMonths(today, birth) < 0
        <==> birth.year > today.year || (birth.year == today.year && birth.month > today.month)
  {
  }

  /** Advancing today by `k` calendar months adds exactly `k` to the age, across year boundaries. */
  lemma {:induction false} AgeAfterMonths(today: Date, birth: Date, k: nat)
    requires ValidMonth(today)
    ensures AgeInMonths(AddMonths(today, k), birth) == AgeInMonths(today, birth) + k
    decreases k
  {
    if k > 0 {
      AgeAfterMonths(today, birth, k - 1);
      AgeIsMonthDistance(AddMonths(today, k - 1), birth);
      AgeIsMonthDistance(AddMonths(today, k), birth);
    }
  }

  /** Worked cases: day-of-month is ignored in both directions. */
  lemma AgeExamples()
    ensures AgeInMonths(Date(2020, 3, 1), Date(2020, 1, 15)) == 2
    ensures AgeInMonths(Date(2020, 2, 1), Date(2020, 1, 31)) == 1
    ensures AgeInMonths(Date(2024, 6, 15), Date(2019, 6, 1)) == 60
  {
    assert AgeInMonths(Date(2020, 3, 1), Date(2020, 1, 15)) == (2020 - 2020) * 12 + 3 - 1;
    assert AgeInMonths(Date(2020, 2, 1), Date(2020, 1, 31)) == (2020 - 2020) * 12 + 2 - 1;
    assert AgeInMonths(Date(2024, 6, 15), Date(2019, 6, 1)) == (2024 - 2019) * 12 + 6 - 6;
  }
}
