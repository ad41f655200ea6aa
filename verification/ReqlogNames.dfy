/**
 * The names of the monthly partitions, generated by to_char and parsed back by to_date
 * (deploy/database/ddl/incr/02_reqlog_partition_maintenance.sql). A month is counted from year 0:
 * year * 12 + (month - 1).
 */
module ReqlogNames {
  import opened Decimal
  import opened Wrappers

  /** The name patterns give the year four digits. */
  const MONTHS_IN_FOUR_DIGIT_YEARS := 120000

  predicate InFourDigitYears(m: int) {
    0 <= m < MONTHS_IN_FOUR_DIGIT_YEARS
  }

  datatype Table = RequestRecords | ErrorRecords

  function TableName(t: Table): string {
    if t.RequestRecords? then "request_records" else "error_records"
  }

  /** `"y"YYYY"m"MM`. */
  function Suffix(m: int): (s: string)
    requires InFourDigitYears(m)
    ensures |s| == 8
  {
    "y" + Padded(m / 12, 4) + "m" + Padded(m % 12 + 1, 2)
  }

  function ChildName(t: Table, m: int): string
    requires InFourDigitYears(m)
  {
    TableName(t) + "_" + Suffix(m)
  }

  function DefaultName(t: Table): string {
    TableName(t) + "_default"
  }

  /** The last eight characters of a name. */
  function Right(name: string): string
    requires |name| >= 8
  {
    name[|name| - 8..]
  }

  /** The pattern `_y[0-9]{4}m[0-9]{2}$`. */
  predicate IsMonthly(name: string) {
    && |name| >= 9 && name[|name| - 9] == '_'
    && var s := Right(name);
    && s[0] == 'y' && AllDigits(s[1..5]) && s[5] == 'm' && AllDigits(s[6..])
  }

  /** to_date of the suffix, as a month. */
  function ParsedMonth(name: string): int
    requires |name| >= 8
  {
    var s := Right(name);
    12 * Number(s[1..5]) + Number(s[6..]) - 1
  }

  lemma {:induction false} NameParts(t: Table, m: int)
    requires InFourDigitYears(m)
    ensures var name := ChildName(t, m);
            |name| >= 9 && name[|name| - 9] == '_' && Right(name) == Suffix(m)
  {}

  lemma {:induction false} SuffixParts(m: int)
    requires InFourDigitYears(m)
    ensures var s := Suffix(m);
            s[0] == 'y' && s[1..5] == Padded(m / 12, 4) && s[5] == 'm' && s[6..] == Padded(m % 12 + 1, 2)
  {}

  lemma {:induction false} Powers()
    ensures Pow10(2) == 100 && Pow10(4) == 10000
  {
    assert Pow10(4) == 100 * Pow10(2);
  }

  lemma {:induction false} NameIsMonthly(t: Table, m: int)
    requires InFourDigitYears(m)
    ensures IsMonthly(ChildName(t, m))
  {
    NameParts(t, m);
    SuffixParts(m);
  }

  lemma {:induction false} SuffixNumbers(m: int)
    requires InFourDigitYears(m)
    ensures Number(Padded(m / 12, 4)) == m / 12 && Number(Padded(m % 12 + 1, 2)) == m % 12 + 1
  {
    Powers();
    NumberOfPadded(m / 12, 4);
    NumberOfPadded(m % 12 + 1, 2);
  }

  /** Naming and parsing are a closed loop. */
  lemma {:induction false} NameRoundTrip(t: Table, m: int)
    requires InFourDigitYears(m)
    ensures IsMonthly(ChildName(t, m)) && ParsedMonth(ChildName(t, m)) == m
  {
    NameIsMonthly(t, m);
    NameParts(t, m);
    SuffixParts(m);
    SuffixNumbers(m);
  }

  /** No two partitions share a name, and DEFAULT is never taken for a monthly one. */
  lemma {:induction false} NamesAreDistinct(t: Table, m: int, t': Table, m': int)
    requires InFourDigitYears(m) && InFourDigitYears(m')
    ensures ChildName(t, m) == ChildName(t', m') ==> t == t' && m == m'
    ensures !IsMonthly(DefaultName(t))
  {
    NameRoundTrip(t, m);
    NameRoundTrip(t', m');
    assert ChildName(t, m)[0] == TableName(t)[0] && ChildName(t', m')[0] == TableName(t')[0];
  }

  // ---- The scheme as a value, so that the catalog is independent of the text of its names ----

  /** `child` names a partition; `month` reads the month back from a monthly name, and `table` whose name it is. */
  datatype Naming = Naming(child: (Table, int) -> string, month: string -> Option<int>, table: string -> Table)

  const NAMES := Naming(
    (t: Table, m: int) => if InFourDigitYears(m) then ChildName(t, m) else "",
    (name: string) => if IsMonthly(name) then Some(ParsedMonth(name)) else None,
    (name: string) => if name != "" && name[0] == TableName(RequestRecords)[0] then RequestRecords else ErrorRecords)

  /** Names can be read back, so they are not shared. */
  ghost predicate Lawful(names: Naming) {
    forall t, m :: InFourDigitYears(m) ==>
      names.month(names.child(t, m)) == Some(m) && names.table(names.child(t, m)) == t
  }

  lemma {:induction false} NamesAreLawful()
    ensures Lawful(NAMES)
  {
    forall t: Table, m: int | InFourDigitYears(m)
      ensures NAMES.month(NAMES.child(t, m)) == Some(m) && NAMES.table(NAMES.child(t, m)) == t
    {
      NameRoundTrip(t, m);
      assert ChildName(t, m)[0] == TableName(t)[0];
    }
  }

  /** A name is the table, the year and the month. */
  lemma {:induction false} NamesSpelledOut(t: Table, m: int)
    requires InFourDigitYears(m)
    ensures ChildName(t, m) ==
            (if t.RequestRecords? then "request_records" else "error_records") + "_" +
            ("y" + Padded(m / 12, 4) + "m" + Padded(m % 12 + 1, 2))
  {}
}
