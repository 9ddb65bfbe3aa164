/** The proleptic Gregorian calendar of Python's `datetime.date`, over day
    numbers counted from 1970-01-01, and the text forms the core renders
    (`isoformat`, `strftime('%Y%m%d')`, `strftime('%Y-%m-%d %H:00')`). */
module Calendar {

  datatype Date = Date(year: int, month: int, day: int)

  /** Civil date of an epoch-day number (days since 1970-01-01). Dafny's `/`
      with a positive divisor is floor division, as the algorithm needs. */
  function CivilFromDays(z: int): Date
  {
    var shifted := z + 719468;
    var era := shifted / 146097;
    var doe := shifted - era * 146097;
    var yoe := (doe - doe / 1460 + doe / 36524 - doe / 146096) / 365;
    var doy := doe - (365 * yoe + yoe / 4 - yoe / 100);
    var mp := (5 * doy + 2) / 153;
    var day := doy - (153 * mp + 2) / 5 + 1;
    var month := if mp < 10 then mp + 3 else mp - 9;
    var year := yoe + era * 400;
    Date(if month <= 2 then year + 1 else year, month, day)
  }

  /** Epoch-day number of a civil date. */
  function DaysFromCivil(d: Date): int
  {
    var y := if d.month <= 2 then d.year - 1 else d.year;
    var era := y / 400;
    var yoe := y - era * 400;
    var mp := if d.month > 2 then d.month - 3 else d.month + 9;
    var doy := (153 * mp + 2) / 5 + d.day - 1;
    var doe := yoe * 365 + yoe / 4 - yoe / 100 + doy;
    era * 146097 + doe - 719468
  }

  function DigitChar(d: nat): char
    requires d < 10
  {
    "0123456789"[d]
  }

  /** Decimal digits of `n`, most significant first, without leading zeros. */
  function Digits(n: nat): (s: string)
    ensures 1 <= |s|
    decreases n
  {
    if n < 10 then [DigitChar(n)] else Digits(n / 10) + [DigitChar(n % 10)]
  }

  /** `n` in decimal, left-padded with zeros to `width` digits. */
  function Pad(n: int, width: nat): string
  {
    if n < 0 then "-" + ZeroFill(Digits(-n), width) else ZeroFill(Digits(n), width)
  }

  function ZeroFill(s: string, width: nat): (r: string)
    ensures |r| == if |s| < width then width else |s|
    decreases width - |s|
  {
    if |s| < width then ZeroFill("0" + s, width) else s
  }

  /** `date.isoformat()`: `YYYY-MM-DD`. */
  function IsoDate(d: Date): string
  {
    Pad(d.year, 4) + "-" + Pad(d.month, 2) + "-" + Pad(d.day, 2)
  }

  /** `strftime('%Y%m%d')`. */
  function CompactDate(d: Date): string
  {
    Pad(d.year, 4) + Pad(d.month, 2) + Pad(d.day, 2)
  }

  /** `strftime('%Y-%m-%d %H:00')` for a wall-clock day number and hour. */
  function HourLabel(day: int, hour: int): string
  {
    IsoDate(CivilFromDays(day)) + " " + Pad(hour, 2) + ":00"
  }

  /** The date of the examples used throughout: 2024-10-13 is day 20009. */
  lemma ExampleDay()
    ensures CivilFromDays(20009) == Date(2024, 10, 13)
    ensures DaysFromCivil(Date(2024, 10, 13)) == 20009
  {
    assert 739477 / 146097 == 5;
    assert 8992 / 1460 == 6 && 8992 / 36524 == 0 && 8992 / 146096 == 0;
    assert 8986 / 365 == 24;
    assert 24 / 4 == 6 && 24 / 100 == 0;
    assert 1132 / 153 == 7 && 1073 / 5 == 214;
    assert 2024 / 400 == 5 && 212 / 5 == 42;
  }

  lemma ExampleLabels()
    ensures IsoDate(Date(2024, 10, 13)) == "2024-10-13"
    ensures HourLabel(20009, 21) == "2024-10-13 21:00"
    ensures HourLabel(20009, 5) == "2024-10-13 05:00"
  {
    ExamplePads();
    ExampleDay();
    assert IsoDate(Date(2024, 10, 13)) == "2024" + "-" + "10" + "-" + "13";
  }

  /** The padded numbers the example labels are made of. */
  lemma ExamplePads()
    ensures Pad(5, 2) == "05" && Pad(2024, 4) == "2024"
    ensures Pad(10, 2) == "10" && Pad(13, 2) == "13" && Pad(21, 2) == "21"
  {
    assert Digits(5) == "5";
    assert ZeroFill("5", 2) == "05";
    assert Digits(2024) == "2024";
    assert Digits(10) == "10" && Digits(13) == "13" && Digits(21) == "21";
  }
}
