/**
 * The Python values that flow through the bot: what `json.loads` and the
 * database rows produce (None, bool, int, float, str, list, dict), plus the
 * naive `datetime` the models stamp on expenses.  Also the few pieces of
 * Python's own semantics the source leans on: truthiness (`if not x`,
 * `x or y`), `dict.get`, `str()` for f-strings, the text of an
 * `AttributeError`, and `datetime.isoformat()`.
 */
module PyValues {

  /** The fields of a naive `datetime.datetime`. */
  datatype DateTimeFields = DateTimeFields(
    year: int, month: int, day: int,
    hour: int, minute: int, second: int, microsecond: int)
  {
    predicate Valid() {
      && 1 <= year <= 9999
      && 1 <= month <= 12
      && 1 <= day <= DaysInMonth(year, month)
      && 0 <= hour < 24
      && 0 <= minute < 60
      && 0 <= second < 60
      && 0 <= microsecond < 1000000
    }
  }

  /** A `datetime.datetime` as Python constructs it: every field in range. */
  type DateTime = t: DateTimeFields | t.Valid() witness DateTimeFields(1, 1, 1, 0, 0, 0, 0)

  predicate IsLeapYear(year: int) {
    year % 4 == 0 && (year % 100 != 0 || year % 400 == 0)
  }

  function DaysInMonth(year: int, month: int): int {
    if month == 2 then (if IsLeapYear(year) then 29 else 28)
    else if month in {4, 6, 9, 11} then 30
    else 31
  }

  /** A Python value.  JSON objects and database rows are dicts with string keys. */
  datatype Value =
    | Null
    | Bool(b: bool)
    | Int(i: int)
    | Float(r: real)
    | Str(s: string)
    | List(items: seq<Value>)
    | Dict(entries: map<string, Value>)
    | Time(t: DateTime)

  /** A dictionary with string keys: a JSON object, a database row, a `to_dict` result. */
  type Row = map<string, Value>

  /**
   * Python truthiness: what `if x`, `not x` and `x or y` test.  The false
   * values are exactly None, False, the zeros and the empty collections.
   */
  predicate Truthy(v: Value)
    ensures !Truthy(v) <==> v in {Null, Bool(false), Int(0), Float(0.0), Str(""), List([]), Dict(map[])}
  {
    match v
    case Null => false
    case Bool(b) => b
    case Int(i) => i != 0
    case Float(r) => r != 0.0
    case Str(s) => |s| > 0
    case List(items) => |items| > 0
    case Dict(entries) => |entries| > 0
    case Time(_) => true
  }

  /** `d.get(key, default)`. */
  function Get(d: Row, key: string, default: Value := Null): Value {
    if key in d then d[key] else default
  }

  /** `type(v).__name__` as it appears in error messages. */
  function TypeName(v: Value): string {
    match v
    case Null => "NoneType"
    case Bool(_) => "bool"
    case Int(_) => "int"
    case Float(_) => "float"
    case Str(_) => "str"
    case List(_) => "list"
    case Dict(_) => "dict"
    case Time(_) => "datetime.datetime"
  }

  /** `str(e)` for the `AttributeError` raised by `v.attr` when `v` has no such attribute. */
  function AttributeErrorText(v: Value, attr: string): string {
    "'" + TypeName(v) + "' object has no attribute '" + attr + "'"
  }

  function DigitChar(d: nat): char
    requires d < 10
  {
    "0123456789"[d]
  }

  /** Decimal text of a natural number, without leading zeros. */
  function NatToString(n: nat): string
  {
    if n < 10 then [DigitChar(n)] else NatToString(n / 10) + [DigitChar(n % 10)]
  }

  /** `str(i)` for a Python int. */
  function IntToString(i: int): string {
    if i < 0 then "-" + NatToString(-i) else NatToString(i)
  }

  /**
   * `str(v)`, which is what an f-string renders.  Exact for None, bools,
   * ints and strings; floats, lists, dicts and datetimes get a stand-in text.
   */
  function PyStr(v: Value): string {
    match v
    case Null => "None"
    case Bool(b) => if b then "True" else "False"
    case Int(i) => IntToString(i)
    case Str(s) => s
    case Float(_) => "<float>"
    case List(_) => "<list>"
    case Dict(_) => "<dict>"
    case Time(_) => "<datetime>"
  }

  function Pow10(w: nat): (p: nat)
    ensures p >= 1
  {
    if w == 0 then 1 else 10 * Pow10(w - 1)
  }

  /** `n` written with exactly `width` digits, zero-padded on the left (`%0<width>d`). */
  function Digits(n: nat, width: nat): (r: string)
    requires n < Pow10(width)
    ensures |r| == width
  {
    if width == 0 then "" else Digits(n / 10, width - 1) + [DigitChar(n % 10)]
  }

  /** Distinct numbers in range have distinct zero-padded texts. */
  lemma {:induction false} DigitsInjective(a: nat, b: nat, width: nat)
    requires a < Pow10(width) && b < Pow10(width)
    requires Digits(a, width) == Digits(b, width)
    ensures a == b
  {
    if width > 0 {
      var da, db := Digits(a, width), Digits(b, width);
      assert da[width - 1] == db[width - 1];
      assert DigitChar(a % 10) == DigitChar(b % 10);
      assert a % 10 == b % 10;
      assert da[..width - 1] == Digits(a / 10, width - 1);
      assert db[..width - 1] == Digits(b / 10, width - 1);
      DigitsInjective(a / 10, b / 10, width - 1);
    }
  }

  function DatePart(t: DateTime): (r: string)
    ensures |r| == 10
  {
    Digits(t.year, 4) + "-" + Digits(t.month, 2) + "-" + Digits(t.day, 2)
  }

  function ClockPart(t: DateTime): (r: string)
    ensures |r| == 8
  {
    Digits(t.hour, 2) + ":" + Digits(t.minute, 2) + ":" + Digits(t.second, 2)
  }

  function FractionPart(t: DateTime): (r: string)
    ensures |r| == if t.microsecond == 0 then 0 else 7
  {
    if t.microsecond == 0 then "" else "." + Digits(t.microsecond, 6)
  }

  /** `datetime.isoformat()` for a naive datetime: `YYYY-MM-DDTHH:MM:SS[.ffffff]`. */
  function IsoFormat(t: DateTime): (r: string)
    ensures |r| == if t.microsecond == 0 then 19 else 26
  {
    DatePart(t) + "T" + ClockPart(t) + FractionPart(t)
  }

  /** Where each field sits in the ISO text. */
  lemma IsoFormatLayout(t: DateTime)
    ensures IsoFormat(t)[0..4] == Digits(t.year, 4)
    ensures IsoFormat(t)[5..7] == Digits(t.month, 2)
    ensures IsoFormat(t)[8..10] == Digits(t.day, 2)
    ensures IsoFormat(t)[11..13] == Digits(t.hour, 2)
    ensures IsoFormat(t)[14..16] == Digits(t.minute, 2)
    ensures IsoFormat(t)[17..19] == Digits(t.second, 2)
    ensures t.microsecond != 0 ==> IsoFormat(t)[20..26] == Digits(t.microsecond, 6)
  {
    var d, c, f := DatePart(t), ClockPart(t), FractionPart(t);
    var r := IsoFormat(t);
    assert r == d + "T" + c + f;
    assert r[0..10] == d;
    assert r[11..19] == c;
    assert r[19..] == f;
    assert d[0..4] == Digits(t.year, 4);
    assert d[5..7] == Digits(t.month, 2);
    assert d[8..10] == Digits(t.day, 2);
    assert c[0..2] == Digits(t.hour, 2);
    assert c[3..5] == Digits(t.minute, 2);
    assert c[6..8] == Digits(t.second, 2);
    if t.microsecond != 0 {
      assert f[1..7] == Digits(t.microsecond, 6);
    }
  }

  /** The ISO text determines the datetime: serialising a datetime loses no information. */
  lemma IsoFormatInjective(t1: DateTime, t2: DateTime)
    requires IsoFormat(t1) == IsoFormat(t2)
    ensures t1 == t2
  {
    var r := IsoFormat(t1);
    IsoFormatLayout(t1);
    IsoFormatLayout(t2);
    DigitsInjective(t1.year, t2.year, 4);
    DigitsInjective(t1.month, t2.month, 2);
    DigitsInjective(t1.day, t2.day, 2);
    DigitsInjective(t1.hour, t2.hour, 2);
    DigitsInjective(t1.minute, t2.minute, 2);
    DigitsInjective(t1.second, t2.second, 2);
    if t1.microsecond != 0 {
      DigitsInjective(t1.microsecond, t2.microsecond, 6);
    }
  }
}
