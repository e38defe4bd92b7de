/** The tabular batch that flows between the pipeline's stages: a pandas DataFrame of employee records. */
module Frames {

  /** One cell of a frame. `Null` stands for pandas' missing value (None or NaN); `Time` is a
      datetime or date given as seconds on one fixed clock. */
  datatype Value = Null | Str(s: string) | Num(n: int) | Bool(b: bool) | Time(t: int)

  /** A record as `record.to_dict()` gives it: field name to value. */
  type Row = map<string, Value>

  /** A batch: its column labels in order and its records in row order. */
  datatype Frame = Frame(columns: seq<string>, rows: seq<Row>)

  /** The value of column `c` in row `r`; a key the row lacks reads as a missing value, as pandas
      fills it. */
  function Cell(r: Row, c: string): Value {
    if c in r then r[c] else Null
  }

  /** `df.empty`: true when either axis has length zero. */
  predicate IsEmpty(f: Frame) {
    |f.rows| == 0 || |f.columns| == 0
  }

  /** `df[c]` as a sequence, in row order. */
  function Column(rows: seq<Row>, c: string): (col: seq<Value>)
    ensures |col| == |rows|
    ensures forall p :: 0 <= p < |rows| ==> col[p] == Cell(rows[p], c)
  {
    if rows == [] then [] else Column(rows[..|rows| - 1], c) + [Cell(rows[|rows| - 1], c)]
  }

  predicate IsDigit(c: char) {
    '0' <= c <= '9'
  }

  predicate AllDigits(s: string) {
    forall i :: 0 <= i < |s| ==> IsDigit(s[i])
  }

  function DigitChar(d: nat): char
    requires d < 10
  {
    "0123456789"[d]
  }

  function DigitValue(c: char): nat
    requires IsDigit(c)
  {
    (c as int - '0' as int) as nat
  }

  /** Python's `str(n)` for a non-negative integer: its decimal digits, no leading zero. */
  function NatToString(n: nat): (s: string)
    ensures |s| > 0 && AllDigits(s)
    ensures (|s| > 1 ==> s[0] != '0')
  {
    if n < 10 then [DigitChar(n)] else NatToString(n / 10) + [DigitChar(n % 10)]
  }

  /** The number a string of decimal digits denotes. */
  function DecimalValue(s: string): nat
    requires AllDigits(s)
  {
    if s == [] then 0 else 10 * DecimalValue(s[..|s| - 1]) + DigitValue(s[|s| - 1])
  }

  /** Reading back the digits `str(n)` wrote gives `n`. */
  lemma {:induction false} NatToStringRoundTrip(n: nat)
    ensures DecimalValue(NatToString(n)) == n
  {
    var s := NatToString(n);
    if n >= 10 {
      NatToStringRoundTrip(n / 10);
      assert s[..|s| - 1] == NatToString(n / 10);
    }
  }

  /** Python's `str(n)` for any integer. */
  function IntToString(n: int): string {
    if n < 0 then "-" + NatToString(-n) else NatToString(n)
  }

  /** Python's `str(v)`, which the masker hashes. Dates are rendered by their clock value, not by
      Python's `YYYY-MM-DD HH:MM:SS` layout. */
  function Show(v: Value): string {
    match v
    case Null => "None"
    case Str(s) => s
    case Num(n) => IntToString(n)
    case Bool(b) => if b then "True" else "False"
    case Time(t) => IntToString(t)
  }
}
