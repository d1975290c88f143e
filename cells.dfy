/** Cells of a pandas row and the Python conversions the record
    constructors apply to them. */
module Cells {
  import opened Base
  import opened Text

  /** A number as pandas holds it: an int64, or a float64 together with the
      text Python's str() prints for it (float formatting is not modelled). */
  datatype Number = IntNum(i: int) | FloatNum(x: real, repr: string)

  /** One cell of a row read from a CSV file: NaN (pandas' reading of a blank
      field), a string, or a number. */
  datatype Cell = Missing | Str(s: string) | Num(n: Number)

  /** A pandas row, indexed by column name. */
  type Row = map<string, Cell>

  /** The result of float(): kept opaque, recording only what it was made from. */
  datatype FloatValue = NaN | Value(x: real) | FromText(text: string)

  /** pd.isna(c) */
  predicate IsNa(c: Cell) { c.Missing? }

  /** pd.isna(c) or c == "": the cells the timestamp parsers read as absent. */
  predicate IsBlank(c: Cell) { c.Missing? || c == Str("") }

  /** row[column], raising KeyError for an unknown column. */
  function Get(row: Row, column: string): (r: Result<Cell>)
    ensures r.Ok? <==> column in row
    ensures r.Ok? ==> r.value == row[column]
    ensures r.Err? ==> r.error == KeyError(column)
  {
    if column in row then Ok(row[column]) else Err(KeyError(column))
  }

  /** int(x) for a float: truncation toward zero. */
  function Trunc(x: real): (r: int)
    ensures 0.0 <= x ==> 0 <= r && r as real <= x < r as real + 1.0
    ensures x < 0.0 ==> r <= 0 && r as real - 1.0 < x <= r as real
  {
    if x >= 0.0 then x.Floor else -((-x).Floor)
  }

  /** int(c): NaN and non-digit text raise ValueError. */
  function ToInt(c: Cell): (r: Result<int>)
    ensures c.Missing? ==> r == Err(ValueError)
    ensures c.Str? ==> (r.Ok? <==> ParseNat(c.s).Some?)
    ensures r.Ok? && c.Str? ==> r.value >= 0 && ParseNat(c.s) == Some(r.value as nat)
    ensures c.Num? ==> r.Ok?
    ensures c.Num? && c.n.IntNum? ==> r == Ok(c.n.i)
    ensures c.Num? && c.n.FloatNum? ==>
      && r.Ok?
      && (0.0 <= c.n.x ==> 0 <= r.value && r.value as real <= c.n.x < r.value as real + 1.0)
      && (c.n.x < 0.0 ==> r.value <= 0 && r.value as real - 1.0 < c.n.x <= r.value as real)
  {
    match c
    case Missing => Err(ValueError)
    case Str(s) =>
      (match ParseNat(s)
       case Some(n) => Ok(n)
       case None => Err(ValueError))
    case Num(IntNum(i)) => Ok(i)
    case Num(FloatNum(x, _)) => Ok(Trunc(x))
  }

  /** str(c): "nan" for NaN, the text itself for a string, the decimal
      spelling of an integer, and a float's own representation. */
  function ToStr(c: Cell): (r: string)
    ensures c.Missing? ==> r == "nan"
    ensures c.Str? ==> r == c.s
    ensures c.Num? && c.n.IntNum? ==> r == IntToDecimal(c.n.i) && DecimalToInt(r) == Some(c.n.i)
    ensures c.Num? && c.n.FloatNum? ==> r == c.n.repr
  {
    match c
    case Missing => "nan"
    case Str(s) => s
    case Num(IntNum(i)) =>
      IntToDecimalRoundTrip(i);
      IntToDecimal(i)
    case Num(FloatNum(_, repr)) => repr
  }

  /** float(c), opaque. */
  function ToFloat(c: Cell): FloatValue
  {
    match c
    case Missing => NaN
    case Str(s) => FromText(s)
    case Num(IntNum(i)) => Value(i as real)
    case Num(FloatNum(x, _)) => Value(x)
  }

  /** None if pd.isna(c) else float(c). */
  function OptionalFloat(c: Cell): (r: Option<FloatValue>)
    ensures r.None? <==> IsNa(c)
  {
    if IsNa(c) then None else Some(ToFloat(c))
  }

  /** What a pydantic `str` field accepts. */
  predicate IsText(c: Cell) { c.Str? }

  /** What a pydantic `Optional[str]` field accepts from `None if pd.isna(c) else c`. */
  predicate IsOptionalText(c: Cell) { c.Missing? || c.Str? }

  /** The field value of `None if pd.isna(c) else c`, once validated. */
  function OptionalText(c: Cell): Option<string>
  {
    if c.Str? then Some(c.s) else None
  }

  /** An optional field mirrors its cell: absent exactly when the cell is NaN,
      and the cell's text otherwise. */
  predicate Mirrors(c: Cell, v: Option<string>)
  {
    (v.None? <==> c.Missing?) && (v.Some? ==> c == Str(v.value))
  }

  /** The cell a CSV reader yields for an optional text value: the text, or
      NaN for None. */
  function OptionalTextCell(o: Option<string>): (c: Cell)
    ensures Mirrors(c, o) && IsOptionalText(c) && OptionalText(c) == o
  {
    if o.Some? then Str(o.value) else Missing
  }

  /** A cell that float() reads as v; the printed text of a float cell plays
      no part in float(), so it is left empty. */
  function FloatCell(v: FloatValue): (c: Cell)
    ensures ToFloat(c) == v
    ensures IsNa(c) <==> v.NaN?
  {
    match v
    case NaN => Missing
    case Value(x) => Num(FloatNum(x, ""))
    case FromText(t) => Str(t)
  }

  /** A cell that `None if pd.isna(c) else float(c)` reads as o; no cell
      gives Some(NaN). */
  function OptionalFloatCell(o: Option<FloatValue>): (c: Cell)
    ensures o != Some(NaN) ==> OptionalFloat(c) == o
  {
    if o.Some? then FloatCell(o.value) else Missing
  }
}
