/** The value synthesizer: `QGen._get_appropriate_value`, which makes up a
    value of a column's type, and `QGen._get_random_value`, which reads one
    from the table. Random draws are supplied. */
module Synthesizer {
  import opened Results
  import opened Dicts
  import opened Executor
  import opened Schema

  /** A Python value as the engine sees it. `Float` stands for both float and
      Decimal; `Temporal` for the date and datetime objects the driver returns
      for DATE, DATETIME and TIMESTAMP columns; `Duration` for the timedelta
      it returns for TIME columns, in microseconds. */
  datatype Value = Null | Int(i: int) | Float(x: real) | Str(s: string) | Temporal(text: string) | Duration(us: int)

  /** Python truth value: `None`, zero and the empty string are false. */
  predicate Truthy(v: Value)
  {
    match v
    case Null => false
    case Int(i) => i != 0
    case Float(x) => x != 0.0
    case Str(s) => |s| > 0
    case Temporal(_) => true
    case Duration(us) => us != 0
  }

  /** A row of `SELECT col FROM table ...`: its values in column order. */
  type Row = seq<Value>

  /** The values of `convert_map`: the Python type each data type maps to. */
  datatype Generator = IntType | FloatType | StrType | DateTimeType | NoType

  const IntTypes: set<string> := {"smallint", "tinyint", "mediumint", "int"}
  const StrTypes: set<string> := {"varchar", "text", "char"}
  const DateTimeTypes: set<string> := {"date", "datetime", "timestamp"}
  const NoTypes: set<string> := {"enum", "set"}

  /** The data types `convert_map` has an entry for. */
  const KnownTypes: set<string> := IntTypes + {"decimal"} + StrTypes + DateTimeTypes + NoTypes

  /** `convert_map[data_type]`; `None` stands for the KeyError of a missing entry. */
  function ConvertMap(dataType: string): (g: Option<Generator>)
    ensures g.Some? <==> dataType in KnownTypes
  {
    if dataType in IntTypes then Some(IntType)
    else if dataType == "decimal" then Some(FloatType)
    else if dataType in StrTypes then Some(StrType)
    else if dataType in DateTimeTypes then Some(DateTimeType)
    else if dataType in NoTypes then Some(NoType)
    else None
  }

  const AsciiLowercase: string := "abcdefghijklmnopqrstuvwxyz"

  /** The draws one call may use: `random.randint(0,100)`, `random.random()`,
      `random.randint(1,20)` for a length, and `random.choice(ascii_lowercase)`
      for the character at each position. */
  datatype ValueDraws = ValueDraws(intDraw: nat, floatDraw: real, lengthDraw: nat, letterDraw: nat -> nat)

  /** `''.join(random.choice(ascii_lowercase) for i in range(n))`. */
  function RandomString(n: nat, letterDraw: nat -> nat): (r: string)
    ensures |r| == n
    ensures forall k :: 0 <= k < n ==> r[k] in AsciiLowercase
  {
    seq(n, i requires 0 <= i < n => AsciiLowercase[letterDraw(i) % |AsciiLowercase|])
  }

  /** `_get_appropriate_value(table, column)` for a column of the schema. */
  function AppropriateValue(tables: Tables, table: string, column: string, d: ValueDraws): (r: Result<Value>)
    requires table in Keys(tables) && column in Keys(Get(tables, table))
    ensures var t := Get(Get(tables, table), column).typeName;
      && (t in IntTypes ==> r.Success? && r.value.Int? && 0 <= r.value.i <= 100)
      && (t == "decimal" ==> r.Success? && r.value.Float?)
      && (t in StrTypes ==> r.Success? && r.value.Str? && 1 <= |r.value.s| <= 20
                            && forall k :: 0 <= k < |r.value.s| ==> r.value.s[k] in AsciiLowercase)
      && (t in DateTimeTypes + NoTypes ==> r == Success(Null))
      && (t !in KnownTypes ==> r == Failure(KeyError(t)))
  {
    var t := Get(Get(tables, table), column).typeName;
    match ConvertMap(t)
    case None => Failure(KeyError(t))
    case Some(IntType) => Success(Int(d.intDraw % 101))
    case Some(FloatType) => Success(Float(d.floatDraw))
    case Some(StrType) =>
      Success(Str(RandomString(1 + d.lengthDraw % 20, d.letterDraw)))
    case Some(_) => Success(Null)
  }

  /** `_get_random_value(table, column)` from the `output` entry of its query
      record (run with `needs_commit=None`): `None` when there is no output or
      no row, else the first value of the first row. */
  function RandomValue(out: Output<Row>): Result<Value>
  {
    if !out.Fetched? || |out.rows| == 0 then Success(Null)
    else if |out.rows[0]| == 0 then Failure(EmptyRow)
    else Success(out.rows[0][0])
  }

  /** `_get_random_value` on the record of its own lookup statement `q`: the
      lookup never raises QGenStopException and never commits, and the value is
      `None` when the statement failed or found no row, the first value of the
      first row otherwise, and IndexError for a first row without values. */
  lemma RandomValueOfLookup(q: string, e: Execution<Row>)
    ensures var run := RunQuery(q, e, false, false);
      && run.result.Success?
      && run.transaction != Commit
      && var v := RandomValue(run.result.value.output);
      && (e.Failed? ==> v == Success(Null))
      && (e.Succeeded? && |e.rows| == 0 ==> v == Success(Null))
      && (e.Succeeded? && |e.rows| > 0 && |e.rows[0]| == 0 ==> v == Failure(EmptyRow))
      && (e.Succeeded? && |e.rows| > 0 && |e.rows[0]| > 0 ==> v == Success(e.rows[0][0]))
  {
    RunQueryShape(q, e, false, false);
  }
}
