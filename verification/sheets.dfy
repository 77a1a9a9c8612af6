/** The spreadsheet as the route handlers see it: ranges of text rows whose
    first row is a header, short rows, JavaScript `||` defaulting and
    `Number.parseFloat(x) || 0` amount parsing. */
module Sheets {

  datatype Option<+T> = None | Some(value: T)

  /** One row as the store returns it: its cells as text, possibly shorter
      than the range is wide. */
  type Row = seq<string>

  /** A range as read (`readSheet`): row 0 is the header. The store's
      soft failure (no sheet id, transport error) is the empty range. */
  type Range = seq<Row>

  /** `Number.parseFloat` on a cell's text; `None` stands for NaN. It is
      left uninterpreted and handed to every operation that parses. */
  type Parser = string -> Option<real>

  /** `row[i]`: undefined past the end of a short row. */
  function Cell(row: Row, i: nat): Option<string>
  {
    if i < |row| then Some(row[i]) else None
  }

  /** JavaScript truthiness of an optional string: undefined and "" are falsy. */
  predicate Truthy(c: Option<string>)
  {
    c.Some? && c.value != ""
  }

  /** JavaScript `c || d` on an optional string. */
  function Or(c: Option<string>, d: string): (s: string)
    ensures Truthy(c) ==> s == c.value
    ensures !Truthy(c) ==> s == d
  {
    if Truthy(c) then c.value else d
  }

  /** JavaScript truthiness of an optional number: undefined, null and 0
      are falsy (NaN never reaches the model: the form posts it as null). */
  predicate TruthyNumber(a: Option<real>)
  {
    a.Some? && a.value != 0.0
  }

  /** `rows.slice(1)`: the data rows, the header skipped. */
  function Body(r: Range): (b: seq<Row>)
    ensures |b| == if |r| == 0 then 0 else |r| - 1
    ensures forall i :: 0 <= i < |b| ==> b[i] == r[i + 1]
  {
    if |r| == 0 then [] else r[1..]
  }

  /** Column C holds the amount in both the Income_Transactions and the
      Expenses range. */
  const AmountCol := 2

  /** `Number.parseFloat(c) || 0`: an undefined cell, an unparseable cell
      (NaN) and a zero all yield 0. */
  function Amount(parse: Parser, c: Option<string>): real
  {
    if c.None? then 0.0
    else match parse(c.value)
      case Some(v) => v
      case None => 0.0
  }

  /** `rows.reduce((sum, row) => sum + Amount(row[col]), 0)`, folded from the left. */
  function ColumnSum(rows: seq<Row>, col: nat, parse: Parser): real
  {
    if |rows| == 0 then 0.0
    else ColumnSum(rows[..|rows| - 1], col, parse) + Amount(parse, Cell(rows[|rows| - 1], col))
  }

  /** `rows.filter((row) => row[col] === key)`; strict equality on possibly
      undefined cells, so an undefined key matches rows too short to have
      that column. */
  function Where(rows: seq<Row>, col: nat, key: Option<string>): (w: seq<Row>)
    ensures |w| <= |rows|
    ensures forall i :: 0 <= i < |w| ==> Cell(w[i], col) == key
  {
    if |rows| == 0 then []
    else
      var last := rows[|rows| - 1];
      Where(rows[..|rows| - 1], col, key) + (if Cell(last, col) == key then [last] else [])
  }

  /** `appendSheet(range, rows)`: the rows land after the last row. */
  function Append(r: Range, rows: seq<Row>): Range
  {
    r + rows
  }

  /** The response of a POST handler: 201 with the created record, 400 when a
      required field is missing, 500 when the append fails. */
  datatype Response<T> = Created(record: T) | BadRequest(error: string) | ServerError(error: string)

  /** A POST's response together with the range as it stands afterwards. */
  datatype Outcome<T> = Outcome(response: Response<T>, sheet: Range)

  /** Appends `row` when `appendOk` (the store accepted the write), and
      otherwise reports `failure` with the range untouched. */
  function Commit<T>(sheet: Range, record: T, row: Row, appendOk: bool, failure: string): (o: Outcome<T>)
    ensures appendOk ==> o == Outcome(Created(record), sheet + [row])
    ensures !appendOk ==> o == Outcome(ServerError(failure), sheet)
  {
    if appendOk then Outcome(Created(record), Append(sheet, [row]))
    else Outcome(ServerError(failure), sheet)
  }

  /** The reduce over the body of a range extended by one row adds exactly
      that row's amount. */
  lemma ColumnSumSnoc(rows: seq<Row>, row: Row, col: nat, parse: Parser)
    ensures ColumnSum(rows + [row], col, parse) == ColumnSum(rows, col, parse) + Amount(parse, Cell(row, col))
  {
    assert (rows + [row])[..|rows + [row]| - 1] == rows;
  }

  /** The body of a range with at least a header grows by exactly the appended rows. */
  lemma BodyAppend(r: Range, rows: seq<Row>)
    requires |r| >= 1
    ensures Body(Append(r, rows)) == Body(r) + rows
  {
    assert (r + rows)[1..] == r[1..] + rows;
  }

  /** The sum over the rows that match a key is the pointwise sum in which
      every other row contributes nothing. */
  lemma {:induction false} WhereSumIsMaskedSum(rows: seq<Row>, keyCol: nat, key: Option<string>, col: nat, parse: Parser)
    ensures ColumnSum(Where(rows, keyCol, key), col, parse) == MaskedSum(rows, keyCol, key, col, parse)
    decreases |rows|
  {
    if |rows| > 0 {
      var pre, last := rows[..|rows| - 1], rows[|rows| - 1];
      assert rows == pre + [last];
      WhereSumIsMaskedSum(pre, keyCol, key, col, parse);
      if Cell(last, keyCol) == key {
        ColumnSumSnoc(Where(pre, keyCol, key), last, col, parse);
      } else {
        assert Where(rows, keyCol, key) == Where(pre, keyCol, key);
      }
    }
  }

  /** Reference definition of a filtered sum: each row adds its amount when
      its key column equals `key`, and 0 otherwise. */
  function MaskedSum(rows: seq<Row>, keyCol: nat, key: Option<string>, col: nat, parse: Parser): real
  {
    if |rows| == 0 then 0.0
    else
      var last := rows[|rows| - 1];
      MaskedSum(rows[..|rows| - 1], keyCol, key, col, parse)
        + (if Cell(last, keyCol) == key then Amount(parse, Cell(last, col)) else 0.0)
  }

  /** When no row carries `key` in the key column, the filtered sum is 0. */
  lemma {:induction false} MaskedSumNoMatch(rows: seq<Row>, keyCol: nat, key: Option<string>, col: nat, parse: Parser)
    requires forall i :: 0 <= i < |rows| ==> Cell(rows[i], keyCol) != key
    ensures MaskedSum(rows, keyCol, key, col, parse) == 0.0
    decreases |rows|
  {
    if |rows| > 0 {
      MaskedSumNoMatch(rows[..|rows| - 1], keyCol, key, col, parse);
    }
  }
}
