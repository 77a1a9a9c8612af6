/** The Income_Transactions range (columns A..F: ID, ClientID, Amount, Date,
    Description, ProjectID): the GET row mapper, the POST validation and the
    row writer. */
module Income {
  import opened Sheets

  datatype IncomeTransaction = IncomeTransaction(id: string, clientId: string, amount: real, date: string,
                                                 description: string, projectId: string)

  /** The fields a create request may carry. The form posts the amount as a
      JSON number; `None` is an absent or null field. */
  datatype IncomeInput = IncomeInput(clientId: Option<string>, amount: Option<real>, date: Option<string>,
                                     description: Option<string>, projectId: Option<string>)

  const MissingFields := "Client, amount, date, and description are required"
  const CreateFailed := "Failed to create income transaction"

  /** Column F: the project reference. */
  const ProjectCol := 5

  /** GET mapper for one data row. */
  function IncomeFromRow(row: Row, today: string, parse: Parser): IncomeTransaction
  {
    IncomeTransaction(Or(Cell(row, 0), ""), Or(Cell(row, 1), ""), Amount(parse, Cell(row, AmountCol)),
                      Or(Cell(row, 3), today), Or(Cell(row, 4), ""), Or(Cell(row, ProjectCol), ""))
  }

  /** GET: one transaction per data row, in row order; no row is dropped. */
  function ListIncome(sheet: Range, today: string, parse: Parser): (ts: seq<IncomeTransaction>)
    ensures |ts| == if |sheet| == 0 then 0 else |sheet| - 1
    ensures forall i :: 0 <= i < |ts| ==> ts[i] == IncomeFromRow(sheet[i + 1], today, parse)
  {
    var body := Body(sheet);
    seq(|body|, i requires 0 <= i < |body| => IncomeFromRow(body[i], today, parse))
  }

  /** The row the POST handler appends; `render` is the text the store shows
      for the number written in the amount column. */
  function IncomeRow(t: IncomeTransaction, render: real -> string): Row
  {
    [t.id, t.clientId, render(t.amount), t.date, t.description, t.projectId]
  }

  /** Client id, a non-zero amount, date and description are all present. */
  predicate ValidIncome(input: IncomeInput)
  {
    Truthy(input.clientId) && TruthyNumber(input.amount) && Truthy(input.date) && Truthy(input.description)
  }

  /** POST: client, amount, date and description are required; the project
      reference defaults to "". */
  function PostIncome(sheet: Range, input: IncomeInput, id: string, render: real -> string, appendOk: bool)
    : (o: Outcome<IncomeTransaction>)
    ensures o.response.BadRequest? <==> !ValidIncome(input)
    ensures o.response.BadRequest? ==> o.sheet == sheet && o.response.error == MissingFields
    ensures o.response.ServerError? <==> ValidIncome(input) && !appendOk
    ensures o.response.ServerError? ==> o.sheet == sheet && o.response.error == CreateFailed
    ensures o.response.Created? ==>
              && o.response.record.id == id
              && o.response.record.clientId == input.clientId.value
              && o.response.record.amount == input.amount.value && o.response.record.amount != 0.0
              && o.response.record.date == input.date.value && o.response.record.date != ""
              && o.response.record.description == input.description.value
              && o.response.record.projectId == (if Truthy(input.projectId) then input.projectId.value else "")
              && o.sheet == sheet + [IncomeRow(o.response.record, render)]
  {
    if !ValidIncome(input) then Outcome(BadRequest(MissingFields), sheet)
    else
      var t := IncomeTransaction(id, input.clientId.value, input.amount.value, input.date.value,
                                 input.description.value, Or(input.projectId, ""));
      Commit(sheet, t, IncomeRow(t, render), appendOk, CreateFailed)
  }

  /** When the store's text for the amount parses back to it, reading back a
      written row gives the transaction again exactly when its date survives
      the `|| today` default. */
  lemma IncomeRoundTrip(t: IncomeTransaction, today: string, parse: Parser, render: real -> string)
    requires parse(render(t.amount)) == Some(t.amount)
    ensures IncomeFromRow(IncomeRow(t, render), today, parse) == t <==> t.date != "" || today == ""
  {
  }

  /** A blank row is not dropped: it maps to a transaction of defaults with amount 0. */
  lemma BlankIncomeRow(today: string, parse: Parser)
    ensures ListIncome([["ID"], []], today, parse) == [IncomeTransaction("", "", 0.0, today, "", "")]
  {
  }

  /** Appending rows to a range that has its header extends the GET listing
      by exactly those rows' transactions. */
  lemma ListIncomeAppend(sheet: Range, rows: seq<Row>, today: string, parse: Parser)
    requires |sheet| >= 1
    ensures ListIncome(Append(sheet, rows), today, parse)
         == ListIncome(sheet, today, parse) + seq(|rows|, i requires 0 <= i < |rows| => IncomeFromRow(rows[i], today, parse))
  {
    BodyAppend(sheet, rows);
  }

  /** A transaction created by POST is listed by the next GET, after every
      transaction already there, when the store's text for its amount parses
      back to it. */
  lemma PostedIncomeIsListed(sheet: Range, input: IncomeInput, id: string, today: string,
                             parse: Parser, render: real -> string)
    requires |sheet| >= 1
    requires ValidIncome(input)
    requires parse(render(input.amount.value)) == Some(input.amount.value)
    ensures PostIncome(sheet, input, id, render, true).response.Created?
    ensures ListIncome(PostIncome(sheet, input, id, render, true).sheet, today, parse)
         == ListIncome(sheet, today, parse) + [PostIncome(sheet, input, id, render, true).response.record]
  {
    var o := PostIncome(sheet, input, id, render, true);
    ListIncomeAppend(sheet, [IncomeRow(o.response.record, render)], today, parse);
    IncomeRoundTrip(o.response.record, today, parse, render);
  }
}
