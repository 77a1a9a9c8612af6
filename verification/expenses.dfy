/** The Expenses range (columns A..F: ID, Category, Amount, ProjectID, Date,
    Description): the GET row mapper, the POST validation and the row writer. */
module Expenses {
  import opened Sheets

  /** The category is kept as text: neither GET nor POST checks it against
      Team, Tools, Vendor and Marketing. */
  datatype Expense = Expense(id: string, category: string, amount: real, projectId: string, date: string,
                             description: string)

  /** The fields a create request may carry. The form posts the amount as a
      JSON number; `None` is an absent or null field. */
  datatype ExpenseInput = ExpenseInput(category: Option<string>, amount: Option<real>, projectId: Option<string>,
                                       date: Option<string>, description: Option<string>)

  const MissingFields := "Category, amount, and description are required"
  const CreateFailed := "Failed to create expense"

  /** Column D: the project reference. */
  const ProjectCol := 3

  /** GET mapper for one data row. */
  function ExpenseFromRow(row: Row, today: string, parse: Parser): Expense
  {
    Expense(Or(Cell(row, 0), ""), Or(Cell(row, 1), ""), Amount(parse, Cell(row, AmountCol)),
            Or(Cell(row, ProjectCol), ""), Or(Cell(row, 4), today), Or(Cell(row, 5), ""))
  }

  /** GET: one expense per data row, in row order; no row is dropped. */
  function ListExpenses(sheet: Range, today: string, parse: Parser): (es: seq<Expense>)
    ensures |es| == if |sheet| == 0 then 0 else |sheet| - 1
    ensures forall i :: 0 <= i < |es| ==> es[i] == ExpenseFromRow(sheet[i + 1], today, parse)
  {
    var body := Body(sheet);
    seq(|body|, i requires 0 <= i < |body| => ExpenseFromRow(body[i], today, parse))
  }

  /** The row the POST handler appends; `render` is the text the store shows
      for the number written in the amount column. */
  function ExpenseRow(e: Expense, render: real -> string): Row
  {
    [e.id, e.category, render(e.amount), e.projectId, e.date, e.description]
  }

  /** Category, a non-zero amount and description are present; the date is
      not required. */
  predicate ValidExpense(input: ExpenseInput)
  {
    Truthy(input.category) && TruthyNumber(input.amount) && Truthy(input.description)
  }

  /** POST: category, amount and description are required; the project
      reference defaults to ""; the date is taken as given, an absent one
      becoming an empty cell. */
  function PostExpense(sheet: Range, input: ExpenseInput, id: string, render: real -> string, appendOk: bool)
    : (o: Outcome<Expense>)
    ensures o.response.BadRequest? <==> !ValidExpense(input)
    ensures o.response.BadRequest? ==> o.sheet == sheet && o.response.error == MissingFields
    ensures o.response.ServerError? <==> ValidExpense(input) && !appendOk
    ensures o.response.ServerError? ==> o.sheet == sheet && o.response.error == CreateFailed
    ensures o.response.Created? ==>
              && o.response.record.id == id
              && o.response.record.category == input.category.value && o.response.record.category != ""
              && o.response.record.amount == input.amount.value && o.response.record.amount != 0.0
              && o.response.record.projectId == (if Truthy(input.projectId) then input.projectId.value else "")
              && o.response.record.date == Or(input.date, "")
              && o.response.record.description == input.description.value
              && o.sheet == sheet + [ExpenseRow(o.response.record, render)]
  {
    if !ValidExpense(input) then Outcome(BadRequest(MissingFields), sheet)
    else
      var e := Expense(id, input.category.value, input.amount.value, Or(input.projectId, ""),
                       Or(input.date, ""), input.description.value);
      Commit(sheet, e, ExpenseRow(e, render), appendOk, CreateFailed)
  }

  /** When the store's text for the amount parses back to it, reading back a
      written row gives the expense again exactly when its date survives the
      `|| today` default. */
  lemma ExpenseRoundTrip(e: Expense, today: string, parse: Parser, render: real -> string)
    requires parse(render(e.amount)) == Some(e.amount)
    ensures ExpenseFromRow(ExpenseRow(e, render), today, parse) == e <==> e.date != "" || today == ""
  {
  }

  /** A blank row is not dropped: it maps to an expense of defaults with amount 0. */
  lemma BlankExpenseRow(today: string, parse: Parser)
    ensures ListExpenses([["ID"], []], today, parse) == [Expense("", "", 0.0, "", today, "")]
  {
  }

  /** Appending rows to a range that has its header extends the GET listing
      by exactly those rows' expenses. */
  lemma ListExpensesAppend(sheet: Range, rows: seq<Row>, today: string, parse: Parser)
    requires |sheet| >= 1
    ensures ListExpenses(Append(sheet, rows), today, parse)
         == ListExpenses(sheet, today, parse) + seq(|rows|, i requires 0 <= i < |rows| => ExpenseFromRow(rows[i], today, parse))
  {
    BodyAppend(sheet, rows);
  }

  /** An expense created by POST with a date is listed by the next GET, after
      every expense already there, when the store's text for its amount
      parses back to it. */
  lemma PostedExpenseIsListed(sheet: Range, input: ExpenseInput, id: string, today: string,
                              parse: Parser, render: real -> string)
    requires |sheet| >= 1
    requires ValidExpense(input) && Truthy(input.date)
    requires parse(render(input.amount.value)) == Some(input.amount.value)
    ensures PostExpense(sheet, input, id, render, true).response.Created?
    ensures ListExpenses(PostExpense(sheet, input, id, render, true).sheet, today, parse)
         == ListExpenses(sheet, today, parse) + [PostExpense(sheet, input, id, render, true).response.record]
  {
    var o := PostExpense(sheet, input, id, render, true);
    ListExpensesAppend(sheet, [ExpenseRow(o.response.record, render)], today, parse);
    ExpenseRoundTrip(o.response.record, today, parse, render);
  }
}
