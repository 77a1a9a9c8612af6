/** How the writers and the aggregators fit together: the columns the POST
    handlers write are the columns the profits and dashboard routes read,
    and the per-project incomes of the profits page add up to the
    dashboard's income total. */
module Consistency {
  import opened Sheets
  import Clients
  import Income
  import Expenses
  import Profits
  import ProfitsPage
  import Stats

  /** A filtered sum over rows extended by one row grows by that row's amount
      exactly when the row carries the key. */
  lemma MaskedSumSnoc(rows: seq<Row>, row: Row, keyCol: nat, key: Option<string>, col: nat, parse: Parser)
    ensures MaskedSum(rows + [row], keyCol, key, col, parse)
         == MaskedSum(rows, keyCol, key, col, parse) + (if Cell(row, keyCol) == key then Amount(parse, Cell(row, col)) else 0.0)
  {
    assert (rows + [row])[..|rows + [row]| - 1] == rows;
  }

  /** An income row the POST writes is credited to the project it names, by
      its amount, and to no other project; the dashboard total grows by the
      same amount. */
  lemma PostedIncomeReachesItsProject(income: Range, t: Income.IncomeTransaction, render: real -> string,
                                      parse: Parser, projectId: Option<string>)
    requires |income| >= 1
    requires parse(render(t.amount)) == Some(t.amount)
    ensures Profits.ProjectIncome(Append(income, [Income.IncomeRow(t, render)]), projectId, parse)
         == Profits.ProjectIncome(income, projectId, parse) + (if projectId == Some(t.projectId) then t.amount else 0.0)
    ensures ColumnSum(Body(Append(income, [Income.IncomeRow(t, render)])), AmountCol, parse)
         == ColumnSum(Body(income), AmountCol, parse) + t.amount
  {
    var row := Income.IncomeRow(t, render);
    BodyAppend(income, [row]);
    MaskedSumSnoc(Body(income), row, Income.ProjectCol, projectId, AmountCol, parse);
    ColumnSumSnoc(Body(income), row, AmountCol, parse);
  }

  /** An expense row the POST writes is charged to the project it names, by
      its amount, and to no other project; the dashboard total grows by the
      same amount. */
  lemma PostedExpenseReachesItsProject(expenses: Range, e: Expenses.Expense, render: real -> string,
                                       parse: Parser, projectId: Option<string>)
    requires |expenses| >= 1
    requires parse(render(e.amount)) == Some(e.amount)
    ensures Profits.ProjectExpenses(Append(expenses, [Expenses.ExpenseRow(e, render)]), projectId, parse)
         == Profits.ProjectExpenses(expenses, projectId, parse) + (if projectId == Some(e.projectId) then e.amount else 0.0)
    ensures ColumnSum(Body(Append(expenses, [Expenses.ExpenseRow(e, render)])), AmountCol, parse)
         == ColumnSum(Body(expenses), AmountCol, parse) + e.amount
  {
    var row := Expenses.ExpenseRow(e, render);
    BodyAppend(expenses, [row]);
    MaskedSumSnoc(Body(expenses), row, Expenses.ProjectCol, projectId, AmountCol, parse);
    ColumnSumSnoc(Body(expenses), row, AmountCol, parse);
  }

  /** After a client is created, a project naming the new client's id shows
      that client's nickname: the writer's columns A and B are the ones the
      client index reads. */
  lemma PostedClientNameResolves(clients: Range, input: Clients.ClientInput, id: string, now: string)
    requires |clients| >= 1
    requires Clients.ValidClient(input)
    ensures var o := Clients.PostClient(clients, input, id, now, true);
            && o.response.Created?
            && Profits.ClientNameOf(Profits.IndexClients(Body(o.sheet)), Some(id)) == o.response.record.nickname
  {
    var o := Clients.PostClient(clients, input, id, now, true);
    var row := Clients.ClientRow(o.response.record);
    BodyAppend(clients, [row]);
    assert (Body(clients) + [row])[..|Body(clients) + [row]| - 1] == Body(clients);
  }

  // ---------------------------------------------------------------------
  // Conservation of income between the profits page and the dashboard.

  /** The id cells of the project rows, in row order. */
  function ProjectIds(projects: Range): (ids: seq<Option<string>>)
    ensures |ids| == |Body(projects)|
  {
    var body := Body(projects);
    seq(|body|, i requires 0 <= i < |body| => Cell(body[i], 0))
  }

  predicate Distinct(ks: seq<Option<string>>)
  {
    forall i, j :: 0 <= i < j < |ks| ==> ks[i] != ks[j]
  }

  /** Sum, over the keys, of the rows carrying each key. */
  function SumOverKeys(rows: seq<Row>, keyCol: nat, ks: seq<Option<string>>, col: nat, parse: Parser): real
  {
    if |ks| == 0 then 0.0
    else SumOverKeys(rows, keyCol, ks[..|ks| - 1], col, parse) + MaskedSum(rows, keyCol, ks[|ks| - 1], col, parse)
  }

  /** Sum of the rows whose key is none of `ks`. */
  function Unattributed(rows: seq<Row>, keyCol: nat, ks: seq<Option<string>>, col: nat, parse: Parser): real
  {
    if |rows| == 0 then 0.0
    else
      var last := rows[|rows| - 1];
      Unattributed(rows[..|rows| - 1], keyCol, ks, col, parse)
        + (if Cell(last, keyCol) !in ks then Amount(parse, Cell(last, col)) else 0.0)
  }

  /** One more row adds its amount to exactly one of the distinct keys it carries, or to none. */
  lemma {:induction false} SumOverKeysSnoc(rows: seq<Row>, row: Row, keyCol: nat, ks: seq<Option<string>>, col: nat,
                                           parse: Parser)
    requires Distinct(ks)
    ensures SumOverKeys(rows + [row], keyCol, ks, col, parse)
         == SumOverKeys(rows, keyCol, ks, col, parse) + (if Cell(row, keyCol) in ks then Amount(parse, Cell(row, col)) else 0.0)
    decreases |ks|
  {
    if |ks| > 0 {
      var ks' := ks[..|ks| - 1];
      assert ks == ks' + [ks[|ks| - 1]];
      SumOverKeysSnoc(rows, row, keyCol, ks', col, parse);
      MaskedSumSnoc(rows, row, keyCol, ks[|ks| - 1], col, parse);
    }
  }

  /** With distinct keys, the per-key sums and the unattributed rows together
      account for every row exactly once. */
  lemma {:induction false} KeysPartitionRows(rows: seq<Row>, keyCol: nat, ks: seq<Option<string>>, col: nat, parse: Parser)
    requires Distinct(ks)
    ensures SumOverKeys(rows, keyCol, ks, col, parse) + Unattributed(rows, keyCol, ks, col, parse)
         == ColumnSum(rows, col, parse)
    decreases |rows|
  {
    if |rows| == 0 {
      SumOverKeysOfNoRows(keyCol, ks, col, parse);
    } else {
      var pre, last := rows[..|rows| - 1], rows[|rows| - 1];
      assert rows == pre + [last];
      KeysPartitionRows(pre, keyCol, ks, col, parse);
      SumOverKeysSnoc(pre, last, keyCol, ks, col, parse);
    }
  }

  lemma {:induction false} SumOverKeysOfNoRows(keyCol: nat, ks: seq<Option<string>>, col: nat, parse: Parser)
    ensures SumOverKeys([], keyCol, ks, col, parse) == 0.0
    decreases |ks|
  {
    if |ks| > 0 {
      SumOverKeysOfNoRows(keyCol, ks[..|ks| - 1], col, parse);
    }
  }

  /** The revenue of the per-row records is the sum, over the project ids in
      row order, of each id's matching income. */
  lemma {:induction false} RevenueIsSumOverIds(l: seq<Profits.ProjectProfit>, ids: seq<Option<string>>, income: Range,
                                               parse: Parser)
    requires |l| == |ids|
    requires forall i :: 0 <= i < |l| ==> l[i].totalIncome == Profits.ProjectIncome(income, ids[i], parse)
    ensures ProfitsPage.Total(l, ProfitsPage.Revenue)
         == SumOverKeys(Body(income), Income.ProjectCol, ids, AmountCol, parse)
    decreases |l|
  {
    if |l| > 0 {
      RevenueIsSumOverIds(l[..|l| - 1], ids[..|ids| - 1], income, parse);
    }
  }

  /** The expenses of the per-row records is the sum, over the project ids in
      row order, of each id's matching expenses. */
  lemma {:induction false} CostIsSumOverIds(l: seq<Profits.ProjectProfit>, ids: seq<Option<string>>, expenses: Range,
                                            parse: Parser)
    requires |l| == |ids|
    requires forall i :: 0 <= i < |l| ==> l[i].totalExpenses == Profits.ProjectExpenses(expenses, ids[i], parse)
    ensures ProfitsPage.Total(l, ProfitsPage.Cost)
         == SumOverKeys(Body(expenses), Expenses.ProjectCol, ids, AmountCol, parse)
    decreases |l|
  {
    if |l| > 0 {
      CostIsSumOverIds(l[..|l| - 1], ids[..|ids| - 1], expenses, parse);
    }
  }

  /** When project ids are distinct, the profits page's revenue card plus the
      income no project row claims is the dashboard's income total, and the
      same holds for expenses: every income or expense row is counted on the
      profits page at most once. */
  lemma IncomeIsConserved(projects: Range, clients: Range, income: Range, expenses: Range, parse: Parser,
                          margin: Profits.MarginFn)
    requires Distinct(ProjectIds(projects))
    ensures var page := ProfitsPage.Summarize(Profits.ProjectProfits(projects, clients, income, expenses, parse, margin));
            var dash := Stats.Dashboard(clients, income, expenses, projects, parse);
            && page.totalRevenue + Unattributed(Body(income), Income.ProjectCol, ProjectIds(projects), AmountCol, parse)
               == dash.totalIncome
            && page.totalExpenses + Unattributed(Body(expenses), Expenses.ProjectCol, ProjectIds(projects), AmountCol, parse)
               == dash.totalExpenses
  {
    var l := Profits.Unsorted(projects, clients, income, expenses, parse, margin);
    var ids := ProjectIds(projects);
    ProfitsPage.PageSummaryOfRoute(projects, clients, income, expenses, parse, margin);
    RevenueIsSumOverIds(l, ids, income, parse);
    CostIsSumOverIds(l, ids, expenses, parse);
    KeysPartitionRows(Body(income), Income.ProjectCol, ids, AmountCol, parse);
    KeysPartitionRows(Body(expenses), Expenses.ProjectCol, ids, AmountCol, parse);
  }
}
