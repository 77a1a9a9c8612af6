/** The dashboard statistics route: header-adjusted counts, global income and
    expense sums, and the count of active projects. */
module Stats {
  import opened Sheets
  import Projects
  import Income
  import Expenses

  datatype DashboardStats = DashboardStats(totalClients: nat, totalProjects: nat, totalIncome: real,
                                           totalExpenses: real, totalProfit: real, activeProjects: nat)

  /** What the handler answers when anything throws. */
  const Fallback := DashboardStats(0, 0, 0.0, 0.0, 0.0, 0)

  const InProgress := "In Progress"

  /** The status column the route's filter reads as written: G (index 6). */
  const WrittenStatusCol := 6

  /** Status as the projects GET and POST place it: column F (index 5). */
  const StatusCol := 5

  /** `Math.max(0, rows.length - 1)`: the number of data rows. */
  function RowCount(r: Range): (n: nat)
    ensures n == |Body(r)|
  {
    if |r| - 1 > 0 then |r| - 1 else 0
  }

  /** A status cell the route counts as active: exactly "In Progress" or "Planning". */
  predicate IsActive(c: Option<string>)
  {
    c == Some(InProgress) || c == Some(Projects.Planning)
  }

  /** Positions of the rows whose cell in `col` is an active status. */
  function ActiveIndices(rows: seq<Row>, col: nat): set<int>
  {
    set i | 0 <= i < |rows| && IsActive(Cell(rows[i], col))
  }

  /** `rows.filter(row => row[col] === "In Progress" || row[col] === "Planning").length` */
  function CountActive(rows: seq<Row>, col: nat): (n: nat)
    ensures n <= |rows|
    ensures n == 0 <==> forall i :: 0 <= i < |rows| ==> !IsActive(Cell(rows[i], col))
    ensures n == |rows| <==> forall i :: 0 <= i < |rows| ==> IsActive(Cell(rows[i], col))
  {
    if |rows| == 0 then 0
    else
      var pre := rows[..|rows| - 1];
      assert forall i :: 0 <= i < |pre| ==> pre[i] == rows[i];
      CountActive(pre, col) + (if IsActive(Cell(rows[|rows| - 1], col)) then 1 else 0)
  }

  /** The count is the number of positions whose status cell is active. */
  lemma {:induction false} CountActiveIsCardinality(rows: seq<Row>, col: nat)
    ensures CountActive(rows, col) == |ActiveIndices(rows, col)|
    decreases |rows|
  {
    if |rows| == 0 {
      assert ActiveIndices(rows, col) == {};
    } else {
      var pre, k := rows[..|rows| - 1], |rows| - 1;
      CountActiveIsCardinality(pre, col);
      var before, after := ActiveIndices(pre, col), ActiveIndices(rows, col);
      var added: set<int> := if IsActive(Cell(rows[k], col)) then {k} else {};
      forall i | i in after ensures i in before + added {
        if i < k {
          assert pre[i] == rows[i];
        }
      }
      forall i | i in before + added ensures i in after {
        if i in before {
          assert pre[i] == rows[i];
        }
      }
      assert after == before + added;
      assert k !in before;
    }
  }

  /** The active count as the route computes it, from column G. */
  function ActiveProjectsAsWritten(projects: Range): (n: nat)
    ensures n <= |Body(projects)|
  {
    CountActive(Body(projects), WrittenStatusCol)
  }

  /** The active count as evidently intended: status read from the column the
      projects GET reads and the POST writes. */
  function ActiveProjects(projects: Range): (n: nat)
    ensures n <= |Body(projects)|
  {
    CountActive(Body(projects), StatusCol)
  }

  /** The statistics with the active count read from column `statusCol`. */
  function StatsWith(clients: Range, income: Range, expenses: Range, projects: Range, parse: Parser, statusCol: nat)
    : (s: DashboardStats)
    ensures s.totalClients == |Body(clients)| && s.totalProjects == |Body(projects)|
    ensures s.totalProfit == s.totalIncome - s.totalExpenses
    ensures s.activeProjects <= s.totalProjects
  {
    var totalIncome := ColumnSum(Body(income), AmountCol, parse);
    var totalExpenses := ColumnSum(Body(expenses), AmountCol, parse);
    DashboardStats(RowCount(clients), RowCount(projects), totalIncome, totalExpenses,
                   totalIncome - totalExpenses, CountActive(Body(projects), statusCol))
  }

  /** GET /api/dashboard/stats over the four ranges as read: the active count
      is taken from column G, as the route's filter reads it. */
  function Dashboard(clients: Range, income: Range, expenses: Range, projects: Range, parse: Parser)
    : (s: DashboardStats)
    ensures s.totalClients == |Body(clients)| && s.totalProjects == |Body(projects)|
    ensures s.totalProfit == s.totalIncome - s.totalExpenses
    ensures s.activeProjects == 0 <==>
              forall i :: 0 <= i < |Body(projects)| ==> !IsActive(Cell(Body(projects)[i], WrittenStatusCol))
    ensures s.activeProjects <= s.totalProjects
  {
    StatsWith(clients, income, expenses, projects, parse, WrittenStatusCol)
  }

  /** The statistics as evidently intended: the same figures, except that
      the active count reads the status from column F. */
  function DashboardIntended(clients: Range, income: Range, expenses: Range, projects: Range, parse: Parser)
    : (s: DashboardStats)
    ensures s.activeProjects == ActiveProjects(projects)
    ensures s == Dashboard(clients, income, expenses, projects, parse).(activeProjects := s.activeProjects)
  {
    StatsWith(clients, income, expenses, projects, parse, StatusCol)
  }

  /** When every read fails soft (each range empty) the statistics are the
      all-zero fallback, so failing reads and a thrown error look alike. */
  lemma EmptyReadsGiveFallback(parse: Parser)
    ensures Dashboard([], [], [], [], parse) == Fallback
  {
  }

  /** Sum of the amounts of a list of income transactions. */
  function IncomeTotal(ts: seq<Income.IncomeTransaction>): real
  {
    if |ts| == 0 then 0.0 else IncomeTotal(ts[..|ts| - 1]) + ts[|ts| - 1].amount
  }

  /** Sum of the amounts of a list of expenses. */
  function ExpenseTotal(es: seq<Expenses.Expense>): real
  {
    if |es| == 0 then 0.0 else ExpenseTotal(es[..|es| - 1]) + es[|es| - 1].amount
  }

  /** The dashboard's income total is the sum of the amounts the income GET
      lists: an unparseable or missing amount counts 0 in both. */
  lemma {:induction false} TotalIncomeMatchesListing(income: Range, today: string, parse: Parser)
    ensures ColumnSum(Body(income), AmountCol, parse) == IncomeTotal(Income.ListIncome(income, today, parse))
    decreases |income|
  {
    if |income| > 1 {
      var pre := income[..|income| - 1];
      TotalIncomeMatchesListing(pre, today, parse);
      assert Body(pre) == Body(income)[..|Body(income)| - 1];
      var ts := Income.ListIncome(income, today, parse);
      assert Income.ListIncome(pre, today, parse) == ts[..|ts| - 1];
    }
  }

  /** The dashboard's expense total is the sum of the amounts the expense GET lists. */
  lemma {:induction false} TotalExpensesMatchListing(expenses: Range, today: string, parse: Parser)
    ensures ColumnSum(Body(expenses), AmountCol, parse) == ExpenseTotal(Expenses.ListExpenses(expenses, today, parse))
    decreases |expenses|
  {
    if |expenses| > 1 {
      var pre := expenses[..|expenses| - 1];
      TotalExpensesMatchListing(pre, today, parse);
      assert Body(pre) == Body(expenses)[..|Body(expenses)| - 1];
      var es := Expenses.ListExpenses(expenses, today, parse);
      assert Expenses.ListExpenses(pre, today, parse) == es[..|es| - 1];
    }
  }

  /** A range whose data rows have at most six cells (columns A..F, as every
      row the projects POST writes) has no active project as the route's
      column-G filter counts them, whatever the statuses. */
  lemma SixColumnRowsNeverActive(projects: Range)
    requires forall i :: 0 <= i < |Body(projects)| ==> |Body(projects)[i]| <= 6
    ensures CountActive(Body(projects), WrittenStatusCol) == 0
  {
    assert forall i :: 0 <= i < |Body(projects)| ==> Cell(Body(projects)[i], WrittenStatusCol) == None;
  }

  /** Every row the projects POST writes has six cells, so after any number
      of creations the route's active count, as written, is still 0. */
  lemma PostedProjectsNeverActive(header: Row, ps: seq<Projects.Project>)
    ensures ActiveProjectsAsWritten([header] + seq(|ps|, i requires 0 <= i < |ps| => Projects.ProjectRow(ps[i]))) == 0
  {
    var rows := seq(|ps|, i requires 0 <= i < |ps| => Projects.ProjectRow(ps[i]));
    assert Body([header] + rows) == rows;
    SixColumnRowsNeverActive([header] + rows);
  }

  /** With the status read from column F, a project the POST wrote (its
      status is never empty) counts as active exactly when the projects GET
      shows it as "Planning" or "In Progress". */
  lemma IntendedCountsPostedProjects(header: Row, ps: seq<Projects.Project>, today: string)
    requires forall k :: 0 <= k < |ps| ==> ps[k].status != ""
    ensures var projects := [header] + seq(|ps|, i requires 0 <= i < |ps| => Projects.ProjectRow(ps[i]));
            forall k :: 0 <= k < |ps| ==>
              (IsActive(Cell(Body(projects)[k], StatusCol)) <==> IsActive(Some(Projects.ListProjects(projects, today)[k].status)))
  {
    var rows := seq(|ps|, i requires 0 <= i < |ps| => Projects.ProjectRow(ps[i]));
    assert Body([header] + rows) == rows;
    forall k | 0 <= k < |ps|
      ensures Projects.ListProjects([header] + rows, today)[k].status == ps[k].status
    {
      assert Projects.ProjectFromRow(rows[k], today).status == ps[k].status;
    }
  }

  /** Number of listed projects whose status is "In Progress" or "Planning". */
  function ListedActive(ps: seq<Projects.Project>): nat
  {
    if |ps| == 0 then 0
    else ListedActive(ps[..|ps| - 1]) + (if IsActive(Some(ps[|ps| - 1].status)) then 1 else 0)
  }

  /** When every data row carries a status, the dashboard's active count is
      the number of projects the projects GET lists as "In Progress" or
      "Planning". */
  lemma {:induction false} ActiveCountMatchesListing(projects: Range, today: string)
    requires forall i :: 0 <= i < |Body(projects)| ==> Truthy(Cell(Body(projects)[i], StatusCol))
    ensures ActiveProjects(projects) == ListedActive(Projects.ListProjects(projects, today))
    decreases |projects|
  {
    if |projects| > 1 {
      var pre, body := projects[..|projects| - 1], Body(projects);
      var last := body[|body| - 1];
      assert Body(pre) == body[..|body| - 1];
      ActiveCountMatchesListing(pre, today);
      var ps := Projects.ListProjects(projects, today);
      assert Projects.ListProjects(pre, today) == ps[..|ps| - 1];
      assert ps[|ps| - 1].status == last[StatusCol];
      assert CountActive(body, StatusCol)
          == CountActive(Body(pre), StatusCol) + (if IsActive(Cell(last, StatusCol)) then 1 else 0);
    }
  }

  /** A project posted without a status into a range holding only its
      header: the projects GET lists it as "Planning", the route's active
      count as written is 0, the intended count is 1. */
  lemma PostedPlanningProjectNotCounted(header: Row, input: Projects.ProjectInput, id: string, today: string,
                                        clients: Range, income: Range, expenses: Range, parse: Parser)
    requires Projects.ValidProject(input) && input.status == None
    ensures var o := Projects.PostProject([header], input, id, true);
            && o.response.Created?
            && |Projects.ListProjects(o.sheet, today)| == 1
            && Projects.ListProjects(o.sheet, today)[0].status == Projects.Planning
            && ActiveProjectsAsWritten(o.sheet) == 0
            && Dashboard(clients, income, expenses, o.sheet, parse).activeProjects == 0
            && DashboardIntended(clients, income, expenses, o.sheet, parse).activeProjects == 1
  {
    var o := Projects.PostProject([header], input, id, true);
    assert Body(o.sheet) == [Projects.ProjectRow(o.response.record)];
  }
}
