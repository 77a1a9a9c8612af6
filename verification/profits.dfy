/** The profits route: joins the Projects range with the Clients, Income and
    Expenses ranges by the raw id cells, computes one `ProjectProfit` per
    project row and sorts the list by profit, descending and stably. */
module Profits {
  import opened Sheets
  import Income
  import Expenses

  datatype ProjectProfit = ProjectProfit(projectId: Option<string>, projectName: Option<string>, clientName: string,
                                         totalIncome: real, totalExpenses: real, profit: real, profitMargin: real)

  /** `calculateProfitMargin(income, expenses)`, whose definition is not part
      of this model. */
  type MarginFn = (real, real) -> real

  const UnknownClient := "Unknown Client"

  /** Columns the join reads. */
  const ClientIdCol := 0
  const NicknameCol := 1
  const ProjectClientCol := 2

  /** The `clientMap`: raw client-id cell to raw nickname cell. */
  type ClientIndex = map<Option<string>, Option<string>>

  /** `clients.slice(1).forEach(row => clientMap.set(row[0], row[1]))`:
      rows are set in order, so a later row overwrites an earlier one. */
  function IndexClients(rows: seq<Row>): ClientIndex
  {
    if |rows| == 0 then map[]
    else
      var last := rows[|rows| - 1];
      IndexClients(rows[..|rows| - 1])[Cell(last, ClientIdCol) := Cell(last, NicknameCol)]
  }

  /** `Map.prototype.get`: undefined for a missing key. */
  function Get(m: ClientIndex, key: Option<string>): Option<string>
  {
    if key in m then m[key] else None
  }

  /** Row `i` is the last of `rows` whose id cell is `key`. */
  ghost predicate LastWithId(rows: seq<Row>, key: Option<string>, i: int)
  {
    && 0 <= i < |rows|
    && Cell(rows[i], ClientIdCol) == key
    && forall j :: i < j < |rows| ==> Cell(rows[j], ClientIdCol) != key
  }

  /** Looking up the index after one more row: that row answers for its own
      id, the earlier rows for every other key. */
  lemma IndexStep(rows: seq<Row>, key: Option<string>)
    requires |rows| > 0
    ensures Get(IndexClients(rows), key)
         == if Cell(rows[|rows| - 1], ClientIdCol) == key then Cell(rows[|rows| - 1], NicknameCol)
            else Get(IndexClients(rows[..|rows| - 1]), key)
  {
  }

  /** The index answers undefined for a key no row carries. */
  lemma {:induction false} IndexMissing(rows: seq<Row>, key: Option<string>)
    requires forall i :: 0 <= i < |rows| ==> Cell(rows[i], ClientIdCol) != key
    ensures Get(IndexClients(rows), key) == None
    decreases |rows|
  {
    if |rows| > 0 {
      var pre := rows[..|rows| - 1];
      assert forall i :: 0 <= i < |pre| ==> pre[i] == rows[i];
      IndexMissing(pre, key);
      IndexStep(rows, key);
    }
  }

  /** The index answers with the nickname cell of the last row carrying the key. */
  lemma {:induction false} IndexLastWins(rows: seq<Row>, key: Option<string>, i: int)
    requires LastWithId(rows, key, i)
    ensures Get(IndexClients(rows), key) == Cell(rows[i], NicknameCol)
    decreases |rows|
  {
    var pre := rows[..|rows| - 1];
    IndexStep(rows, key);
    if i < |rows| - 1 {
      assert rows[i] == pre[i];
      assert forall j :: i < j < |pre| ==> pre[j] == rows[j];
      assert LastWithId(pre, key, i);
      IndexLastWins(pre, key, i);
    }
  }

  /** The client name of a project row: `clientMap.get(clientId) || "Unknown Client"`. */
  function ClientNameOf(index: ClientIndex, clientId: Option<string>): string
  {
    Or(Get(index, clientId), UnknownClient)
  }

  /** Income of one project: the amounts (column C) of the income rows whose
      project cell (column F) is the project's id cell; no other row counts. */
  function ProjectIncome(income: Range, projectId: Option<string>, parse: Parser): (total: real)
    ensures total == MaskedSum(Body(income), Income.ProjectCol, projectId, AmountCol, parse)
  {
    WhereSumIsMaskedSum(Body(income), Income.ProjectCol, projectId, AmountCol, parse);
    ColumnSum(Where(Body(income), Income.ProjectCol, projectId), AmountCol, parse)
  }

  /** Expenses of one project: the amounts (column C) of the expense rows
      whose project cell (column D) is the project's id cell. */
  function ProjectExpenses(expenses: Range, projectId: Option<string>, parse: Parser): (total: real)
    ensures total == MaskedSum(Body(expenses), Expenses.ProjectCol, projectId, AmountCol, parse)
  {
    WhereSumIsMaskedSum(Body(expenses), Expenses.ProjectCol, projectId, AmountCol, parse);
    ColumnSum(Where(Body(expenses), Expenses.ProjectCol, projectId), AmountCol, parse)
  }

  /** The record the route builds for one project row. */
  function ProfitOf(row: Row, index: ClientIndex, income: Range, expenses: Range, parse: Parser, margin: MarginFn)
    : ProjectProfit
  {
    var projectId := Cell(row, 0);
    var totalIncome := ProjectIncome(income, projectId, parse);
    var totalExpenses := ProjectExpenses(expenses, projectId, parse);
    ProjectProfit(projectId, Cell(row, 1), ClientNameOf(index, Cell(row, ProjectClientCol)),
                  totalIncome, totalExpenses, totalIncome - totalExpenses, margin(totalIncome, totalExpenses))
  }

  /** The list before sorting: one record per project row, in row order. */
  function Unsorted(projects: Range, clients: Range, income: Range, expenses: Range, parse: Parser, margin: MarginFn)
    : (ps: seq<ProjectProfit>)
    ensures |ps| == |Body(projects)|
  {
    var index := IndexClients(Body(clients));
    var body := Body(projects);
    seq(|body|, i requires 0 <= i < |body| => ProfitOf(body[i], index, income, expenses, parse, margin))
  }

  // ---------------------------------------------------------------------
  // `projectProfits.sort((a, b) => b.profit - a.profit)`: a stable sort by
  // profit, descending (section 23.1.3.30 of ECMA-262, 2023, requires
  // `Array.prototype.sort` to be stable).

  predicate SortedByProfit(s: seq<ProjectProfit>)
  {
    forall i, j :: 0 <= i < j < |s| ==> s[i].profit >= s[j].profit
  }

  /** The entries of `s` whose profit is `v`, in their order in `s`. */
  function WithProfit(s: seq<ProjectProfit>, v: real): seq<ProjectProfit>
  {
    if |s| == 0 then []
    else (if s[0].profit == v then [s[0]] else []) + WithProfit(s[1..], v)
  }

  /** `r` is a stable reordering of `s`: for each profit value, the entries
      carrying it appear in the same order in both. */
  ghost predicate StablyReorders(r: seq<ProjectProfit>, s: seq<ProjectProfit>)
  {
    forall v :: WithProfit(r, v) == WithProfit(s, v)
  }

  /** Places `x` in front of the first entry whose profit does not exceed
      its own, so it precedes every entry of equal profit. */
  function Insert(x: ProjectProfit, s: seq<ProjectProfit>): (r: seq<ProjectProfit>)
    requires SortedByProfit(s)
    ensures SortedByProfit(r)
    ensures multiset(r) == multiset(s) + multiset{x}
    ensures |r| == |s| + 1
    ensures r[0] == x || (|s| > 0 && r[0] == s[0])
  {
    if |s| == 0 || x.profit >= s[0].profit then [x] + s
    else
      assert s == [s[0]] + s[1..];
      var rest := Insert(x, s[1..]);
      assert rest[0].profit <= s[0].profit;
      [s[0]] + rest
  }

  /** Insertion sort, from the back: descending by profit, a permutation of its input. */
  function SortByProfit(s: seq<ProjectProfit>): (r: seq<ProjectProfit>)
    ensures SortedByProfit(r)
    ensures multiset(r) == multiset(s)
    ensures |r| == |s|
  {
    if |s| == 0 then []
    else
      assert s == [s[0]] + s[1..];
      Insert(s[0], SortByProfit(s[1..]))
  }

  /** Every entry of `WithProfit(s, v)` is an entry of `s` with profit `v`, and conversely. */
  lemma {:induction false} WithProfitMembers(s: seq<ProjectProfit>, v: real)
    ensures forall x :: x in WithProfit(s, v) <==> x in s && x.profit == v
    decreases |s|
  {
    if |s| > 0 {
      WithProfitMembers(s[1..], v);
      assert s == [s[0]] + s[1..];
    }
  }

  /** Inserting keeps `x` ahead of the entries of equal profit. */
  lemma {:induction false} InsertIsStable(x: ProjectProfit, s: seq<ProjectProfit>)
    requires SortedByProfit(s)
    ensures StablyReorders(Insert(x, s), [x] + s)
    decreases |s|
  {
    if |s| > 0 && x.profit < s[0].profit {
      var rest := Insert(x, s[1..]);
      InsertIsStable(x, s[1..]);
      forall v
        ensures WithProfit(Insert(x, s), v) == WithProfit([x] + s, v)
      {
        assert ([s[0]] + rest)[1..] == rest;
        assert ([x] + s[1..])[1..] == s[1..];
        assert ([x] + s)[1..] == s;
      }
    }
  }

  /** The sort keeps the row order of entries with equal profit. */
  lemma {:induction false} SortIsStable(s: seq<ProjectProfit>)
    ensures StablyReorders(SortByProfit(s), s)
    decreases |s|
  {
    if |s| > 0 {
      SortIsStable(s[1..]);
      InsertIsStable(s[0], SortByProfit(s[1..]));
      forall v
        ensures WithProfit(SortByProfit(s), v) == WithProfit(s, v)
      {
        assert ([s[0]] + SortByProfit(s[1..]))[1..] == SortByProfit(s[1..]);
      }
    }
  }

  /** Two descending, stable reorderings of each other start with the same
      entry, and their tails are again stable reorderings of each other. */
  lemma HeadsAgree(a: seq<ProjectProfit>, b: seq<ProjectProfit>)
    requires SortedByProfit(a) && SortedByProfit(b)
    requires StablyReorders(a, b)
    requires |a| > 0 && |b| > 0
    ensures a[0] == b[0]
    ensures StablyReorders(a[1..], b[1..])
  {
    var p, q := a[0].profit, b[0].profit;
    WithProfitMembers(a, p);
    WithProfitMembers(b, p);
    WithProfitMembers(a, q);
    WithProfitMembers(b, q);
    assert a[0] in WithProfit(a, p);
    assert b[0] in WithProfit(b, q);
    assert p == q;
    assert WithProfit(a, p) == WithProfit(b, p);
    assert WithProfit(a, p)[0] == a[0];
    assert WithProfit(b, p)[0] == b[0];
    forall v
      ensures WithProfit(a[1..], v) == WithProfit(b[1..], v)
    {
      assert WithProfit(a, v) == WithProfit(b, v);
      if v == p {
        assert WithProfit(a, v)[1..] == WithProfit(a[1..], v);
        assert WithProfit(b, v)[1..] == WithProfit(b[1..], v);
      } else {
        assert WithProfit(a, v) == WithProfit(a[1..], v);
        assert WithProfit(b, v) == WithProfit(b[1..], v);
      }
    }
  }

  /** A descending, stable reordering is unique: any two agree entry for
      entry. So `SortByProfit` is the list the route returns, whichever
      stable algorithm the engine runs. */
  lemma {:induction false} StableSortIsUnique(a: seq<ProjectProfit>, b: seq<ProjectProfit>)
    requires SortedByProfit(a) && SortedByProfit(b)
    requires StablyReorders(a, b)
    ensures a == b
    decreases |a|
  {
    if |a| > 0 {
      assert WithProfit(a, a[0].profit) != [];
    }
    if |b| > 0 {
      assert WithProfit(b, b[0].profit) != [];
    }
    if |a| > 0 && |b| > 0 {
      HeadsAgree(a, b);
      StableSortIsUnique(a[1..], b[1..]);
      assert a == [a[0]] + a[1..];
      assert b == [b[0]] + b[1..];
    }
  }

  // ---------------------------------------------------------------------

  /** GET /api/profits: one record per project row, sorted by profit
      descending, ties kept in project-row order. */
  function ProjectProfits(projects: Range, clients: Range, income: Range, expenses: Range, parse: Parser, margin: MarginFn)
    : (ps: seq<ProjectProfit>)
    ensures |ps| == if |projects| == 0 then 0 else |projects| - 1
    ensures multiset(ps) == multiset(Unsorted(projects, clients, income, expenses, parse, margin))
    ensures SortedByProfit(ps)
    ensures StablyReorders(ps, Unsorted(projects, clients, income, expenses, parse, margin))
    ensures forall p :: p in ps ==> p.profit == p.totalIncome - p.totalExpenses
  {
    var unsorted := Unsorted(projects, clients, income, expenses, parse, margin);
    SortIsStable(unsorted);
    var ps := SortByProfit(unsorted);
    assert forall p :: p in ps ==> p in multiset(unsorted);
    ps
  }

  /** The client name of a project row is the nickname of the last client
      row whose id cell equals the project's client-id cell, or
      "Unknown Client" when no row matches or that nickname is empty. */
  lemma ClientNameIsLastMatch(clients: Range, clientId: Option<string>)
    ensures (forall i :: 0 <= i < |Body(clients)| ==> Cell(Body(clients)[i], ClientIdCol) != clientId)
              ==> ClientNameOf(IndexClients(Body(clients)), clientId) == UnknownClient
    ensures forall i :: LastWithId(Body(clients), clientId, i) ==>
              ClientNameOf(IndexClients(Body(clients)), clientId) == Or(Cell(Body(clients)[i], NicknameCol), UnknownClient)
  {
    if forall i :: 0 <= i < |Body(clients)| ==> Cell(Body(clients)[i], ClientIdCol) != clientId {
      IndexMissing(Body(clients), clientId);
    }
    forall i | LastWithId(Body(clients), clientId, i)
      ensures ClientNameOf(IndexClients(Body(clients)), clientId) == Or(Cell(Body(clients)[i], NicknameCol), UnknownClient)
    {
      IndexLastWins(Body(clients), clientId, i);
    }
  }

  /** A project no income or expense row refers to has zero income, expenses and profit. */
  lemma UnreferencedProjectIsZero(row: Row, index: ClientIndex, income: Range, expenses: Range, parse: Parser,
                                  margin: MarginFn)
    requires forall i :: 0 <= i < |Body(income)| ==> Cell(Body(income)[i], Income.ProjectCol) != Cell(row, 0)
    requires forall i :: 0 <= i < |Body(expenses)| ==> Cell(Body(expenses)[i], Expenses.ProjectCol) != Cell(row, 0)
    ensures ProfitOf(row, index, income, expenses, parse, margin).totalIncome == 0.0
    ensures ProfitOf(row, index, income, expenses, parse, margin).totalExpenses == 0.0
    ensures ProfitOf(row, index, income, expenses, parse, margin).profit == 0.0
  {
    MaskedSumNoMatch(Body(income), Income.ProjectCol, Cell(row, 0), AmountCol, parse);
    MaskedSumNoMatch(Body(expenses), Expenses.ProjectCol, Cell(row, 0), AmountCol, parse);
  }

  /** `r` with its header row replaced by `h` (an empty range stays empty). */
  function WithHeader(r: Range, h: Row): Range
  {
    if |r| == 0 then r else [h] + r[1..]
  }

  /** The header rows of the four ranges play no part in the result. */
  lemma HeadersAreIgnored(projects: Range, clients: Range, income: Range, expenses: Range, parse: Parser,
                          margin: MarginFn, hp: Row, hc: Row, hi: Row, he: Row)
    ensures ProjectProfits(WithHeader(projects, hp), WithHeader(clients, hc), WithHeader(income, hi),
                           WithHeader(expenses, he), parse, margin)
         == ProjectProfits(projects, clients, income, expenses, parse, margin)
  {
    var projects', clients' := WithHeader(projects, hp), WithHeader(clients, hc);
    var income', expenses' := WithHeader(income, hi), WithHeader(expenses, he);
    assert Body(projects') == Body(projects);
    assert Body(clients') == Body(clients);
    assert Body(income') == Body(income);
    assert Body(expenses') == Body(expenses);
    var index := IndexClients(Body(clients));
    forall row: Row
      ensures ProfitOf(row, index, income', expenses', parse, margin) == ProfitOf(row, index, income, expenses, parse, margin)
    {
      assert ProjectIncome(income', Cell(row, 0), parse) == ProjectIncome(income, Cell(row, 0), parse);
      assert ProjectExpenses(expenses', Cell(row, 0), parse) == ProjectExpenses(expenses, Cell(row, 0), parse);
    }
    assert Unsorted(projects', clients', income', expenses', parse, margin)
        == Unsorted(projects, clients, income, expenses, parse, margin);
  }

  /** The route's order is fully determined: any list sorted by profit that
      stably reorders the per-row records is the route's list. */
  lemma RouteOrderIsDetermined(projects: Range, clients: Range, income: Range, expenses: Range, parse: Parser,
                               margin: MarginFn, r: seq<ProjectProfit>)
    requires SortedByProfit(r)
    requires StablyReorders(r, Unsorted(projects, clients, income, expenses, parse, margin))
    ensures r == ProjectProfits(projects, clients, income, expenses, parse, margin)
  {
    var ps := ProjectProfits(projects, clients, income, expenses, parse, margin);
    StableSortIsUnique(r, ps);
  }

  /** The amount parser of the scenario below: it reads "1000" and "400" and
      nothing else. */
  function ScenarioParse(s: string): Option<real>
  {
    if s == "1000" then Some(1000.0) else if s == "400" then Some(400.0) else None
  }

  /** One client, one project, two income rows (one unparseable) and one
      expense row: the project earns 1000, spends 400 and shows its client's
      nickname. */
  lemma SingleProjectScenario(margin: MarginFn)
    ensures ProjectProfits([["ID"], ["p1", "Site", "c1", "2024-01-01", "", "In Progress"]],
                           [["ID"], ["c1", "Acme"]],
                           [["ID"], ["t1", "c1", "1000", "2024-02-01", "fee", "p1"], ["t2", "c1", "bad", "2024-02-02", "fee", "p1"]],
                           [["ID"], ["e1", "Tools", "400", "p1", "2024-02-03", "licence"]],
                           ScenarioParse, margin)
         == [ProjectProfit(Some("p1"), Some("Site"), "Acme", 1000.0, 400.0, 600.0, margin(1000.0, 400.0))]
  {
    ScenarioRows(margin);
    var x := ProjectProfit(Some("p1"), Some("Site"), "Acme", 1000.0, 400.0, 600.0, margin(1000.0, 400.0));
    assert SortByProfit([x]) == Insert(x, SortByProfit([])) == [x];
  }

  lemma ScenarioRows(margin: MarginFn)
    ensures Unsorted([["ID"], ["p1", "Site", "c1", "2024-01-01", "", "In Progress"]],
                     [["ID"], ["c1", "Acme"]],
                     [["ID"], ["t1", "c1", "1000", "2024-02-01", "fee", "p1"], ["t2", "c1", "bad", "2024-02-02", "fee", "p1"]],
                     [["ID"], ["e1", "Tools", "400", "p1", "2024-02-03", "licence"]],
                     ScenarioParse, margin)
         == [ProjectProfit(Some("p1"), Some("Site"), "Acme", 1000.0, 400.0, 600.0, margin(1000.0, 400.0))]
  {
    var project: Row := ["p1", "Site", "c1", "2024-01-01", "", "In Progress"];
    var client: Row := ["c1", "Acme"];
    var income: Range := [["ID"], ["t1", "c1", "1000", "2024-02-01", "fee", "p1"], ["t2", "c1", "bad", "2024-02-02", "fee", "p1"]];
    var expenses: Range := [["ID"], ["e1", "Tools", "400", "p1", "2024-02-03", "licence"]];
    ScenarioIncome();
    ScenarioExpenses();
    ScenarioClient();
    assert Body([["ID"], project]) == [project];
  }

  lemma ScenarioIncome()
    ensures ProjectIncome([["ID"], ["t1", "c1", "1000", "2024-02-01", "fee", "p1"], ["t2", "c1", "bad", "2024-02-02", "fee", "p1"]],
                          Some("p1"), ScenarioParse) == 1000.0
  {
    var t1: Row := ["t1", "c1", "1000", "2024-02-01", "fee", "p1"];
    var t2: Row := ["t2", "c1", "bad", "2024-02-02", "fee", "p1"];
    assert Body([["ID"], t1, t2]) == [t1, t2];
    assert [t1, t2][..1] == [t1];
    assert [t1][..0] == [];
    assert Amount(ScenarioParse, Cell(t2, AmountCol)) == 0.0;
    assert Amount(ScenarioParse, Cell(t1, AmountCol)) == 1000.0;
    assert MaskedSum([t1], Income.ProjectCol, Some("p1"), AmountCol, ScenarioParse) == 1000.0;
    assert MaskedSum([t1, t2], Income.ProjectCol, Some("p1"), AmountCol, ScenarioParse) == 1000.0;
  }

  lemma ScenarioExpenses()
    ensures ProjectExpenses([["ID"], ["e1", "Tools", "400", "p1", "2024-02-03", "licence"]], Some("p1"), ScenarioParse) == 400.0
  {
    var e1: Row := ["e1", "Tools", "400", "p1", "2024-02-03", "licence"];
    assert Body([["ID"], e1]) == [e1];
    assert [e1][..0] == [];
    assert Amount(ScenarioParse, Cell(e1, AmountCol)) == 400.0;
  }

  lemma ScenarioClient()
    ensures ClientNameOf(IndexClients(Body([["ID"], ["c1", "Acme"]])), Some("c1")) == "Acme"
  {
    var client: Row := ["c1", "Acme"];
    assert Body([["ID"], client]) == [client];
    assert [client][..0] == [];
  }

  /** Two projects with equal profit keep their row order. */
  lemma TiedProjectsKeepRowOrder(a: ProjectProfit, b: ProjectProfit)
    requires a.profit == b.profit
    ensures SortByProfit([a, b]) == [a, b]
  {
  }
}
