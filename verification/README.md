# Oceanlab Stack: the sheet-backed bookkeeping core, in Dafny

Oceanlab Stack is a small bookkeeping application for a studio. It keeps
four ranges of a spreadsheet:

- `Clients!A:E`: ID, Nickname, Address, City, CreatedAt.
- `Projects!A:G`: ID, Name, ClientID, StartDate, EndDate, Status.
- `Income_Transactions!A:F`: ID, ClientID, Amount, Date, Description, ProjectID.
- `Expenses!A:G`: ID, Category, Amount, ProjectID, Date, Description.

Row 0 of each range is a header. All other information comes from HTTP
routes that read and append rows. This project models the part of the
application that holds the logic:

- **Entity routes** (`clients.dfy`, `projects.dfy`, `income.dfy`, `expenses.dfy`):
  - the GET row mappers, with their JavaScript `||` defaults;
  - the POST validation, the record built from the request and the exact row appended;
  - the three outcomes 201, 400 and 500, with their error texts.
- **Profits route** (`profits.dfy`):
  - the client-nickname index;
  - the per-project join of income (column F) and expenses (column D);
  - the sort by profit, descending.
- **Dashboard stats route** (`stats.dfy`): header-adjusted client and project counts, global income and expense sums, and the active-project count.
- **Profits page** (`page.dfy`): the four summary figures computed from the route's list.
- **Cross-route facts** (`consistency.dfy`): what the writers append is what the aggregators read.
- **Shared vocabulary** (`sheets.dfy`):
  - the cell model: a cell past the end of a row is `None`, the store's `undefined`;
  - the header skip `slice(1)`, left-fold sums, filtering, appending, and the shape of a POST response.

How the model works:

- Every handler is a pure function of the ranges it reads.
- A POST returns an `Outcome`: the response and the range after the append.
- Whatever the handler cannot compute itself is a parameter:
  - `Number.parseFloat`, with `None` standing for `NaN`;
  - the text the store holds for a written number;
  - `calculateProfitMargin` and `generateId`;
  - the current date;
  - whether the append succeeds.

The status of a project lives in column F:

- the setup script writes the Projects header with Status in column F
  (scripts/setup-google-sheets.js:45);
- the projects GET reads it there (app/api/projects/route.ts:18);
- the projects POST writes it there (app/api/projects/route.ts:47).

The dashboard's active-project filter, commented "In Progress status", reads
index 6, i.e. column G (app/api/dashboard/stats/route.ts:35-36). Every row
the POST writes has six cells, so that filter never counts a created project.

- `Stats.Dashboard` models the route as written, column G included.
- The defect is logged under Findings.
- `Stats.DashboardIntended` gives the same figures with the active count read from column F.

## Model

| member | source | states |
|---|---|---|
| Sheets.WhereSumIsMaskedSum | app/api/profits/route.ts:30-33 | filter-then-reduce equals the sum over all rows where a row whose key cell differs contributes 0 |
| Sheets.MaskedSumNoMatch | app/api/profits/route.ts:30-39 | when no row carries the key, the filtered sum is 0 |
| Sheets.BodyAppend | app/api/clients/route.ts:44-46 | once a range has its header, appended rows are exactly the new tail of `slice(1)` |
| Clients.ListClients | app/api/clients/route.ts:12-18 | GET yields one client per data row, in row order, none dropped; count is rows − 1, or 0 for an empty range |
| Clients.PostClient | app/api/clients/route.ts:27-53 | 400 "All fields are required" iff nickname, address or city is falsy; 500 iff valid and the append fails; on 201 the record carries the given id and time and the range grows by exactly its five-cell row; on error the range is unchanged |
| Clients.ClientRoundTrip | app/api/clients/route.ts:12-46 | reading back the written row gives the client again iff its createdAt survives the fallback to the current time |
| Clients.BlankClientRow | app/api/clients/route.ts:12-18 | a blank data row maps to a client of empty fields stamped with the current time |
| Clients.ListClientsAppend | app/api/clients/route.ts:12-18 | appending rows extends the listing by exactly those rows' clients |
| Clients.PostedClientIsListed | app/api/clients/route.ts:27-48 | after a successful POST, the next GET is the old listing plus the returned client |
| Clients.PostToHeaderlessSheetIsHidden | app/api/clients/route.ts:12 | a client appended to an empty range lands in the header position and GET does not list it |
| Projects.ListProjects | app/api/projects/route.ts:12-19 | one project per data row in row order; status from column F, defaulting to "Planning" |
| Projects.PostProject | app/api/projects/route.ts:28-55 | 400 "Name and client ID are required" iff name or clientId is falsy; endDate defaults to "", status to "Planning"; on 201 exactly the six-cell row A..F is appended |
| Projects.ProjectRoundTrip | app/api/projects/route.ts:12-48 | reading back a written row gives the project iff its startDate survives the fallback to today and its status is non-empty |
| Projects.BlankProjectRow | app/api/projects/route.ts:12-19 | a blank row maps to a "Planning" project starting today |
| Projects.ListProjectsAppend | app/api/projects/route.ts:12-19 | appending rows extends the listing by exactly those rows' projects |
| Projects.PostedProjectIsListed | app/api/projects/route.ts:28-50 | a project posted with a start date is listed by the next GET after the existing ones |
| Income.ListIncome | app/api/income-transactions/route.ts:12-19 | one transaction per data row in row order; amount is column C parsed, or 0 when unparseable or zero |
| Income.PostIncome | app/api/income-transactions/route.ts:28-64 | 400 iff clientId, amount (0 counts as missing), date or description is falsy; projectId defaults to ""; on 201 the six-cell row A..F is appended; on error nothing changes |
| Income.IncomeRoundTrip | app/api/income-transactions/route.ts:12-57 | when the stored text of the amount parses back to it, reading back the row gives the transaction iff its date survives the fallback to today |
| Income.BlankIncomeRow | app/api/income-transactions/route.ts:12-19 | a blank row maps to a transaction of amount 0 dated today |
| Income.ListIncomeAppend | app/api/income-transactions/route.ts:12-19 | appending rows extends the listing by exactly those rows' transactions |
| Income.PostedIncomeIsListed | app/api/income-transactions/route.ts:28-59 | a posted transaction is listed by the next GET after the existing ones |
| Expenses.ListExpenses | app/api/expenses/route.ts:12-19 | one expense per data row in row order; project reference from column D |
| Expenses.PostExpense | app/api/expenses/route.ts:28-55 | 400 iff category, amount or description is falsy (the date is not required); projectId defaults to ""; on 201 the six-cell row is appended |
| Expenses.ExpenseRoundTrip | app/api/expenses/route.ts:12-47 | reading back a written row gives the expense iff its date survives the fallback to today |
| Expenses.BlankExpenseRow | app/api/expenses/route.ts:12-19 | a blank row maps to an expense of amount 0 dated today |
| Expenses.ListExpensesAppend | app/api/expenses/route.ts:12-19 | appending rows extends the listing by exactly those rows' expenses |
| Expenses.PostedExpenseIsListed | app/api/expenses/route.ts:28-50 | an expense posted with a date is listed by the next GET after the existing ones |
| Profits.IndexStep | app/api/profits/route.ts:20-22 | one more client row overrides only its own id in the index |
| Profits.IndexMissing | app/api/profits/route.ts:19-22 | an id on no client row is absent from the index |
| Profits.IndexLastWins | app/api/profits/route.ts:19-22 | with duplicate client ids, the index holds the nickname of the last row carrying the id |
| Profits.ClientNameIsLastMatch | app/api/profits/route.ts:19-27 | client name is "Unknown Client" when no row matches, else the last matching row's nickname (or "Unknown Client" when that is falsy) |
| Profits.ProjectIncome | app/api/profits/route.ts:30-33 | a project's income is the sum of parsed amounts of income rows whose column F equals its id |
| Profits.ProjectExpenses | app/api/profits/route.ts:35-39 | a project's expenses is the sum of parsed amounts of expense rows whose column D equals its id |
| Profits.Unsorted | app/api/profits/route.ts:25-53 | one record per project data row |
| Profits.Insert | app/api/profits/route.ts:56 | inserting into a list sorted by descending profit keeps it sorted and is a permutation of the list plus the entry |
| Profits.SortByProfit | app/api/profits/route.ts:56 | the result is sorted by descending profit and is a permutation of the input |
| Profits.InsertIsStable | app/api/profits/route.ts:56 | insertion keeps entries of equal profit in their original relative order |
| Profits.SortIsStable | app/api/profits/route.ts:56 | the sort keeps entries of equal profit in their original relative order, as the stable `Array.prototype.sort` does |
| Profits.StableSortIsUnique | app/api/profits/route.ts:56 | two lists both sorted by descending profit and stable reorderings of each other are equal |
| Profits.ProjectProfits | app/api/profits/route.ts:19-58 | the response has one record per project row, is a stable descending-profit reordering of the per-row records, and every record's profit is its income minus its expenses |
| Profits.RouteOrderIsDetermined | app/api/profits/route.ts:56 | any stable descending-profit ordering of the records is exactly the route's response |
| Profits.UnreferencedProjectIsZero | app/api/profits/route.ts:30-41 | a project no income or expense row names has income, expenses and profit 0 |
| Profits.HeadersAreIgnored | app/api/profits/route.ts:20-38 | the response does not depend on the header rows of the four ranges |
| Profits.SingleProjectScenario | app/api/profits/route.ts:19-58 | one project, amounts "1000" and an unparseable one, one expense "400": income 1000, expenses 400, profit 600, client "Acme" |
| Profits.TiedProjectsKeepRowOrder | app/api/profits/route.ts:56 | two projects of equal profit stay in row order |
| Stats.RowCount | app/api/dashboard/stats/route.ts:18-19 | `Math.max(0, length − 1)` is the number of data rows |
| Stats.CountActive | app/api/dashboard/stats/route.ts:36 | the count is 0 iff no row's status cell is "In Progress" or "Planning", the number of rows iff all are, and never more |
| Stats.CountActiveIsCardinality | app/api/dashboard/stats/route.ts:36 | the count is the number of row positions whose status cell is "In Progress" or "Planning" |
| Stats.StatsWith | app/api/dashboard/stats/route.ts:17-45 | clients and projects counted as data rows; profit is income minus expenses; the active count never exceeds the projects |
| Stats.Dashboard | app/api/dashboard/stats/route.ts:17-45 | the route's statistics: data-row counts, profit is income minus expenses, and the active count is 0 iff no project row has "In Progress" or "Planning" in column G (index 6) |
| Stats.DashboardIntended | app/api/dashboard/stats/route.ts:36 | the corrected statistics agree with the route's in every figure but the active count, which is the column-F count |
| Stats.EmptyReadsGiveFallback | app/api/dashboard/stats/route.ts:51-61 | four empty reads give exactly the all-zero fallback |
| Stats.TotalIncomeMatchesListing | app/api/dashboard/stats/route.ts:22-25 | the income total equals the sum of the amounts the income GET lists |
| Stats.TotalExpensesMatchListing | app/api/dashboard/stats/route.ts:28-31 | the expense total equals the sum of the amounts the expenses GET lists |
| Stats.ActiveProjectsAsWritten | app/api/dashboard/stats/route.ts:36 | the count as written (column G) never exceeds the data rows |
| Stats.SixColumnRowsNeverActive | app/api/dashboard/stats/route.ts:36 | as written, rows of at most six cells are never counted active |
| Stats.PostedProjectsNeverActive | app/api/dashboard/stats/route.ts:36 | however many projects POST writes, the as-written active count over them is 0 |
| Stats.PostedPlanningProjectNotCounted | app/api/dashboard/stats/route.ts:36 | a project posted without status is listed as "Planning", yet the route's active count is 0 where the intended count is 1 |
| Stats.ActiveProjects | app/api/dashboard/stats/route.ts:36 | the corrected count reads column F and never exceeds the data rows |
| Stats.IntendedCountsPostedProjects | app/api/dashboard/stats/route.ts:36 | with column F, a posted project counts as active iff the projects GET shows "In Progress" or "Planning" |
| Stats.ActiveCountMatchesListing | app/api/dashboard/stats/route.ts:36 | when every row has a status, the corrected count is the number of projects the projects GET lists as "In Progress" or "Planning" |
| ProfitsPage.Summarize | app/profits/page.tsx:57-70 | an empty list gives four zeros; otherwise average margin times the count is the margin sum |
| ProfitsPage.TotalAppend | app/profits/page.tsx:57-65 | the roll-up of a concatenation is the sum of the roll-ups |
| ProfitsPage.TotalIgnoresOrder | app/profits/page.tsx:57-65 | a roll-up is the same for any permutation of the list |
| ProfitsPage.SummaryIgnoresOrder | app/profits/page.tsx:57-70 | the summary cards are the same for any permutation of the list |
| ProfitsPage.SummaryBalances | app/profits/page.tsx:57-65 | when each entry's profit is income minus expenses, total profit is revenue minus expenses |
| ProfitsPage.PageSummaryOfRoute | app/profits/page.tsx:57-70 | on the route's list the summary equals that of the unsorted records, and profit card = revenue − expenses |
| Consistency.PostedIncomeReachesItsProject | app/api/income-transactions/route.ts:48-57 | a posted income row adds its amount to the project it names and to no other, and to the dashboard's income total |
| Consistency.PostedExpenseReachesItsProject | app/api/expenses/route.ts:46-48 | a posted expense row adds its amount to the project it names and to no other, and to the dashboard's expense total |
| Consistency.PostedClientNameResolves | app/api/clients/route.ts:44-46 | after a client is created, the profits route resolves its id to its nickname |
| Consistency.KeysPartitionRows | app/api/profits/route.ts:30-39 | with distinct project ids, the per-project sums plus the rows naming no project account for every row exactly once |
| Consistency.IncomeIsConserved | app/api/dashboard/stats/route.ts:22-31 | with distinct project ids, the page's revenue (or expense) card plus the unattributed amounts equals the dashboard total |

## Left out

- Network and store I/O: Google authentication, `readSheet`, `appendSheet` and `Promise.all`.
  - A range is given as it was read. A read that fails soft is the empty range.
  - An append is a boolean saying whether it succeeded.
- The store trims trailing empty cells from the rows it returns. A range is taken as read, so a row the model appends keeps its trailing empty cells.
- Consistency.PostedIncomeReachesItsProject: an income posted without a project writes "" as its last cell (column F).
  - The store trims that cell, so on the next read `row[5]` is undefined.
  - The lemma takes the row as written, so it credits such an income to a project whose id cell is "" and not to one whose id cell is missing.
  - Expenses, clients and projects are unaffected: their last written cell is never empty.
- `Number.parseFloat` and IEEE-754 arithmetic. Parsing is a parameter and sums are exact reals, so the order of floating-point rounding is not modelled.
- Rendering of a written number by the store. It is a parameter, and round trips assume it parses back.
- `calculateProfitMargin`: its body is not part of this model. It is passed in as a function of income and expenses.
- `generateId` is passed in as a string.
- `new Date()`: one date or time value is passed in. It is evaluated per row in the code, and the model uses a single value for all rows.
- `request.json()` throwing on a malformed body, and the 500 that follows, are not modelled. Request fields are strings or absent.
- Income.PostIncome: the amount is a JSON number or absent. A string amount is converted with `parseFloat` in the code (possibly to `NaN`), and that is not modelled.
- Expenses.PostExpense: likewise, a string amount is not modelled.
- Projects.PostProject: an absent startDate is written as an empty cell. The JSON response omits the field, and the model's record holds "".
- Expenses.PostExpense: an absent date is likewise written as an empty cell. The response omits it, and the model's record holds "".
- The `try/catch` fallbacks of the GET handlers (`[]`) and of the profits route:
  - nothing modelled inside them throws on rows as read;
  - the dashboard's fallback is stated by `Stats.EmptyReadsGiveFallback`.
- `console.log`/`console.error`, the login and verify routes, the UI pages other than the profits summary figures, and the setup script that writes the header rows.
- The `status` destructured in the profits route (line 26) is never used, so the model does not carry it.

## Findings

| source | as written | input that shows it | evidently intended | confidence | as-written member | corrected member |
|---|---|---|---|---|---|---|
| app/api/dashboard/stats/route.ts:36 | the active-project filter reads `row[6]` (column G) | a Projects range of a header plus the row POST writes for a project without status: `[id, name, clientId, start, "", "Planning"]` | read `row[5]` (column F), where the projects GET reads and the POST writes the status, so that project counts as active | medium, not executed | Stats.PostedPlanningProjectNotCounted | Stats.IntendedCountsPostedProjects |

`Stats.Dashboard` keeps the code's column G. `Stats.DashboardIntended`
and `Stats.ActiveProjects` are the corrected versions.
