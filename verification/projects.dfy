/** The Projects range (columns A..F: ID, Name, ClientID, StartDate, EndDate,
    Status): the GET row mapper, the POST validation and defaults, and the
    row writer. */
module Projects {
  import opened Sheets

  datatype Project = Project(id: string, name: string, clientId: string, startDate: string, endDate: string, status: string)

  /** The fields a create request may carry; `None` is an absent field. */
  datatype ProjectInput = ProjectInput(name: Option<string>, clientId: Option<string>, startDate: Option<string>,
                                       endDate: Option<string>, status: Option<string>)

  const Planning := "Planning"
  const MissingFields := "Name and client ID are required"
  const CreateFailed := "Failed to create project"

  /** GET mapper for one data row; `today` is the `YYYY-MM-DD` date the
      handler takes when it runs. */
  function ProjectFromRow(row: Row, today: string): Project
  {
    Project(Or(Cell(row, 0), ""), Or(Cell(row, 1), ""), Or(Cell(row, 2), ""),
            Or(Cell(row, 3), today), Or(Cell(row, 4), ""), Or(Cell(row, 5), Planning))
  }

  /** GET: one project per data row, in row order; no row is dropped. */
  function ListProjects(sheet: Range, today: string): (ps: seq<Project>)
    ensures |ps| == if |sheet| == 0 then 0 else |sheet| - 1
    ensures forall i :: 0 <= i < |ps| ==> ps[i] == ProjectFromRow(sheet[i + 1], today)
  {
    var body := Body(sheet);
    seq(|body|, i requires 0 <= i < |body| => ProjectFromRow(body[i], today))
  }

  /** The row the POST handler appends: status lands in column F (index 5). */
  function ProjectRow(p: Project): Row
  {
    [p.id, p.name, p.clientId, p.startDate, p.endDate, p.status]
  }

  /** Name and client id are present and non-empty. */
  predicate ValidProject(input: ProjectInput)
  {
    Truthy(input.name) && Truthy(input.clientId)
  }

  /** POST: name and client id are required; end date defaults to "" and
      status to "Planning"; the start date is taken as given, an absent one
      becoming an empty cell. */
  function PostProject(sheet: Range, input: ProjectInput, id: string, appendOk: bool): (o: Outcome<Project>)
    ensures o.response.BadRequest? <==> !ValidProject(input)
    ensures o.response.BadRequest? ==> o.sheet == sheet && o.response.error == MissingFields
    ensures o.response.ServerError? <==> ValidProject(input) && !appendOk
    ensures o.response.ServerError? ==> o.sheet == sheet && o.response.error == CreateFailed
    ensures o.response.Created? ==>
              && o.response.record.id == id
              && o.response.record.name == input.name.value
              && o.response.record.clientId == input.clientId.value
              && o.response.record.startDate == Or(input.startDate, "")
              && o.response.record.endDate == (if Truthy(input.endDate) then input.endDate.value else "")
              && o.response.record.status == (if Truthy(input.status) then input.status.value else Planning)
              && o.sheet == sheet + [ProjectRow(o.response.record)]
  {
    if !ValidProject(input) then Outcome(BadRequest(MissingFields), sheet)
    else
      var project := Project(id, input.name.value, input.clientId.value, Or(input.startDate, ""),
                             Or(input.endDate, ""), Or(input.status, Planning));
      Commit(sheet, project, ProjectRow(project), appendOk, CreateFailed)
  }

  /** Reading back a written row gives the project again exactly when its
      start date and status survive the `|| today` and `|| "Planning"` defaults. */
  lemma ProjectRoundTrip(p: Project, today: string)
    ensures ProjectFromRow(ProjectRow(p), today) == p <==> (p.startDate != "" || today == "") && p.status != ""
  {
  }

  /** A blank row is not dropped: it maps to a project made of defaults. */
  lemma BlankProjectRow(today: string)
    ensures ListProjects([["ID"], []], today) == [Project("", "", "", today, "", Planning)]
  {
  }

  /** Appending rows to a range that has its header extends the GET listing
      by exactly those rows' projects. */
  lemma ListProjectsAppend(sheet: Range, rows: seq<Row>, today: string)
    requires |sheet| >= 1
    ensures ListProjects(Append(sheet, rows), today)
         == ListProjects(sheet, today) + seq(|rows|, i requires 0 <= i < |rows| => ProjectFromRow(rows[i], today))
  {
    BodyAppend(sheet, rows);
  }

  /** A project created by POST with a start date is listed by the next GET,
      after every project already there. */
  lemma PostedProjectIsListed(sheet: Range, input: ProjectInput, id: string, today: string)
    requires |sheet| >= 1
    requires ValidProject(input) && Truthy(input.startDate)
    ensures PostProject(sheet, input, id, true).response.Created?
    ensures ListProjects(PostProject(sheet, input, id, true).sheet, today)
         == ListProjects(sheet, today) + [PostProject(sheet, input, id, true).response.record]
  {
    var o := PostProject(sheet, input, id, true);
    ListProjectsAppend(sheet, [ProjectRow(o.response.record)], today);
    ProjectRoundTrip(o.response.record, today);
  }
}
