/** The Clients range (columns A..E: ID, Nickname, Address, City, CreatedAt):
    the GET row mapper, the POST validation and the row writer. */
module Clients {
  import opened Sheets

  datatype Client = Client(id: string, nickname: string, address: string, city: string, createdAt: string)

  /** The fields a create request may carry; `None` is an absent field. */
  datatype ClientInput = ClientInput(nickname: Option<string>, address: Option<string>, city: Option<string>)

  const MissingFields := "All fields are required"
  const CreateFailed := "Failed to create client"

  /** GET mapper for one data row; `now` is the timestamp the handler takes
      when it runs. */
  function ClientFromRow(row: Row, now: string): Client
  {
    Client(Or(Cell(row, 0), ""), Or(Cell(row, 1), ""), Or(Cell(row, 2), ""), Or(Cell(row, 3), ""), Or(Cell(row, 4), now))
  }

  /** GET: one client per data row, in row order; no row is dropped. */
  function ListClients(sheet: Range, now: string): (cs: seq<Client>)
    ensures |cs| == if |sheet| == 0 then 0 else |sheet| - 1
    ensures forall i :: 0 <= i < |cs| ==> cs[i] == ClientFromRow(sheet[i + 1], now)
  {
    var body := Body(sheet);
    seq(|body|, i requires 0 <= i < |body| => ClientFromRow(body[i], now))
  }

  /** The row the POST handler appends. */
  function ClientRow(c: Client): Row
  {
    [c.id, c.nickname, c.address, c.city, c.createdAt]
  }

  /** Every field of a request that passes validation is present and non-empty. */
  predicate ValidClient(input: ClientInput)
  {
    Truthy(input.nickname) && Truthy(input.address) && Truthy(input.city)
  }

  /** POST: nickname, address and city are required; the id and timestamp
      are supplied by the handler. A rejected request never reaches the store. */
  function PostClient(sheet: Range, input: ClientInput, id: string, now: string, appendOk: bool): (o: Outcome<Client>)
    ensures o.response.BadRequest? <==> !ValidClient(input)
    ensures o.response.BadRequest? ==> o.sheet == sheet && o.response.error == MissingFields
    ensures o.response.ServerError? <==> ValidClient(input) && !appendOk
    ensures o.response.ServerError? ==> o.sheet == sheet && o.response.error == CreateFailed
    ensures o.response.Created? ==>
              && o.response.record == Client(id, input.nickname.value, input.address.value, input.city.value, now)
              && o.sheet == sheet + [ClientRow(o.response.record)]
  {
    if !ValidClient(input) then Outcome(BadRequest(MissingFields), sheet)
    else
      var client := Client(id, input.nickname.value, input.address.value, input.city.value, now);
      Commit(sheet, client, ClientRow(client), appendOk, CreateFailed)
  }

  /** Reading back a written row gives the client again exactly when its
      timestamp survives the `|| now` default. */
  lemma ClientRoundTrip(c: Client, now: string)
    ensures ClientFromRow(ClientRow(c), now) == c <==> c.createdAt != "" || now == ""
  {
  }

  /** A blank row is not dropped: it maps to a client made of defaults. */
  lemma BlankClientRow(now: string)
    ensures ListClients([["ID"], []], now) == [Client("", "", "", "", now)]
  {
  }

  /** Appending rows to a range that has its header extends the GET listing
      by exactly those rows' clients. */
  lemma ListClientsAppend(sheet: Range, rows: seq<Row>, now: string)
    requires |sheet| >= 1
    ensures ListClients(Append(sheet, rows), now)
         == ListClients(sheet, now) + seq(|rows|, i requires 0 <= i < |rows| => ClientFromRow(rows[i], now))
  {
    BodyAppend(sheet, rows);
  }

  /** A client created by POST is listed by the next GET, after every client
      already there. */
  lemma PostedClientIsListed(sheet: Range, input: ClientInput, id: string, now: string, later: string)
    requires |sheet| >= 1
    requires now != ""
    requires ValidClient(input)
    ensures PostClient(sheet, input, id, now, true).response.Created?
    ensures ListClients(PostClient(sheet, input, id, now, true).sheet, later)
         == ListClients(sheet, later) + [PostClient(sheet, input, id, now, true).response.record]
  {
    var o := PostClient(sheet, input, id, now, true);
    ListClientsAppend(sheet, [ClientRow(o.response.record)], later);
    ClientRoundTrip(o.response.record, later);
  }

  /** On a range without its header row the appended row lands in row 0,
      which GET skips: the created client is not listed. */
  lemma PostToHeaderlessSheetIsHidden(input: ClientInput, id: string, now: string, later: string)
    requires ValidClient(input)
    ensures PostClient([], input, id, now, true).response.Created?
    ensures ListClients(PostClient([], input, id, now, true).sheet, later) == []
  {
  }
}
