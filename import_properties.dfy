/** `POST /api/import-properties`: checks a batch of rows and inserts all of them
    into `properties` or none. The request's rows are what the client sent, so
    any field may be missing; the insert outcome is a parameter. */
module ImportProperties {
  import opened Base
  import ImportPage

  /** One element of `body.rows`. */
  datatype IncomingRow = IncomingRow(
    address: Option<string>,
    city: Option<string>,
    state: Option<string>,
    zip: Option<string>,
    listPrice: Option<int>,
    arv: Option<int>,
    beds: Option<int>,
    baths: Option<int>,
    sqft: Option<int>,
    dom: Option<int>,
    status: Option<string>,
    motivationScore: Option<int>,
    mlsId: Option<string>,
    sellerPhone: Option<string>)

  /** One inserted `properties` row (the columns the route writes). */
  datatype PropertyInsert = PropertyInsert(
    mlsId: Option<string>,
    address: Option<string>,
    city: Option<string>,
    state: Option<string>,
    zip: Option<string>,
    listPrice: Option<int>,
    arv: Option<int>,
    beds: Option<int>,
    baths: Option<int>,
    sqft: Option<int>,
    dom: Option<int>,
    status: Option<string>,
    motivationScore: Option<int>,
    sellerPhone: Option<string>)

  /** The predicate of `rows.find(...)`: a blank address part or a missing price. */
  predicate Invalid(r: IncomingRow) {
    !Truthy(r.address) || !Truthy(r.city) || !Truthy(r.state) || !Truthy(r.zip) || r.listPrice.None?
  }

  /** `rows.find(...)`: the index of the first invalid row. */
  function FindInvalid(rows: seq<IncomingRow>): (r: Option<nat>)
    ensures r.Some? ==> r.value < |rows| && Invalid(rows[r.value])
                        && forall j :: 0 <= j < r.value ==> !Invalid(rows[j])
    ensures r.None? <==> forall j :: 0 <= j < |rows| ==> !Invalid(rows[j])
  {
    if rows == [] then None
    else if Invalid(rows[0]) then Some(0)
    else
      var rest := FindInvalid(rows[1..]);
      assert forall j :: 1 <= j < |rows| ==> rows[j] == rows[1..][j - 1];
      if rest.None? then None else Some(rest.value + 1)
  }

  /** The insert record of a row, field for field. */
  function ToInsert(r: IncomingRow): PropertyInsert {
    PropertyInsert(r.mlsId, r.address, r.city, r.state, r.zip, r.listPrice, r.arv, r.beds,
                   r.baths, r.sqft, r.dom, r.status, r.motivationScore, r.sellerPhone)
  }

  /** The route's answer and the rows it inserts. */
  datatype ImportResult = Inserted(count: nat) | ImportFailed(status: int, error: string)
  datatype Outcome = Outcome(response: ImportResult, inserted: seq<PropertyInsert>)

  /** `POST`: `rows` is `None` when `body.rows` is not an array; the insert is all or nothing. */
  function Import(hasClient: bool, rows: Option<seq<IncomingRow>>, insertFails: bool): (o: Outcome)
    ensures !hasClient ==> o.response == ImportFailed(500, "Supabase not configured")
    ensures hasClient && (rows.None? || rows.value == []) ==> o.response == ImportFailed(400, "No rows provided")
    ensures hasClient && rows.Some? && rows.value != [] && (exists j :: 0 <= j < |rows.value| && Invalid(rows.value[j])) ==>
              o.response == ImportFailed(400, "Missing required fields in one or more rows")
    ensures (hasClient && rows.Some? && rows.value != [] && insertFails
             && forall j :: 0 <= j < |rows.value| ==> !Invalid(rows.value[j])) ==>
              o.response == ImportFailed(500, "Failed to import properties")
    ensures o.response.Inserted? <==>
              hasClient && rows.Some? && rows.value != [] && !insertFails
              && forall j :: 0 <= j < |rows.value| ==> !Invalid(rows.value[j])
    ensures o.response.ImportFailed? ==> o.inserted == []
    ensures o.response.Inserted? ==>
              && o.response.count == |rows.value|
              && |o.inserted| == |rows.value|
              && forall j :: 0 <= j < |rows.value| ==> o.inserted[j] == ToInsert(rows.value[j])
  {
    if !hasClient then Outcome(ImportFailed(500, "Supabase not configured"), [])
    else if rows.None? || rows.value == [] then Outcome(ImportFailed(400, "No rows provided"), [])
    else if FindInvalid(rows.value).Some? then
      Outcome(ImportFailed(400, "Missing required fields in one or more rows"), [])
    else if insertFails then Outcome(ImportFailed(500, "Failed to import properties"), [])
    else
      var inserted := seq(|rows.value|, j requires 0 <= j < |rows.value| => ToInsert(rows.value[j]));
      Outcome(Inserted(|rows.value|), inserted)
  }

  /** A row the import page sends, as the route reads it. */
  function FromPage(r: ImportPage.ImportRow): IncomingRow {
    IncomingRow(Some(r.address), Some(r.city), Some(r.state), Some(r.zip), Some(r.listPrice), r.arv,
                r.beds, r.baths, r.sqft, r.dom, Some(r.status), r.motivationScore, r.mlsId, r.sellerPhone)
  }

  /** The request body the page sends for its rows. */
  function Sent(rows: seq<ImportPage.ImportRow>): (r: seq<IncomingRow>)
    ensures |r| == |rows| && forall j :: 0 <= j < |rows| ==> r[j] == FromPage(rows[j])
  {
    seq(|rows|, j requires 0 <= j < |rows| => FromPage(rows[j]))
  }

  /** Every batch the page parses passes the route's checks (`ParsedRows` keeps only complete rows):
      the page's filter is at least as strict as the route's, and its price is never missing. */
  lemma PageRowsAccepted(rows: seq<ImportPage.ImportRow>)
    requires rows != [] && forall j :: 0 <= j < |rows| ==> ImportPage.Complete(rows[j])
    ensures Import(true, Some(Sent(rows)), false).response == Inserted(|rows|)
  {
    var sent := Sent(rows);
    forall j | 0 <= j < |sent| ensures !Invalid(sent[j]) {
      assert ImportPage.Complete(rows[j]);
    }
  }
}
