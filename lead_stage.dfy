/** `PATCH /api/properties/lead-stage`: validates the request and sets one
    property's `lead_stage`. The request body is `InvalidJson` when it does not
    parse and `NullJson` when it is the JSON value `null` (destructuring it throws);
    the store's error is a parameter. */
module LeadStage {
  import opened Base
  import opened Domain
  import opened Database
  import Dashboard

  const AllowedStages: seq<string> := ["new", "contacted", "follow_up", "dead"]

  /** `ALLOWED_STAGES.includes(stage)` */
  predicate Allowed(stage: string) {
    stage in AllowedStages
  }

  /** The allowed stages are exactly the four stages the dashboard counts. */
  lemma AllowedAreDashboardStages(stage: string)
    ensures Allowed(stage) <==> Dashboard.IsLeadStage(stage)
    ensures Allowed(stage) <==> stage == "new" || stage == "contacted" || stage == "follow_up" || stage == "dead"
  {
  }

  datatype Body = InvalidJson | NullJson | Body(propertyId: Option<string>, leadStage: Option<string>)

  /** The route's checks in order, without the store. */
  function Validate(configured: bool, body: Body): (r: Option<HttpResult>)
    ensures !configured ==> r == Some(Failure(500, "Server not configured for Supabase updates"))
    ensures configured && body.InvalidJson? ==> r == Some(Failure(400, "Invalid JSON payload"))
    ensures configured && body.NullJson? ==> r == Some(Failure(500, "Unexpected error"))
    ensures configured && body.Body? && !(Truthy(body.propertyId) && Truthy(body.leadStage)) ==>
              r == Some(Failure(400, "propertyId and leadStage are required"))
    ensures (configured && body.Body? && Truthy(body.propertyId) && Truthy(body.leadStage)
             && !Allowed(body.leadStage.value)) ==> r == Some(Failure(400, "Invalid lead stage"))
    ensures r.None? <==> configured && body.Body? && Truthy(body.propertyId) && Truthy(body.leadStage)
                         && Allowed(body.leadStage.value)
  {
    if !configured then Some(Failure(500, "Server not configured for Supabase updates"))
    else if body.InvalidJson? then Some(Failure(400, "Invalid JSON payload"))
    else if body.NullJson? then Some(Failure(500, "Unexpected error"))
    else if !Truthy(body.propertyId) || !Truthy(body.leadStage) then
      Some(Failure(400, "propertyId and leadStage are required"))
    else if !Allowed(body.leadStage.value) then Some(Failure(400, "Invalid lead stage"))
    else None
  }

  /** `PATCH`: a request that passes the checks sets the stage of the property with that id, and
      nothing else; every other answer leaves the table as it was. */
  method UpdateLeadStage(db: Db, configured: bool, body: Body, updateFails: bool) returns (r: HttpResult)
    modifies db
    ensures Validate(configured, body).Some? ==> r == Validate(configured, body).value
    ensures Validate(configured, body).None? && updateFails ==> r == Failure(500, "Failed to update lead stage")
    ensures r.Success? <==> Validate(configured, body).None? && !updateFails
    ensures r.Success? ==>
              var id := body.propertyId.value;
              db.properties == if id in old(db.properties)
                               then old(db.properties)[id := old(db.properties)[id].(leadStage := body.leadStage)]
                               else old(db.properties)
    ensures r.Failure? ==> db.properties == old(db.properties)
    ensures db.enrollments == old(db.enrollments) && db.steps == old(db.steps) && db.messages == old(db.messages)
  {
    var check := Validate(configured, body);
    if check.Some? {
      return check.value;
    }
    if updateFails {
      return Failure(500, "Failed to update lead stage");
    }
    db.UpdateLeadStage(body.propertyId.value, body.leadStage.value);
    r := Success;
  }

  /** Only the four stages get through the checks. */
  lemma AcceptedStageIsAllowed(configured: bool, body: Body)
    requires Validate(configured, body).None?
    ensures Dashboard.IsLeadStage(body.leadStage.value)
  {
    AllowedAreDashboardStages(body.leadStage.value);
  }
}
