/** `PATCH /api/enrollments/reset-error`: clear the error text of an
    enrollment and nothing else. Success is reported whether or not a row
    matched the id. */
module EnrollmentsResetError {
  import opened Base
  import opened Domain
  import opened Database
  import AnalyticsErrorsReset

  const ClearErrorPatch: Patch := NoChange.(lastError := Some(None))

  /** Only `last_error` changes: a paused enrollment stays paused and keeps its schedule. */
  lemma ClearErrorEffect(e: Enrollment)
    ensures Apply(ClearErrorPatch, e) == e.(lastError := None)
  {
  }

  /** `updateError` is the error of the update, if it fails (its message may be absent). */
  method ResetError(db: Db, enrollmentId: Option<string>, updateError: Option<Option<string>>)
    returns (r: HttpResult)
    requires db.Valid()
    modifies db
    ensures db.Valid()
    ensures !Truthy(enrollmentId) ==> r == Failure(400, "enrollmentId is required")
    ensures Truthy(enrollmentId) ==>
              r == if updateError.Some? then Failure(500, AnalyticsErrorsReset.UpdateFailureText(updateError.value))
                   else Success
    ensures db.enrollments == if r.Success? && enrollmentId.value in old(db.enrollments)
              then old(db.enrollments)[enrollmentId.value := Apply(ClearErrorPatch, old(db.enrollments)[enrollmentId.value])]
              else old(db.enrollments)
    ensures db.steps == old(db.steps) && db.properties == old(db.properties) && db.messages == old(db.messages)
  {
    if !Truthy(enrollmentId) {
      return Failure(400, "enrollmentId is required");
    }
    if updateError.Some? {
      return Failure(500, AnalyticsErrorsReset.UpdateFailureText(updateError.value));
    }
    db.UpdateEnrollment(enrollmentId.value, ClearErrorPatch);
    r := Success;
  }
}
