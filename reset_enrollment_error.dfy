/** `PATCH /api/automation/reset-enrollment-error`: the full reset of an
    errored enrollment. The row is looked up and updated by id alone (the
    route uses the service-role client, with no user scoping). */
module ResetEnrollmentError {
  import opened Base
  import opened Domain
  import opened Database

  /** Clears both error columns, unpauses and schedules the next run for now. */
  function FullResetPatch(now: int): Patch {
    NoChange.(lastError := Some(None), lastErrorAt := Some(None), isPaused := Some(false), nextRunAt := Some(Some(now)))
  }

  /** The reset touches exactly `last_error`, `last_error_at`, `is_paused` and `next_run_at`: the
      step, the completion and the sequence stay as they were. */
  lemma FullResetEffect(e: Enrollment, now: int)
    ensures Apply(FullResetPatch(now), e)
            == e.(lastError := None, lastErrorAt := None, isPaused := false, nextRunAt := Some(now))
  {
  }

  /** `fetchFails` and `updateFails` are failing store calls. */
  method Reset(db: Db, enrollmentId: Option<string>, fetchFails: bool, updateFails: bool, now: int)
    returns (r: HttpResult)
    requires db.Valid()
    modifies db
    ensures db.Valid()
    ensures !Truthy(enrollmentId) ==> r == Failure(400, "enrollmentId is required")
    ensures Truthy(enrollmentId) && fetchFails ==> r == Failure(500, "Failed to load enrollment")
    ensures Truthy(enrollmentId) && !fetchFails && enrollmentId.value !in old(db.enrollments) ==>
              r == Failure(404, "Enrollment not found")
    ensures Truthy(enrollmentId) && !fetchFails && enrollmentId.value in old(db.enrollments) ==>
              r == if updateFails then Failure(500, "Failed to reset enrollment") else Success
    ensures db.enrollments == if r.Success?
              then old(db.enrollments)[enrollmentId.value := Apply(FullResetPatch(now), old(db.enrollments)[enrollmentId.value])]
              else old(db.enrollments)
    ensures db.steps == old(db.steps) && db.properties == old(db.properties) && db.messages == old(db.messages)
  {
    if !Truthy(enrollmentId) {
      return Failure(400, "enrollmentId is required");
    }
    if fetchFails {
      return Failure(500, "Failed to load enrollment");
    }
    var id := enrollmentId.value;
    if id !in db.enrollments {
      return Failure(404, "Enrollment not found");
    }
    if updateFails {
      return Failure(500, "Failed to reset enrollment");
    }
    db.UpdateEnrollment(id, FullResetPatch(now));
    r := Success;
  }
}
