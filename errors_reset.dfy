/** `PATCH /api/automation/analytics/errors/reset`: unpause an enrollment and
    schedule it for now. There is no existence check: the update by id
    reports success whether or not a row matched. */
module AnalyticsErrorsReset {
  import opened Base
  import opened Domain
  import opened Database

  function UnpausePatch(now: int): Patch {
    NoChange.(isPaused := Some(false), nextRunAt := Some(Some(now)))
  }

  /** Only `is_paused` and `next_run_at` change; the error text, the step and the completion stay. */
  lemma UnpauseEffect(e: Enrollment, now: int)
    ensures Apply(UnpausePatch(now), e) == e.(isPaused := false, nextRunAt := Some(now))
  {
  }

  /** The `error` text of a failed update: `error.message || "Failed to reset error"`. */
  function UpdateFailureText(message: Option<string>): (t: string)
    ensures Truthy(message) ==> t == message.value
    ensures !Truthy(message) ==> t == "Failed to reset error"
  {
    if Truthy(message) then message.value else "Failed to reset error"
  }

  /** `updateError` is the error of the update, if it fails (its message may be absent). */
  method Reset(db: Db, enrollmentId: Option<string>, updateError: Option<Option<string>>, now: int)
    returns (r: HttpResult)
    requires db.Valid()
    modifies db
    ensures db.Valid()
    ensures !Truthy(enrollmentId) ==> r == Failure(400, "enrollmentId is required")
    ensures Truthy(enrollmentId) ==>
              r == if updateError.Some? then Failure(500, UpdateFailureText(updateError.value)) else Success
    ensures db.enrollments == if r.Success? && enrollmentId.value in old(db.enrollments)
              then old(db.enrollments)[enrollmentId.value := Apply(UnpausePatch(now), old(db.enrollments)[enrollmentId.value])]
              else old(db.enrollments)
    ensures db.steps == old(db.steps) && db.properties == old(db.properties) && db.messages == old(db.messages)
  {
    if !Truthy(enrollmentId) {
      return Failure(400, "enrollmentId is required");
    }
    if updateError.Some? {
      return Failure(500, UpdateFailureText(updateError.value));
    }
    db.UpdateEnrollment(enrollmentId.value, UnpausePatch(now));
    r := Success;
  }
}
