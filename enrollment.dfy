/** The operator's enrollment route (`/api/sequence-enrollment`): enroll a
    property at the first step of a sequence (POST), pause or resume an
    enrollment (PATCH) and delete one (DELETE). The signed-in user is a
    parameter (`None` when nobody is signed in); each store read or write
    that can fail has a flag. */
module SequenceEnrollment {
  import opened Base
  import opened Domain
  import opened Database

  // ---------------------------------------------------------------------
  // POST: enroll
  // ---------------------------------------------------------------------

  /** `.eq("sequence_id", id).order("step_number").limit(1)`: a step of the sequence with the
      lowest number, or nothing when the sequence has no steps. */
  function FirstStep(steps: seq<SequenceStep>, sequenceId: string): (r: Option<SequenceStep>)
    ensures r.Some? ==> r.value in steps && r.value.sequenceId == sequenceId
    ensures r.Some? ==> forall s :: s in steps && s.sequenceId == sequenceId ==> r.value.stepNumber <= s.stepNumber
    ensures r.None? <==> forall s :: s in steps ==> s.sequenceId != sequenceId
  {
    if steps == [] then None
    else
      var rest := FirstStep(steps[1..], sequenceId);
      var s := steps[0];
      assert forall t :: t in steps <==> t == s || t in steps[1..];
      if s.sequenceId == sequenceId && (rest.None? || s.stepNumber <= rest.value.stepNumber) then Some(s)
      else rest
  }

  /** The row the POST inserts. The columns it does not name take the table defaults: not
      completed, no error, created now. */
  function NewEnrollment(id: string, sequenceId: string, propertyId: string, userId: string,
                         first: SequenceStep, now: int): Enrollment
  {
    Enrollment(id, sequenceId, Some(userId), propertyId, first.stepNumber,
               Some(now + first.delayMinutes.GetOr(0) * 60000), false, None, None, None, now)
  }

  datatype EnrollResult = Created(enrollment: Enrollment) | EnrollFailed(status: int, error: string)

  /** The answer of the POST, for the body fields, the signed-in user, the first-step lookup (an
      empty one when it fails) and the outcome of the insert (`insertError`: the store's error,
      whose message may be absent). */
  function EnrollOutcome(propertyId: Option<string>, sequenceId: Option<string>, user: Option<string>,
                         first: Option<SequenceStep>, newId: string, insertError: Option<Option<string>>,
                         now: int): (r: EnrollResult)
    ensures !Truthy(propertyId) || !Truthy(sequenceId) ==>
              r == EnrollFailed(400, "propertyId and sequenceId are required")
    ensures Truthy(propertyId) && Truthy(sequenceId) && user.None? ==> r == EnrollFailed(401, "Not signed in")
    ensures Truthy(propertyId) && Truthy(sequenceId) && user.Some? && first.None? ==>
              r == EnrollFailed(400, "Could not load first step for sequence")
    ensures r.EnrollFailed? && insertError.Some? && first.Some? && user.Some? && Truthy(propertyId) && Truthy(sequenceId) ==>
              r.status == 400 && r.error == insertError.value.GetOr("Failed to create enrollment")
    ensures r.Created? <==> Truthy(propertyId) && Truthy(sequenceId) && user.Some? && first.Some? && insertError.None?
    ensures r.Created? ==>
      && r.enrollment.id == newId
      && r.enrollment.sequenceId == sequenceId.value && r.enrollment.propertyId == propertyId.value
      && r.enrollment.userId == user
      && r.enrollment.currentStep == first.value.stepNumber
      && r.enrollment.nextRunAt == Some(now + first.value.delayMinutes.GetOr(0) * 60000)
      && StateOf(r.enrollment) == Active
  {
    if !Truthy(propertyId) || !Truthy(sequenceId) then EnrollFailed(400, "propertyId and sequenceId are required")
    else if user.None? then EnrollFailed(401, "Not signed in")
    else if first.None? then EnrollFailed(400, "Could not load first step for sequence")
    else if insertError.Some? then EnrollFailed(400, insertError.value.GetOr("Failed to create enrollment"))
    else Created(NewEnrollment(newId, sequenceId.value, propertyId.value, user.value, first.value, now))
  }

  /** A new enrollment starts at the lowest step of its sequence and is due once its delay has
      passed. */
  lemma EnrollStartsAtFirstStep(propertyId: Option<string>, sequenceId: Option<string>, user: Option<string>,
                                steps: seq<SequenceStep>, newId: string, now: int)
    requires Truthy(propertyId) && Truthy(sequenceId) && user.Some?
    requires exists s :: s in steps && s.sequenceId == sequenceId.value
    ensures var r := EnrollOutcome(propertyId, sequenceId, user, FirstStep(steps, sequenceId.value), newId, None, now);
      && r.Created?
      && (forall s :: s in steps && s.sequenceId == sequenceId.value ==> r.enrollment.currentStep <= s.stepNumber)
      && (exists s :: s in steps && s.sequenceId == sequenceId.value && s.stepNumber == r.enrollment.currentStep)
      && (forall t :: t >= r.enrollment.nextRunAt.value ==> IsDue(r.enrollment, t))
  {
    var first := FirstStep(steps, sequenceId.value);
    assert first.Some?;
    assert first.value in steps && first.value.sequenceId == sequenceId.value;
  }

  /** POST: the first-step lookup reads `db.steps` unless `stepReadFails`; the id of the new row
      is `newId`. Only the insert changes the store. */
  method Enroll(db: Db, propertyId: Option<string>, sequenceId: Option<string>, user: Option<string>,
                stepReadFails: bool, newId: string, insertError: Option<Option<string>>, now: int)
    returns (r: EnrollResult)
    requires db.Valid()
    modifies db
    ensures db.Valid()
    ensures var first := if stepReadFails || !Truthy(sequenceId) then None else FirstStep(old(db.steps), sequenceId.value);
            r == EnrollOutcome(propertyId, sequenceId, user, first, newId,
                               if newId in old(db.enrollments) && insertError.None? then Some(None) else insertError, now)
    ensures db.enrollments == if r.Created? then old(db.enrollments)[newId := r.enrollment] else old(db.enrollments)
    ensures db.steps == old(db.steps) && db.properties == old(db.properties) && db.messages == old(db.messages)
  {
    if !Truthy(propertyId) || !Truthy(sequenceId) {
      return EnrollFailed(400, "propertyId and sequenceId are required");
    }
    if user.None? {
      return EnrollFailed(401, "Not signed in");
    }
    var first := if stepReadFails then None else FirstStep(db.steps, sequenceId.value);
    if first.None? {
      return EnrollFailed(400, "Could not load first step for sequence");
    }
    if insertError.Some? {
      return EnrollFailed(400, insertError.value.GetOr("Failed to create enrollment"));
    }
    var row := NewEnrollment(newId, sequenceId.value, propertyId.value, user.value, first.value, now);
    var ok := db.InsertEnrollment(row);
    if !ok {
      return EnrollFailed(400, "Failed to create enrollment");
    }
    r := Created(row);
  }

  // ---------------------------------------------------------------------
  // PATCH: pause / resume
  // ---------------------------------------------------------------------

  const PauseOnly: Patch := NoChange.(isPaused := Some(true))

  /** The `next_run_at` a resume writes: kept, unless it is null on an enrollment that is not
      completed, which is rescheduled for now. */
  function ResumedRunAt(e: Enrollment, now: int): (t: Option<int>)
    ensures e.nextRunAt.Some? ==> t == e.nextRunAt
    ensures e.nextRunAt.None? && !IsCompleted(e) ==> t == Some(now)
    ensures e.nextRunAt.None? && IsCompleted(e) ==> t.None?
  {
    if e.nextRunAt.None? && !IsCompleted(e) then Some(now) else e.nextRunAt
  }

  function ResumePatch(e: Enrollment, now: int): Patch {
    NoChange.(isPaused := Some(false), nextRunAt := Some(ResumedRunAt(e, now)))
  }

  /** The update an action issues on the fetched row: none for an unknown action. */
  function ActionPatch(action: string, e: Enrollment, now: int): (p: Option<Patch>)
    ensures p.Some? <==> action == "pause" || action == "resume"
    ensures action == "pause" ==> Apply(p.value, e) == e.(isPaused := true)
    ensures action == "resume" ==> Apply(p.value, e) == e.(isPaused := false, nextRunAt := ResumedRunAt(e, now))
  {
    if action == "pause" then Some(PauseOnly)
    else if action == "resume" then Some(ResumePatch(e, now))
    else None
  }

  /** A resumed enrollment that is not completed is scheduled and, once its time has come, due. */
  lemma ResumeMakesSchedulable(e: Enrollment, now: int)
    requires !IsCompleted(e)
    ensures var after := Apply(ActionPatch("resume", e, now).value, e);
      && after.nextRunAt.Some? && StateOf(after) == Active
      && (e.nextRunAt.None? ==> IsDue(after, now))
      && (e.nextRunAt.Some? ==> (IsDue(after, now) <==> e.nextRunAt.value <= now))
  {
  }

  /** Pausing takes any enrollment out of the worker's selection; it does not touch the step, the
      schedule or the completion. */
  lemma PauseIsNeverDue(e: Enrollment, now: int, t: int)
    ensures var after := Apply(ActionPatch("pause", e, now).value, e);
      && !IsDue(after, t)
      && after.currentStep == e.currentStep && after.nextRunAt == e.nextRunAt && after.completedAt == e.completedAt
  {
  }

  /** The row a PATCH or DELETE may touch: the caller's enrollment with that id. */
  predicate OwnedBy(table: map<string, Enrollment>, id: string, user: string) {
    id in table && table[id].userId == Some(user)
  }

  /** PATCH. `fetchFails` is a failing fetch, `updateFails` a failing update. */
  method UpdateEnrollment(db: Db, enrollmentId: Option<string>, action: Option<string>, user: Option<string>,
                          fetchFails: bool, updateFails: bool, now: int) returns (r: HttpResult)
    requires db.Valid()
    modifies db
    ensures db.Valid()
    ensures !Truthy(enrollmentId) || !Truthy(action) ==> r == Failure(400, "enrollmentId and action are required")
    ensures Truthy(enrollmentId) && Truthy(action) && user.None? ==> r == Failure(401, "Not signed in")
    ensures Truthy(enrollmentId) && Truthy(action) && user.Some?
            && (fetchFails || !OwnedBy(old(db.enrollments), enrollmentId.value, user.value)) ==>
              r == Failure(404, "Enrollment not found")
    ensures r.Success? <==> Truthy(enrollmentId) && Truthy(action) && user.Some? && !fetchFails
                            && OwnedBy(old(db.enrollments), enrollmentId.value, user.value)
                            && (action.value == "pause" || action.value == "resume") && !updateFails
    ensures r.Failure? && Truthy(enrollmentId) && Truthy(action) && user.Some? && !fetchFails
            && OwnedBy(old(db.enrollments), enrollmentId.value, user.value) ==>
              r == (if action.value == "pause" then Failure(500, "Failed to pause enrollment")
                    else if action.value == "resume" then Failure(500, "Failed to resume enrollment")
                    else Failure(400, "Unknown action"))
    ensures db.enrollments == if r.Success?
              then old(db.enrollments)[enrollmentId.value :=
                     Apply(ActionPatch(action.value, old(db.enrollments)[enrollmentId.value], now).value,
                           old(db.enrollments)[enrollmentId.value])]
              else old(db.enrollments)
    ensures db.steps == old(db.steps) && db.properties == old(db.properties) && db.messages == old(db.messages)
  {
    if !Truthy(enrollmentId) || !Truthy(action) {
      return Failure(400, "enrollmentId and action are required");
    }
    if user.None? {
      return Failure(401, "Not signed in");
    }
    var id := enrollmentId.value;
    if fetchFails || !OwnedBy(db.enrollments, id, user.value) {
      return Failure(404, "Enrollment not found");
    }
    var enrollment := db.enrollments[id];
    if action.value == "pause" {
      if updateFails {
        return Failure(500, "Failed to pause enrollment");
      }
      db.UpdateEnrollment(id, PauseOnly);
      return Success;
    }
    if action.value == "resume" {
      var nextRunAt := enrollment.nextRunAt;
      if nextRunAt.None? && enrollment.completedAt.None? {
        nextRunAt := Some(now);
      }
      if updateFails {
        return Failure(500, "Failed to resume enrollment");
      }
      db.UpdateEnrollment(id, NoChange.(isPaused := Some(false), nextRunAt := Some(nextRunAt)));
      return Success;
    }
    r := Failure(400, "Unknown action");
  }

  // ---------------------------------------------------------------------
  // DELETE
  // ---------------------------------------------------------------------

  /** DELETE: removes the caller's enrollment with that id, when there is one; success either way
      unless the delete fails. */
  method DeleteEnrollment(db: Db, enrollmentId: Option<string>, user: Option<string>, deleteFails: bool)
    returns (r: HttpResult)
    requires db.Valid()
    modifies db
    ensures db.Valid()
    ensures !Truthy(enrollmentId) ==> r == Failure(400, "enrollmentId is required")
    ensures Truthy(enrollmentId) && user.None? ==> r == Failure(401, "Not signed in")
    ensures Truthy(enrollmentId) && user.Some? ==> r == if deleteFails then Failure(500, "Failed to delete enrollment") else Success
    ensures db.enrollments == if r.Success? && OwnedBy(old(db.enrollments), enrollmentId.value, user.value)
                              then old(db.enrollments) - {enrollmentId.value}
                              else old(db.enrollments)
    ensures db.steps == old(db.steps) && db.properties == old(db.properties) && db.messages == old(db.messages)
  {
    if !Truthy(enrollmentId) {
      return Failure(400, "enrollmentId is required");
    }
    if user.None? {
      return Failure(401, "Not signed in");
    }
    if deleteFails {
      return Failure(500, "Failed to delete enrollment");
    }
    db.DeleteEnrollment(enrollmentId.value, user.value);
    r := Success;
  }

  /** The delete leaves every other row, and every row of another user, as it was. */
  lemma DeleteKeepsOthers(table: map<string, Enrollment>, id: string, user: string, other: string)
    requires other in table && (other != id || table[other].userId != Some(user))
    ensures var after := if OwnedBy(table, id, user) then table - {id} else table;
            other in after && after[other] == table[other]
  {
  }
}
