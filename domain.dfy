/** The rows of the tables the automation core reads and writes
    (`sms_sequence_enrollments`, `sms_sequence_steps`, `sms_sequences`,
    `properties`, `property_sms_messages`), the update record a route sends
    with `.update({...})`, and the three states of an enrollment.
    Time stamps are integer milliseconds. */
module Domain {
  import opened Base

  /** One row of `sms_sequence_enrollments`. */
  datatype Enrollment = Enrollment(
    id: string,
    sequenceId: string,
    userId: Option<string>,
    propertyId: string,
    currentStep: int,
    nextRunAt: Option<int>,
    isPaused: bool,
    completedAt: Option<int>,
    lastError: Option<string>,
    lastErrorAt: Option<int>,
    createdAt: int)

  /** One row of `sms_sequence_steps`. */
  datatype SequenceStep = SequenceStep(
    id: string,
    sequenceId: string,
    stepNumber: int,
    delayMinutes: Option<int>,
    bodyTemplate: Option<string>)

  /** One row of `sms_sequences` (the columns the analytics read). */
  datatype Sequence = Sequence(id: string, name: string)

  /** One row of `properties`, with the columns the worker and the lead-stage route use. */
  datatype PropertyRow = PropertyRow(
    id: string,
    address: Option<string>,
    city: Option<string>,
    state: Option<string>,
    zip: Option<string>,
    listPrice: Option<int>,
    arv: Option<int>,
    dom: Option<int>,
    beds: Option<int>,
    baths: Option<int>,
    sqft: Option<int>,
    sellerPhone: Option<string>,
    leadStage: Option<string>)

  /** One row of `property_sms_messages`; `createdAt` is the column's default, the insert time. */
  datatype MessageRow = MessageRow(
    propertyId: string,
    userId: Option<string>,
    toNumber: string,
    fromNumber: string,
    body: string,
    status: string,
    source: string,
    providerSid: Option<string>,
    errorMessage: Option<string>,
    createdAt: int)

  /** The object passed to `.update({...})`: `None` leaves a column as it is. */
  datatype Patch = Patch(
    currentStep: Option<int>,
    nextRunAt: Option<Option<int>>,
    isPaused: Option<bool>,
    completedAt: Option<Option<int>>,
    lastError: Option<Option<string>>,
    lastErrorAt: Option<Option<int>>)

  const NoChange: Patch := Patch(None, None, None, None, None, None)

  /** The row after the update: each column named by the patch takes the patch's value. */
  function Apply(p: Patch, e: Enrollment): Enrollment {
    e.(currentStep := p.currentStep.GetOr(e.currentStep),
       nextRunAt := p.nextRunAt.GetOr(e.nextRunAt),
       isPaused := p.isPaused.GetOr(e.isPaused),
       completedAt := p.completedAt.GetOr(e.completedAt),
       lastError := p.lastError.GetOr(e.lastError),
       lastErrorAt := p.lastErrorAt.GetOr(e.lastErrorAt))
  }

  /** Enrollment states: Completed wins over Paused, as in the status label and the worker's filter. */
  datatype State = Active | Paused | Completed

  predicate IsCompleted(e: Enrollment) {
    e.completedAt.Some?
  }

  function StateOf(e: Enrollment): State {
    if IsCompleted(e) then Completed else if e.isPaused then Paused else Active
  }

  /** The worker's selection filter: `completed_at is null`, `is_paused = false`, `next_run_at <= now`
      (a null `next_run_at` never compares as `<=`). */
  predicate IsDue(e: Enrollment, now: int) {
    e.completedAt.None? && !e.isPaused && e.nextRunAt.Some? && e.nextRunAt.value <= now
  }

  /** Only an Active enrollment can be due. */
  lemma DueIsActive(e: Enrollment, now: int)
    requires IsDue(e, now)
    ensures StateOf(e) == Active
  {
  }

  /** Table invariant: every enrollment is stored under its own id. */
  ghost predicate KeyedById(m: map<string, Enrollment>) {
    forall id :: id in m ==> m[id].id == id
  }
}
