/** The sequence worker (`POST /api/cron/run-sms-sequences`).

    One run checks the provider configuration and the cron secret, selects at
    most 20 due enrollments (earliest `next_run_at` first) and then handles
    them one after the other. For each one it looks up the current step and
    the property, renders the step's template, picks the destination, sends,
    logs the message and moves the enrollment on: to the next step, to
    Paused with an error, or to Completed.

    Every read of the store and the provider's answer is an outcome the
    environment chooses, given per enrollment id as `Replies`. `Decide` is
    the per-enrollment state machine as a function of the snapshot row;
    `ProcessOne` is the imperative handler proved to follow it; `Run` folds
    `Decide` over the batch and `RunOnce` is the whole request. */
module Cron {
  import opened Base
  import opened Domain
  import opened Database
  import opened Template

  /** `limit(20)` on the selection query. */
  const BatchLimit: nat := 20

  /** One minute in milliseconds. */
  const MinuteMs: int := 60000

  const MissingStepError: string := "Missing step for current_step"
  const MissingPropertyError: string := "Missing property"
  const MissingTemplateError: string := "Missing body_template"
  const DefaultSendError: string := "Sequence SMS failed"

  /** The environment the route reads at start-up. */
  datatype CronConfig = CronConfig(
    accountSid: Option<string>,
    authToken: Option<string>,
    fromNumber: Option<string>,
    testToNumber: Option<string>,
    cronSecret: Option<string>,
    isDevMode: bool)

  /** `NODE_ENV !== "production" || SMS_DEV_MODE === "true"` */
  function IsDevMode(nodeEnv: Option<string>, smsDevModeVar: Option<string>): (dev: bool)
    ensures !dev <==> nodeEnv == Some("production") && smsDevModeVar != Some("true")
  {
    nodeEnv != Some("production") || smsDevModeVar == Some("true")
  }

  predicate TwilioConfigured(cfg: CronConfig) {
    Truthy(cfg.accountSid) && Truthy(cfg.authToken) && Truthy(cfg.fromNumber)
  }

  /** A non-empty secret is configured and the `x-cron-secret` header equals it. */
  predicate Authorized(cfg: CronConfig, headerSecret: Option<string>) {
    Truthy(cfg.cronSecret) && headerSecret == cfg.cronSecret
  }

  /** The outcomes the store and the provider give while one enrollment is handled. */
  datatype Replies = Replies(
    stepReadFails: bool,
    propertyReadFails: bool,
    send: ProviderReply,
    nextStepReadFails: bool,
    logFails: bool,
    updateFails: bool)

  /** What one run sees: the step and property tables, the configuration, the outcomes per
      enrollment id and the time. */
  datatype Context = Context(
    steps: seq<SequenceStep>,
    properties: map<string, PropertyRow>,
    cfg: CronConfig,
    replies: string -> Replies,
    now: int)

  // ---------------------------------------------------------------------
  // Step lookups
  // ---------------------------------------------------------------------

  /** The steps of a sequence with a given number, in table order. */
  function StepsNumbered(steps: seq<SequenceStep>, sequenceId: string, n: int): (r: seq<SequenceStep>)
    ensures |r| <= |steps|
    ensures forall s :: s in r <==> s in steps && s.sequenceId == sequenceId && s.stepNumber == n
  {
    if steps == [] then []
    else
      var rest := StepsNumbered(steps[1..], sequenceId, n);
      if steps[0].sequenceId == sequenceId && steps[0].stepNumber == n then [steps[0]] + rest else rest
  }

  /** `.eq("sequence_id", …).eq("step_number", n).maybeSingle()`: the row when exactly one
      matches; nothing when none does, and an error (also nothing) when several do. */
  function StepLookup(steps: seq<SequenceStep>, sequenceId: string, n: int): (r: Option<SequenceStep>)
    ensures r.Some? ==> r.value in steps && r.value.sequenceId == sequenceId && r.value.stepNumber == n
    ensures r.None? && (exists s :: s in steps && s.sequenceId == sequenceId && s.stepNumber == n) ==>
              |StepsNumbered(steps, sequenceId, n)| > 1
  {
    var m := StepsNumbered(steps, sequenceId, n);
    if |m| == 1 then Some(m[0]) else None
  }

  /** `.gt("step_number", current).order("step_number").limit(1)`: a step of the sequence with
      the smallest number above `current`, or nothing when there is none. */
  function NextStep(steps: seq<SequenceStep>, sequenceId: string, current: int): (r: Option<SequenceStep>)
    ensures r.Some? ==> r.value in steps && r.value.sequenceId == sequenceId && r.value.stepNumber > current
    ensures r.Some? ==> forall s :: s in steps && s.sequenceId == sequenceId && s.stepNumber > current ==>
                          r.value.stepNumber <= s.stepNumber
    ensures r.None? <==> forall s :: s in steps ==> !(s.sequenceId == sequenceId && s.stepNumber > current)
  {
    if steps == [] then None
    else
      var rest := NextStep(steps[1..], sequenceId, current);
      var s := steps[0];
      assert forall t :: t in steps <==> t == s || t in steps[1..];
      if s.sequenceId == sequenceId && s.stepNumber > current && (rest.None? || s.stepNumber <= rest.value.stepNumber)
      then Some(s)
      else rest
  }

  // ---------------------------------------------------------------------
  // The per-enrollment state machine
  // ---------------------------------------------------------------------

  /** `(delay_minutes ?? 0) * 60 * 1000` */
  function DelayMs(delayMinutes: Option<int>): int {
    delayMinutes.GetOr(0) * MinuteMs
  }

  /** The destination: the test number in dev mode, else the trimmed seller phone when it is
      non-empty, else the test number. */
  function Destination(isDevMode: bool, sellerPhone: Option<string>, testNumber: string): (to: string)
    ensures isDevMode ==> to == testNumber
    ensures !isDevMode && sellerPhone.Some? && Trim(sellerPhone.value) != "" ==> to == Trim(sellerPhone.value)
    ensures !isDevMode && (sellerPhone.None? || Trim(sellerPhone.value) == "") ==> to == testNumber
    ensures testNumber != "" ==> to != ""
  {
    var target := if sellerPhone.Some? then Trim(sellerPhone.value) else "";
    if isDevMode then testNumber else if target != "" then target else testNumber
  }

  function MissingStepPatch(now: int): Patch {
    NoChange.(completedAt := Some(Some(now)), nextRunAt := Some(None), lastError := Some(Some(MissingStepError)))
  }

  function PausePatch(error: string): Patch {
    NoChange.(isPaused := Some(true), lastError := Some(Some(error)))
  }

  function AdvancePatch(next: SequenceStep, now: int): Patch {
    NoChange.(currentStep := Some(next.stepNumber), nextRunAt := Some(Some(now + DelayMs(next.delayMinutes))),
              lastError := Some(None))
  }

  function CompletePatch(now: int): Patch {
    NoChange.(completedAt := Some(Some(now)), nextRunAt := Some(None), lastError := Some(None))
  }

  /** How the handling of one enrollment ends: a counter it increments, or the abort of the run. */
  datatype Verdict = Succeeded | Failed | Abort

  /** The update issued, the request given to the provider, the message row inserted and the verdict. */
  datatype Decision = Decision(patch: Option<Patch>, request: Option<SmsRequest>, log: Option<MessageRow>,
                               verdict: Verdict)

  predicate StepFound(e: Enrollment, c: Context) {
    !c.replies(e.id).stepReadFails && StepLookup(c.steps, e.sequenceId, e.currentStep).Some?
  }

  predicate PropertyFound(e: Enrollment, c: Context) {
    !c.replies(e.id).propertyReadFails && e.propertyId in c.properties
  }

  /** The step was found and its template is a non-empty string. */
  predicate TemplateFound(e: Enrollment, c: Context) {
    StepFound(e, c) && Truthy(StepLookup(c.steps, e.sequenceId, e.currentStep).value.bodyTemplate)
  }

  function TestNumber(cfg: CronConfig): string {
    Trim(cfg.testToNumber.GetOr(""))
  }

  /** Everything is in place for a send. */
  predicate ReadyToSend(e: Enrollment, c: Context) {
    StepFound(e, c) && PropertyFound(e, c) && TemplateFound(e, c) && TestNumber(c.cfg) != ""
  }

  /** The request for an enrollment that is ready to send. */
  function RequestFor(e: Enrollment, c: Context): SmsRequest
    requires StepFound(e, c) && PropertyFound(e, c) && TemplateFound(e, c)
  {
    var step := StepLookup(c.steps, e.sequenceId, e.currentStep).value;
    var property := c.properties[e.propertyId];
    SmsRequest(Destination(c.cfg.isDevMode, property.sellerPhone, TestNumber(c.cfg)),
               c.cfg.fromNumber.GetOr(""),
               RenderTemplate(step.bodyTemplate.value, property))
  }

  function SentRow(e: Enrollment, req: SmsRequest, sid: Option<string>, now: int): MessageRow {
    MessageRow(e.propertyId, e.userId, req.to, req.from, req.body, "sent", "sequence", sid, None, now)
  }

  function FailedRow(e: Enrollment, req: SmsRequest, error: string, now: int): MessageRow {
    MessageRow(e.propertyId, e.userId, req.to, req.from, req.body, "failed", "sequence", None, Some(error), now)
  }

  /** The text a provider error leaves in the log and in `last_error`: `smsErr?.message ?? …`. */
  function SendError(message: Option<string>): string {
    message.GetOr(DefaultSendError)
  }

  /** The handling of one selected enrollment, from its snapshot row. */
  function Decide(e: Enrollment, c: Context): (d: Decision)
    ensures d.patch.None? <==> d.verdict == Abort
    ensures d.log.Some? <==> d.request.Some?
    ensures d.verdict == Abort ==> d.request.None?
  {
    var r := c.replies(e.id);
    var step := StepLookup(c.steps, e.sequenceId, e.currentStep);
    if r.stepReadFails || step.None? then
      Decision(Some(MissingStepPatch(c.now)), None, None, Failed)
    else if r.propertyReadFails || e.propertyId !in c.properties then
      Decision(Some(PausePatch(MissingPropertyError)), None, None, Failed)
    else if !Truthy(step.value.bodyTemplate) then
      Decision(Some(PausePatch(MissingTemplateError)), None, None, Failed)
    else if TestNumber(c.cfg) == "" then
      Decision(None, None, None, Abort)
    else
      var req := RequestFor(e, c);
      match r.send
      case Rejected(message) =>
        Decision(Some(PausePatch(SendError(message))), Some(req), Some(FailedRow(e, req, SendError(message), c.now)), Failed)
      case Delivered(sid) =>
        var next := NextAfterSend(e, c);
        var patch := if next.Some? then AdvancePatch(next.value, c.now) else CompletePatch(c.now);
        Decision(Some(patch), Some(req), Some(SentRow(e, req, sid, c.now)), Succeeded)
  }

  /** A message is logged exactly for a request to the provider, which is made exactly when step,
      property, template and test number are all there, with the rendered body for the chosen
      destination; the run stops exactly when only the test number is missing. */
  lemma DecideSends(e: Enrollment, c: Context)
    ensures var d := Decide(e, c);
      && (d.request.Some? <==> d.log.Some?)
      && (d.request.Some? <==> ReadyToSend(e, c))
      && (d.request.Some? ==> d.request.value == RequestFor(e, c))
      && (d.verdict == Abort <==> StepFound(e, c) && PropertyFound(e, c) && TemplateFound(e, c) && TestNumber(c.cfg) == "")
      && (d.verdict == Succeeded <==> ReadyToSend(e, c) && c.replies(e.id).send.Delivered?)
      && (d.log.Some? ==> d.log.value.source == "sequence" && (d.log.value.status == "sent" <==> d.verdict == Succeeded))
  {
  }

  /** Missing step (or a failing lookup): completed, unscheduled, with the error; counted as
      failed; no message. */
  lemma DecideMissingStep(e: Enrollment, c: Context)
    requires !StepFound(e, c)
    ensures var d := Decide(e, c);
      && d.verdict == Failed && d.log.None? && d.request.None?
      && Apply(d.patch.value, e) == e.(completedAt := Some(c.now), nextRunAt := None, lastError := Some(MissingStepError))
  {
  }

  /** Missing property or empty template: paused with the matching error, `current_step` and
      `next_run_at` untouched, counted as failed, no message. */
  lemma DecideMissingContent(e: Enrollment, c: Context)
    requires StepFound(e, c) && !(PropertyFound(e, c) && TemplateFound(e, c))
    ensures var d := Decide(e, c);
      && d.verdict == Failed && d.log.None? && d.request.None?
      && Apply(d.patch.value, e) == e.(isPaused := true,
                                       lastError := Some(if !PropertyFound(e, c) then MissingPropertyError
                                                         else MissingTemplateError))
  {
  }

  /** Provider failure: one "failed" row with the provider's text, paused with the same text, not
      advanced, counted as failed. */
  lemma DecideSendFailure(e: Enrollment, c: Context)
    requires ReadyToSend(e, c) && c.replies(e.id).send.Rejected?
    ensures var d := Decide(e, c);
      var err := SendError(c.replies(e.id).send.message);
      && d.verdict == Failed
      && d.log == Some(FailedRow(e, RequestFor(e, c), err, c.now))
      && Apply(d.patch.value, e) == e.(isPaused := true, lastError := Some(err))
  {
  }

  /** `n` is a step of the sequence numbered above `current`, and no step of it lies strictly
      between. */
  predicate IsNextStep(steps: seq<SequenceStep>, sequenceId: string, current: int, n: SequenceStep) {
    && n in steps && n.sequenceId == sequenceId && n.stepNumber > current
    && forall s :: s in steps && s.sequenceId == sequenceId && s.stepNumber > current ==> n.stepNumber <= s.stepNumber
  }

  /** The step the worker moves to after a successful send: none when the lookup fails. */
  function NextAfterSend(e: Enrollment, c: Context): Option<SequenceStep> {
    if c.replies(e.id).nextStepReadFails then None else NextStep(c.steps, e.sequenceId, e.currentStep)
  }

  lemma DecideDelivered(e: Enrollment, c: Context)
    requires ReadyToSend(e, c) && c.replies(e.id).send.Delivered?
    ensures var next := NextAfterSend(e, c);
            Decide(e, c) == Decision(Some(if next.Some? then AdvancePatch(next.value, c.now) else CompletePatch(c.now)),
                                     Some(RequestFor(e, c)),
                                     Some(SentRow(e, RequestFor(e, c), c.replies(e.id).send.sid, c.now)), Succeeded)
  {
  }

  /** Provider success: one "sent" row with the provider's sid, counted as succeeded; the error
      is cleared and the pause flag left as it was. */
  lemma DecideSendSuccess(e: Enrollment, c: Context)
    requires ReadyToSend(e, c) && c.replies(e.id).send.Delivered?
    ensures var d := Decide(e, c);
      var after := Apply(d.patch.value, e);
      && d.verdict == Succeeded
      && d.log == Some(SentRow(e, RequestFor(e, c), c.replies(e.id).send.sid, c.now))
      && after.lastError.None? && after.isPaused == e.isPaused
  {
    DecideDelivered(e, c);
  }

  /** After a success the enrollment moves to the step with the smallest number above the current
      one, `delay * 60000` ms after now (a null delay counts as 0), and stays uncompleted. */
  lemma DecideAdvance(e: Enrollment, c: Context)
    requires ReadyToSend(e, c) && c.replies(e.id).send.Delivered?
    requires NextAfterSend(e, c).Some?
    ensures var next := NextAfterSend(e, c).value;
      && Apply(Decide(e, c).patch.value, e) == Apply(AdvancePatch(next, c.now), e)
      && IsNextStep(c.steps, e.sequenceId, e.currentStep, next)
  {
    DecideAdvancePatch(e, c);
    NextAfterSendIsNext(e, c);
  }

  /** The looked-up next step is the nearest later step of the sequence. */
  lemma NextAfterSendIsNext(e: Enrollment, c: Context)
    requires NextAfterSend(e, c).Some?
    ensures IsNextStep(c.steps, e.sequenceId, e.currentStep, NextAfterSend(e, c).value)
  {
  }

  /** The update issued after a success with a later step. */
  lemma DecideAdvancePatch(e: Enrollment, c: Context)
    requires ReadyToSend(e, c) && c.replies(e.id).send.Delivered?
    requires NextAfterSend(e, c).Some?
    ensures Decide(e, c).patch == Some(AdvancePatch(NextAfterSend(e, c).value, c.now))
  {
    DecideDelivered(e, c);
  }

  /** The advance update sets the step number and the next run and clears the error; the pause
      flag and the completion stay as they were. */
  lemma AdvanceApplied(next: SequenceStep, now: int, e: Enrollment)
    ensures Apply(AdvancePatch(next, now), e)
         == e.(currentStep := next.stepNumber, nextRunAt := Some(now + DelayMs(next.delayMinutes)), lastError := None)
  {
  }

  /** After a success with no later step (or a failing lookup of it) the enrollment is completed
      now, with no next run, at the same step. */
  lemma DecideComplete(e: Enrollment, c: Context)
    requires ReadyToSend(e, c) && c.replies(e.id).send.Delivered?
    requires NextAfterSend(e, c).None?
    ensures Apply(Decide(e, c).patch.value, e) == e.(completedAt := Some(c.now), nextRunAt := None, lastError := None)
  {
    DecideDelivered(e, c);
    assert Decide(e, c).patch.value == CompletePatch(c.now);
  }

  // ---------------------------------------------------------------------
  // Effects of one decision on the tables
  // ---------------------------------------------------------------------

  /** The enrollment table after an update (not applied when there is none, the write fails or no
      row has the id). */
  function TableAfter(table: map<string, Enrollment>, id: string, patch: Option<Patch>, updateFails: bool)
    : map<string, Enrollment>
  {
    if patch.Some? && !updateFails && id in table then table[id := Apply(patch.value, table[id])] else table
  }

  function RowsLogged(log: Option<MessageRow>, logFails: bool): seq<MessageRow> {
    if log.Some? && !logFails then [log.value] else []
  }

  function RequestsSent(request: Option<SmsRequest>): seq<SmsRequest> {
    if request.Some? then [request.value] else []
  }

  /** The update of one enrollment; a failed write is ignored, as the worker does. */
  method WriteUpdate(db: Db, id: string, patch: Patch, fails: bool)
    requires db.Valid()
    modifies db
    ensures db.Valid() && db.steps == old(db.steps) && db.properties == old(db.properties)
    ensures db.enrollments == TableAfter(old(db.enrollments), id, Some(patch), fails)
    ensures db.messages == old(db.messages)
  {
    if !fails {
      db.UpdateEnrollment(id, patch);
    }
  }

  /** The insert into `sms_messages`; a failed insert is ignored. */
  method WriteLog(db: Db, row: MessageRow, fails: bool)
    requires db.Valid()
    modifies db
    ensures db.Valid() && db.steps == old(db.steps) && db.properties == old(db.properties)
    ensures db.enrollments == old(db.enrollments)
    ensures db.messages == old(db.messages) + RowsLogged(Some(row), fails)
  {
    if !fails {
      db.InsertMessage(row);
    }
  }

  lemma DecideRejected(e: Enrollment, c: Context)
    requires ReadyToSend(e, c) && c.replies(e.id).send.Rejected?
    ensures var err := SendError(c.replies(e.id).send.message);
            Decide(e, c) == Decision(Some(PausePatch(err)), Some(RequestFor(e, c)),
                                     Some(FailedRow(e, RequestFor(e, c), err, c.now)), Failed)
  {
  }

  /** The contract shared by the loop body and its parts: the verdict is the decided one, the
      decided update is issued (unless the write fails), the decided row is logged (unless the
      insert fails), the decided request is made, and nothing else changes. */
  ghost predicate Handled(db: Db, gateway: Gateway, e: Enrollment, c: Context, v: Verdict,
                          enrollments0: map<string, Enrollment>, messages0: seq<MessageRow>,
                          requests0: seq<SmsRequest>)
    reads db, gateway
  {
    var d := Decide(e, c);
    var r := c.replies(e.id);
    && v == d.verdict
    && db.enrollments == TableAfter(enrollments0, e.id, d.patch, r.updateFails)
    && db.messages == messages0 + RowsLogged(d.log, r.logFails)
    && gateway.requests == requests0 + RequestsSent(d.request)
  }

  /** The test-number check, the provider call and what follows it, once step, property and
      template are found. */
  method SendOne(db: Db, gateway: Gateway, e: Enrollment, c: Context) returns (v: Verdict)
    requires db.Valid() && db.steps == c.steps && db.properties == c.properties
    requires StepFound(e, c) && PropertyFound(e, c) && TemplateFound(e, c)
    modifies db, gateway
    ensures db.Valid() && db.steps == old(db.steps) && db.properties == old(db.properties)
    ensures Handled(db, gateway, e, c, v, old(db.enrollments), old(db.messages), old(gateway.requests))
  {
    var r := c.replies(e.id);
    var step := StepLookup(db.steps, e.sequenceId, e.currentStep).value;
    var property := db.properties[e.propertyId];
    var body := RenderTemplate(step.bodyTemplate.value, property);
    var testNumber := Trim(c.cfg.testToNumber.GetOr(""));
    if testNumber == "" {
      return Abort;
    }
    var to := Destination(c.cfg.isDevMode, property.sellerPhone, testNumber);
    var req := SmsRequest(to, c.cfg.fromNumber.GetOr(""), body);
    assert req == RequestFor(e, c);
    var answer := gateway.Create(req, r.send);
    match answer {
      case Rejected(message) =>
        DecideRejected(e, c);
        WriteLog(db, FailedRow(e, req, SendError(message), c.now), r.logFails);
        WriteUpdate(db, e.id, PausePatch(SendError(message)), r.updateFails);
        return Failed;
      case Delivered(sid) =>
        DecideDelivered(e, c);
        WriteLog(db, SentRow(e, req, sid, c.now), r.logFails);
        var next := if r.nextStepReadFails then None else NextStep(db.steps, e.sequenceId, e.currentStep);
        var patch := if next.Some? then AdvancePatch(next.value, c.now) else CompletePatch(c.now);
        WriteUpdate(db, e.id, patch, r.updateFails);
        return Succeeded;
    }
  }

  /** The property and template checks, once the step is found. */
  method ProcessWithStep(db: Db, gateway: Gateway, e: Enrollment, c: Context) returns (v: Verdict)
    requires db.Valid() && db.steps == c.steps && db.properties == c.properties && StepFound(e, c)
    modifies db, gateway
    ensures db.Valid() && db.steps == old(db.steps) && db.properties == old(db.properties)
    ensures Handled(db, gateway, e, c, v, old(db.enrollments), old(db.messages), old(gateway.requests))
  {
    var r := c.replies(e.id);
    if r.propertyReadFails || e.propertyId !in db.properties {
      WriteUpdate(db, e.id, PausePatch(MissingPropertyError), r.updateFails);
      return Failed;
    }
    var step := StepLookup(db.steps, e.sequenceId, e.currentStep).value;
    if !Truthy(step.bodyTemplate) {
      WriteUpdate(db, e.id, PausePatch(MissingTemplateError), r.updateFails);
      return Failed;
    }
    v := SendOne(db, gateway, e, c);
  }

  /** Handles one enrollment of the batch, as the loop body does. */
  method ProcessOne(db: Db, gateway: Gateway, e: Enrollment, c: Context) returns (v: Verdict)
    requires db.Valid() && db.steps == c.steps && db.properties == c.properties
    modifies db, gateway
    ensures db.Valid() && db.steps == old(db.steps) && db.properties == old(db.properties)
    ensures v == Decide(e, c).verdict
    ensures db.enrollments == TableAfter(old(db.enrollments), e.id, Decide(e, c).patch, c.replies(e.id).updateFails)
    ensures db.messages == old(db.messages) + RowsLogged(Decide(e, c).log, c.replies(e.id).logFails)
    ensures gateway.requests == old(gateway.requests) + RequestsSent(Decide(e, c).request)
  {
    var r := c.replies(e.id);
    var step := StepLookup(db.steps, e.sequenceId, e.currentStep);
    if r.stepReadFails || step.None? {
      WriteUpdate(db, e.id, MissingStepPatch(c.now), r.updateFails);
      return Failed;
    }
    v := ProcessWithStep(db, gateway, e, c);
  }

  // ---------------------------------------------------------------------
  // The run over a batch
  // ---------------------------------------------------------------------

  /** The state of a run: the enrollment table, the rows and requests added, the counters, and
      whether it stopped on a missing test number. */
  datatype RunState = RunState(
    table: map<string, Enrollment>,
    messages: seq<MessageRow>,
    requests: seq<SmsRequest>,
    succeeded: nat,
    failed: nat,
    aborted: bool)

  /** What handling one enrollment hands on to the run: the row it refers to, the decision, and
      whether the log insert and the update fail. */
  datatype Effect = Effect(id: string, decision: Decision, logFails: bool, updateFails: bool)

  function EffectOf(e: Enrollment, c: Context): Effect {
    var r := c.replies(e.id);
    Effect(e.id, Decide(e, c), r.logFails, r.updateFails)
  }

  /** One more enrollment handled; nothing happens once the run has stopped. */
  function Next(o: RunState, f: Effect): RunState {
    if o.aborted then o
    else
      var d := f.decision;
      if d.verdict == Abort then o.(aborted := true)
      else RunState(TableAfter(o.table, f.id, d.patch, f.updateFails), o.messages + RowsLogged(d.log, f.logFails),
                    o.requests + RequestsSent(d.request),
                    o.succeeded + (if d.verdict == Succeeded then 1 else 0),
                    o.failed + (if d.verdict == Failed then 1 else 0),
                    false)
  }

  /** Handling one enrollment touches no other row. */
  lemma NextKeepsOthers(o: RunState, f: Effect, id: string)
    requires id in o.table && f.id != id
    ensures id in Next(o, f).table && Next(o, f).table[id] == o.table[id]
  {
  }

  /** A message is logged only for a request to the provider (as `Decide` guarantees). */
  predicate Coherent(f: Effect) {
    f.decision.log.Some? ==> f.decision.request.Some?
  }

  /** The effects of a batch, in order; each refers to its enrollment's row. */
  function Effects(batch: seq<Enrollment>, c: Context): (fs: seq<Effect>)
    ensures |fs| == |batch|
    ensures forall i :: 0 <= i < |batch| ==> fs[i].id == batch[i].id && Coherent(fs[i])
  {
    seq(|batch|, i requires 0 <= i < |batch| => EffectOf(batch[i], c))
  }

  lemma EffectsPrefix(batch: seq<Enrollment>, c: Context, k: nat)
    requires k <= |batch|
    ensures Effects(batch[..k], c) == Effects(batch, c)[..k]
  {
  }

  lemma EffectsAt(batch: seq<Enrollment>, c: Context, k: nat)
    requires k < |batch|
    ensures Effects(batch, c)[k] == EffectOf(batch[k], c)
  {
  }

  /** The effects folded in order from `table`. */
  function Fold(fs: seq<Effect>, table: map<string, Enrollment>): (o: RunState)
    ensures o.table.Keys == table.Keys
    ensures !o.aborted ==> o.succeeded + o.failed == |fs|
    ensures |o.messages| <= |fs| && |o.requests| <= |fs|
    ensures (forall i :: 0 <= i < |fs| ==> Coherent(fs[i])) ==> |o.messages| <= |o.requests|
  {
    if fs == [] then RunState(table, [], [], 0, 0, false)
    else Next(Fold(fs[..|fs| - 1], table), fs[|fs| - 1])
  }

  lemma FoldPrefixStep(fs: seq<Effect>, table: map<string, Enrollment>, i: nat)
    requires i < |fs|
    ensures Fold(fs[..i + 1], table) == Next(Fold(fs[..i], table), fs[i])
  {
    assert fs[..i + 1][..i] == fs[..i];
  }

  lemma {:induction false} FoldStopped(fs: seq<Effect>, table: map<string, Enrollment>, k: nat)
    requires k <= |fs| && (k == |fs| || Fold(fs[..k], table).aborted)
    ensures Fold(fs, table) == Fold(fs[..k], table)
    decreases |fs| - k
  {
    if k < |fs| {
      FoldPrefixStep(fs, table, k);
      FoldStopped(fs, table, k + 1);
    } else {
      assert fs[..k] == fs;
    }
  }

  /** One more effect on another row leaves `id` as it was. */
  lemma FoldStepKeeps(fs: seq<Effect>, table: map<string, Enrollment>, k: nat, id: string)
    requires k < |fs| && id in table && fs[k].id != id
    ensures Fold(fs[..k + 1], table).table[id] == Fold(fs[..k], table).table[id]
  {
    var o := Fold(fs[..k], table);
    FoldPrefixStep(fs, table, k);
    NextKeepsOthers(o, fs[k], id);
  }

  lemma {:induction false} FoldLaterUntouched(fs: seq<Effect>, table: map<string, Enrollment>, k: nat, id: string)
    requires k <= |fs| && id in table
    requires forall i :: k <= i < |fs| ==> fs[i].id != id
    ensures Fold(fs, table).table[id] == Fold(fs[..k], table).table[id]
    decreases |fs| - k
  {
    if k < |fs| {
      FoldStepKeeps(fs, table, k, id);
      FoldLaterUntouched(fs, table, k + 1, id);
    } else {
      assert fs[..k] == fs;
    }
  }

  /** The batch handled in order from `table`. */
  function Run(batch: seq<Enrollment>, table: map<string, Enrollment>, c: Context): (o: RunState)
    ensures o.table.Keys == table.Keys
    ensures !o.aborted ==> o.succeeded + o.failed == |batch|
    ensures |o.messages| <= |o.requests| <= |batch|
  {
    Fold(Effects(batch, c), table)
  }

  /** Once the run has stopped, the remaining enrollments change nothing. */
  lemma RunStopped(batch: seq<Enrollment>, table: map<string, Enrollment>, c: Context, k: nat)
    requires k <= |batch| && (k == |batch| || Run(batch[..k], table, c).aborted)
    ensures Run(batch, table, c) == Run(batch[..k], table, c)
  {
    EffectsPrefix(batch, c, k);
    FoldStopped(Effects(batch, c), table, k);
  }

  /** A row no enrollment of the batch refers to keeps its value. */
  lemma RunUntouched(batch: seq<Enrollment>, table: map<string, Enrollment>, c: Context, id: string)
    requires id in table
    requires forall i :: 0 <= i < |batch| ==> batch[i].id != id
    ensures Run(batch, table, c).table[id] == table[id]
  {
    var fs := Effects(batch, c);
    FoldLaterUntouched(fs, table, 0, id);
    assert fs[..0] == [];
  }

  /** In a batch of distinct enrollments, a handled enrollment whose update is written ends up as
      the decided transition of its row. */
  lemma RunRowOfHandled(batch: seq<Enrollment>, table: map<string, Enrollment>, c: Context, k: nat)
    requires k < |batch| && batch[k].id in table
    requires forall i, j :: 0 <= i < j < |batch| ==> batch[i].id != batch[j].id
    requires !Run(batch[..k], table, c).aborted && Decide(batch[k], c).verdict != Abort
    requires !c.replies(batch[k].id).updateFails
    ensures Run(batch, table, c).table[batch[k].id] == Apply(Decide(batch[k], c).patch.value, table[batch[k].id])
  {
    var id := batch[k].id;
    var fs := Effects(batch, c);
    EffectsPrefix(batch, c, k);
    EffectsAt(batch, c, k);
    FoldLaterUntouched(fs[..k], table, 0, id);
    assert fs[..k][..0] == [];
    FoldPrefixStep(fs, table, k);
    FoldLaterUntouched(fs, table, k + 1, id);
  }

  // ---------------------------------------------------------------------
  // Selection
  // ---------------------------------------------------------------------

  /** The `next_run_at` of a due row (the order of the selection). */
  function RunAt(e: Enrollment): int {
    e.nextRunAt.GetOr(0)
  }

  /** The ids of a batch. */
  function Ids(batch: seq<Enrollment>): set<string> {
    if batch == [] then {} else Ids(batch[..|batch| - 1]) + {batch[|batch| - 1].id}
  }

  lemma {:induction false} IdsHasMember(batch: seq<Enrollment>, i: nat)
    requires i < |batch|
    ensures batch[i].id in Ids(batch)
  {
    if i < |batch| - 1 {
      IdsHasMember(batch[..|batch| - 1], i);
    }
  }

  /** What the selection query may return: rows of the table that are due, each once, in ascending
      `next_run_at` order, at most 20, and no due row left out that is earlier than a selected one
      (nor any at all when fewer than 20 are selected). */
  ghost predicate IsSelection(batch: seq<Enrollment>, table: map<string, Enrollment>, now: int) {
    && |batch| <= BatchLimit
    && (forall i :: 0 <= i < |batch| ==> batch[i].id in table && table[batch[i].id] == batch[i] && IsDue(batch[i], now))
    && (forall i, j :: 0 <= i < j < |batch| ==> batch[i].id != batch[j].id)
    && (forall i, j :: 0 <= i < j < |batch| ==> RunAt(batch[i]) <= RunAt(batch[j]))
    && (forall id :: id in table && IsDue(table[id], now) && id !in Ids(batch) ==>
          |batch| == BatchLimit && forall i :: 0 <= i < |batch| ==> RunAt(batch[i]) <= RunAt(table[id]))
  }

  /** A row that is not due (paused, completed, unscheduled or scheduled later) is left as it is by
      the run: the selection never hands it to the loop. */
  lemma NotDueUntouched(batch: seq<Enrollment>, table: map<string, Enrollment>, c: Context, id: string)
    requires IsSelection(batch, table, c.now) && id in table && !IsDue(table[id], c.now)
    ensures Run(batch, table, c).table[id] == table[id]
  {
    RunUntouched(batch, table, c, id);
  }

  /** Paused and completed enrollments are never processed. */
  lemma InactiveUntouched(batch: seq<Enrollment>, table: map<string, Enrollment>, c: Context, id: string)
    requires IsSelection(batch, table, c.now) && id in table && StateOf(table[id]) != Active
    ensures Run(batch, table, c).table[id] == table[id]
  {
    NotDueUntouched(batch, table, c, id);
  }

  /** The id of a due row with the earliest `next_run_at` in `pool`. */
  method Earliest(pool: set<string>, table: map<string, Enrollment>, now: int) returns (best: string)
    requires pool != {}
    requires forall id :: id in pool ==> id in table && IsDue(table[id], now)
    ensures best in pool
    ensures forall id :: id in pool ==> RunAt(table[best]) <= RunAt(table[id])
  {
    var rest := pool;
    best :| best in rest;
    rest := rest - {best};
    while rest != {}
      invariant rest <= pool && best in pool
      invariant forall id :: id in pool && id !in rest ==> RunAt(table[best]) <= RunAt(table[id])
      decreases |rest|
    {
      var x :| x in rest;
      if RunAt(table[x]) < RunAt(table[best]) {
        best := x;
      }
      rest := rest - {x};
    }
  }

  lemma IdsAppend(batch: seq<Enrollment>, x: Enrollment)
    ensures Ids(batch + [x]) == Ids(batch) + {x.id}
  {
    assert (batch + [x])[..|batch|] == batch;
  }

  /** The state of the selection loop: `batch` holds the earliest due rows taken so far, in order,
      and `pool` the due rows not taken. */
  ghost predicate SelectInv(batch: seq<Enrollment>, pool: set<string>, table: map<string, Enrollment>, now: int) {
    && |batch| <= BatchLimit
    && pool == (set id | id in table && IsDue(table[id], now)) - Ids(batch)
    && (forall i :: 0 <= i < |batch| ==> batch[i].id in table && table[batch[i].id] == batch[i] && IsDue(batch[i], now))
    && (forall i, j :: 0 <= i < j < |batch| ==> batch[i].id != batch[j].id)
    && (forall i, j :: 0 <= i < j < |batch| ==> RunAt(batch[i]) <= RunAt(batch[j]))
    && (forall i, id :: 0 <= i < |batch| && id in pool ==> RunAt(batch[i]) <= RunAt(table[id]))
  }

  /** Taking the earliest row of the pool keeps the loop state. */
  lemma SelectStep(batch: seq<Enrollment>, pool: set<string>, table: map<string, Enrollment>, now: int, best: string)
    requires KeyedById(table) && SelectInv(batch, pool, table, now) && |batch| < BatchLimit
    requires best in pool && forall id :: id in pool ==> RunAt(table[best]) <= RunAt(table[id])
    ensures SelectInv(batch + [table[best]], pool - {best}, table, now)
  {
    var row := table[best];
    assert row.id == best;
    IdsAppend(batch, row);
    forall i | 0 <= i < |batch| ensures batch[i].id != best && RunAt(batch[i]) <= RunAt(row) {
      IdsHasMember(batch, i);
    }
    var grown := batch + [row];
    forall i, j | 0 <= i < j < |grown| ensures grown[i].id != grown[j].id && RunAt(grown[i]) <= RunAt(grown[j]) {
      if j < |batch| {
        assert grown[i] == batch[i] && grown[j] == batch[j];
      } else {
        assert grown[i] == batch[i] && grown[j] == row;
      }
    }
  }

  /** When the loop stops (20 rows taken or nothing left) the batch is a selection. */
  lemma SelectDone(batch: seq<Enrollment>, pool: set<string>, table: map<string, Enrollment>, now: int)
    requires SelectInv(batch, pool, table, now) && (|batch| == BatchLimit || pool == {})
    ensures IsSelection(batch, table, now)
  {
  }

  /** The selection query: due rows, earliest first, at most 20. */
  method SelectDue(db: Db, now: int) returns (batch: seq<Enrollment>)
    requires db.Valid()
    ensures IsSelection(batch, db.enrollments, now)
  {
    var table := db.enrollments;
    var pool := set id | id in table && IsDue(table[id], now);
    batch := [];
    while |batch| < BatchLimit && pool != {}
      invariant SelectInv(batch, pool, table, now)
      decreases |pool|
    {
      var best := Earliest(pool, table, now);
      SelectStep(batch, pool, table, now, best);
      batch := batch + [table[best]];
      pool := pool - {best};
    }
    SelectDone(batch, pool, table, now);
  }

  // ---------------------------------------------------------------------
  // The request
  // ---------------------------------------------------------------------

  datatype CronResponse = Counts(processed: nat, succeeded: nat, failed: nat) | Refused(status: int, error: string)

  /** The store and the provider hold what a run state says: the table, and the rows and
      requests added since the start. */
  ghost predicate Mirrors(db: Db, gateway: Gateway, o: RunState, messages0: seq<MessageRow>,
                          requests0: seq<SmsRequest>)
    reads db, gateway
  {
    && db.enrollments == o.table
    && db.messages == messages0 + o.messages
    && gateway.requests == requests0 + o.requests
  }

  /** Carrying out one effect on a mirrored state mirrors the next run state. */
  lemma MirrorsNext(o: RunState, f: Effect, messages0: seq<MessageRow>, requests0: seq<SmsRequest>,
                    enrollments1: map<string, Enrollment>, messages1: seq<MessageRow>, requests1: seq<SmsRequest>)
    requires !o.aborted && f.decision.verdict != Abort
    requires enrollments1 == TableAfter(o.table, f.id, f.decision.patch, f.updateFails)
    requires messages1 == messages0 + o.messages + RowsLogged(f.decision.log, f.logFails)
    requires requests1 == requests0 + o.requests + RequestsSent(f.decision.request)
    ensures var n := Next(o, f);
            && enrollments1 == n.table && messages1 == messages0 + n.messages && requests1 == requests0 + n.requests
  {
  }

  /** The loop over the selected enrollments. */
  method RunBatch(db: Db, gateway: Gateway, batch: seq<Enrollment>, c: Context)
    returns (aborted: bool, succeeded: nat, failed: nat)
    requires db.Valid() && db.steps == c.steps && db.properties == c.properties
    modifies db, gateway
    ensures db.Valid() && db.steps == old(db.steps) && db.properties == old(db.properties)
    ensures var o := Run(batch, old(db.enrollments), c);
            && db.enrollments == o.table
            && db.messages == old(db.messages) + o.messages
            && gateway.requests == old(gateway.requests) + o.requests
            && aborted == o.aborted && succeeded == o.succeeded && failed == o.failed
  {
    ghost var table0, messages0, requests0 := db.enrollments, db.messages, gateway.requests;
    ghost var fs := Effects(batch, c);
    ghost var o := RunState(table0, [], [], 0, 0, false);
    aborted, succeeded, failed := false, 0, 0;
    var i := 0;
    assert fs[..0] == [];
    while i < |batch| && !aborted
      invariant 0 <= i <= |batch|
      invariant o == Fold(fs[..i], table0)
      invariant db.Valid() && db.steps == c.steps && db.properties == c.properties
      invariant aborted == o.aborted && succeeded == o.succeeded && failed == o.failed
      invariant Mirrors(db, gateway, o, messages0, requests0)
    {
      FoldPrefixStep(fs, table0, i);
      EffectsAt(batch, c, i);
      ghost var f := fs[i];
      var v := ProcessOne(db, gateway, batch[i], c);
      if v == Abort {
        aborted := true;
      } else {
        MirrorsNext(o, f, messages0, requests0, db.enrollments, db.messages, gateway.requests);
        if v == Succeeded {
          succeeded := succeeded + 1;
        } else {
          failed := failed + 1;
        }
      }
      o := Next(o, f);
      i := i + 1;
    }
    FoldStopped(fs, table0, i);
  }

  /** `POST`: the guards, the selection and the loop. `selectFails` is the outcome of the selection
      query, `replies` the outcomes for each enrollment. */
  method RunOnce(db: Db, gateway: Gateway, cfg: CronConfig, headerSecret: Option<string>, selectFails: bool,
                 replies: string -> Replies, now: int) returns (resp: CronResponse, ghost batch: seq<Enrollment>)
    requires db.Valid()
    modifies db, gateway
    ensures db.Valid() && db.steps == old(db.steps) && db.properties == old(db.properties)
    ensures !TwilioConfigured(cfg) ==> resp == Refused(500, "Twilio not configured") && unchanged(db, gateway)
    ensures TwilioConfigured(cfg) && !Authorized(cfg, headerSecret) ==>
              resp == Refused(401, "Unauthorized") && unchanged(db, gateway)
    ensures TwilioConfigured(cfg) && Authorized(cfg, headerSecret) && selectFails ==>
              resp == Refused(500, "Failed to fetch enrollments") && unchanged(db, gateway)
    ensures TwilioConfigured(cfg) && Authorized(cfg, headerSecret) && !selectFails ==>
              var c := Context(old(db.steps), old(db.properties), cfg, replies, now);
              var o := Run(batch, old(db.enrollments), c);
              && IsSelection(batch, old(db.enrollments), now)
              && db.enrollments == o.table
              && db.messages == old(db.messages) + o.messages
              && gateway.requests == old(gateway.requests) + o.requests
              && resp == (if o.aborted then Refused(500, "TWILIO_TEST_TO_NUMBER is not configured")
                          else Counts(|batch|, o.succeeded, o.failed))
  {
    batch := [];
    if !Truthy(cfg.accountSid) || !Truthy(cfg.authToken) || !Truthy(cfg.fromNumber) {
      return Refused(500, "Twilio not configured"), batch;
    }
    if !Truthy(cfg.cronSecret) || headerSecret != cfg.cronSecret {
      return Refused(401, "Unauthorized"), batch;
    }
    if selectFails {
      return Refused(500, "Failed to fetch enrollments"), batch;
    }
    var enrollments := SelectDue(db, now);
    batch := enrollments;
    if |enrollments| == 0 {
      return Counts(0, 0, 0), batch;
    }
    var c := Context(db.steps, db.properties, cfg, replies, now);
    var aborted, succeeded, failed := RunBatch(db, gateway, enrollments, c);
    if aborted {
      return Refused(500, "TWILIO_TEST_TO_NUMBER is not configured"), batch;
    }
    resp := Counts(|enrollments|, succeeded, failed);
  }
}
