/** The property page's SMS automation panel: the status badge, the "next send"
    line, which buttons it offers for the current enrollment, and what the
    Enroll button does before any request is made. Date formatting
    (`toLocaleString`) is the parameter `format`. */
module AutomationSection {
  import opened Base
  import opened Domain
  import SequenceEnrollment

  /** `statusLabel`: none without an enrollment; completion wins over the pause flag. */
  function StatusLabel(enrollment: Option<Enrollment>): (r: Option<string>)
    ensures r.None? <==> enrollment.None?
    ensures enrollment.Some? ==> r.value in {"Completed", "Paused", "Active"}
    ensures enrollment.Some? ==> (r == Some("Completed") <==> IsCompleted(enrollment.value))
    ensures enrollment.Some? ==>
              (r == Some("Paused") <==> !IsCompleted(enrollment.value) && enrollment.value.isPaused)
  {
    match enrollment
    case None => None
    case Some(e) =>
      if e.completedAt.Some? then Some("Completed")
      else if e.isPaused then Some("Paused")
      else Some("Active")
  }

  /** The badge names exactly the state the worker sees (a completed enrollment that is also
      paused shows "Completed"). */
  lemma LabelIsState(e: Enrollment)
    ensures StatusLabel(Some(e)) == Some("Completed") <==> StateOf(e) == Completed
    ensures StatusLabel(Some(e)) == Some("Paused") <==> StateOf(e) == Paused
    ensures StatusLabel(Some(e)) == Some("Active") <==> StateOf(e) == Active
  {
    var l := StatusLabel(Some(e));
    assert l.value in {"Completed", "Paused", "Active"};
  }

  /** The "Next send" text: the formatted time when one is set, else "N/A" for a completed
      enrollment, else "Pending scheduling". */
  function NextSendText(e: Enrollment, format: int -> string): (t: string)
    ensures e.nextRunAt.Some? ==> t == format(e.nextRunAt.value)
    ensures e.nextRunAt.None? && IsCompleted(e) ==> t == "N/A"
    ensures e.nextRunAt.None? && !IsCompleted(e) ==> t == "Pending scheduling"
  {
    if e.nextRunAt.Some? then format(e.nextRunAt.value)
    else if e.completedAt.Some? then "N/A"
    else "Pending scheduling"
  }

  /** The buttons of the enrolled view, in the order they appear. */
  function Controls(e: Enrollment): (buttons: seq<string>)
    ensures buttons == [] <==> IsCompleted(e)
    ensures "Cancel" in buttons <==> !IsCompleted(e)
    ensures "Resume" in buttons <==> !IsCompleted(e) && e.isPaused
    ensures "Pause" in buttons <==> !IsCompleted(e) && !e.isPaused
    ensures "Reset Error" in buttons <==> !IsCompleted(e) && Truthy(e.lastError)
    ensures buttons != [] ==> buttons[0] == (if e.isPaused then "Resume" else "Pause")
    ensures forall b :: b in buttons ==> b in {"Resume", "Pause", "Cancel", "Reset Error"}
  {
    if e.completedAt.Some? then []
    else [if e.isPaused then "Resume" else "Pause", "Cancel"] + (if Truthy(e.lastError) then ["Reset Error"] else [])
  }

  /** Exactly one of Resume and Pause is offered for an enrollment that is not completed. */
  lemma OneToggle(e: Enrollment)
    requires !IsCompleted(e)
    ensures ("Resume" in Controls(e)) != ("Pause" in Controls(e))
  {
  }

  /** The action the first button sends. */
  function ToggleAction(e: Enrollment): string {
    if e.isPaused then "resume" else "pause"
  }

  /** Pressing the offered toggle flips the pause flag and leaves the step and completion alone, so
      the badge moves between "Paused" and "Active". */
  lemma ToggleFlipsPause(e: Enrollment, now: int)
    requires !IsCompleted(e)
    ensures var after := Apply(SequenceEnrollment.ActionPatch(ToggleAction(e), e, now).value, e);
      && after.isPaused == !e.isPaused
      && after.currentStep == e.currentStep
      && !IsCompleted(after)
      && StatusLabel(Some(after)) == Some(if e.isPaused then "Active" else "Paused")
  {
  }

  /** What clicking Enroll does before the request: an error text, or the request's body. */
  datatype EnrollClick = ShowError(message: string) | PostEnrollment(propertyId: string, sequenceId: string, userId: string)

  /** `handleEnroll` up to the `fetch`: nothing selected, or not signed in, stops with a message. */
  function HandleEnroll(propertyId: string, selectedSequenceId: string, userError: bool,
                        userId: Option<string>): (r: EnrollClick)
    ensures selectedSequenceId == "" ==> r == ShowError("Select a sequence.")
    ensures selectedSequenceId != "" && (userError || !Truthy(userId)) ==>
              r == ShowError("You must be signed in to enroll.")
    ensures r.PostEnrollment? <==> selectedSequenceId != "" && !userError && Truthy(userId)
    ensures r.PostEnrollment? ==>
              r == PostEnrollment(propertyId, selectedSequenceId, userId.value)
  {
    if selectedSequenceId == "" then ShowError("Select a sequence.")
    else if userError || !Truthy(userId) then ShowError("You must be signed in to enroll.")
    else PostEnrollment(propertyId, selectedSequenceId, userId.value)
  }
}
