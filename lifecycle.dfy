/** The enrollment lifecycle across the routes that write `sms_sequence_enrollments`:
    the operator's pause and resume, the three error resets, and the worker.
    A completed enrollment is absorbing: no operator action clears its
    completion, and the worker never selects it. */
module Lifecycle {
  import opened Base
  import opened Domain
  import Cron
  import SequenceEnrollment
  import ResetEnrollmentError
  import AnalyticsErrorsReset
  import EnrollmentsResetError

  /** The operator updates of an existing row. */
  datatype OperatorAction = Pause | Resume | FullReset | Unpause | ClearError

  /** The update each action issues on the row it targets. */
  function PatchOf(a: OperatorAction, e: Enrollment, now: int): Patch {
    match a
    case Pause => SequenceEnrollment.PauseOnly
    case Resume => SequenceEnrollment.ResumePatch(e, now)
    case FullReset => ResetEnrollmentError.FullResetPatch(now)
    case Unpause => AnalyticsErrorsReset.UnpausePatch(now)
    case ClearError => EnrollmentsResetError.ClearErrorPatch
  }

  /** No operator action moves the step or touches the completion. */
  lemma OperatorKeepsStepAndCompletion(a: OperatorAction, e: Enrollment, now: int)
    ensures Apply(PatchOf(a, e, now), e).currentStep == e.currentStep
    ensures Apply(PatchOf(a, e, now), e).completedAt == e.completedAt
    ensures Apply(PatchOf(a, e, now), e).sequenceId == e.sequenceId
  {
  }

  /** What the three resets leave behind on a paused, errored enrollment that is not completed:
      the full reset and the unpause make it due now, the full reset and the clear-error remove
      the error, and only the clear-error leaves it paused and so out of the worker's selection. */
  lemma ResetsCompared(e: Enrollment, now: int)
    requires e.isPaused && e.lastError.Some? && !IsCompleted(e)
    ensures var full := Apply(PatchOf(FullReset, e, now), e);
            var unpause := Apply(PatchOf(Unpause, e, now), e);
            var clear := Apply(PatchOf(ClearError, e, now), e);
      && IsDue(full, now) && full.lastError.None? && full.lastErrorAt.None?
      && IsDue(unpause, now) && unpause.lastError == e.lastError
      && !IsDue(clear, now) && clear.lastError.None? && clear.isPaused
  {
  }

  /** A write to the table: an operator action on a row, or the worker's handling of a row it
      selected under context `c`. */
  datatype Event = Act(id: string, action: OperatorAction, now: int) | Work(id: string, c: Cron.Context)

  function Step(t: map<string, Enrollment>, ev: Event): map<string, Enrollment> {
    match ev
    case Act(id, a, now) =>
      if id in t then t[id := Apply(PatchOf(a, t[id], now), t[id])] else t
    case Work(id, c) =>
      if id in t && IsDue(t[id], c.now) && Cron.Decide(t[id], c).patch.Some?
      then t[id := Apply(Cron.Decide(t[id], c).patch.value, t[id])] else t
  }

  function Replay(t: map<string, Enrollment>, evs: seq<Event>): (r: map<string, Enrollment>)
    ensures r.Keys == t.Keys
  {
    if evs == [] then t else Step(Replay(t, evs[..|evs| - 1]), evs[|evs| - 1])
  }

  /** Completion is absorbing: after any interleaving of operator actions and worker runs a
      completed enrollment keeps its completion time, its step, and is never due. */
  lemma {:induction false} CompletedIsAbsorbing(t: map<string, Enrollment>, evs: seq<Event>, id: string)
    requires id in t && IsCompleted(t[id])
    ensures id in Replay(t, evs)
    ensures Replay(t, evs)[id].completedAt == t[id].completedAt
    ensures Replay(t, evs)[id].currentStep == t[id].currentStep
    ensures forall now :: !IsDue(Replay(t, evs)[id], now)
  {
    if evs != [] {
      var before := Replay(t, evs[..|evs| - 1]);
      CompletedIsAbsorbing(t, evs[..|evs| - 1], id);
      match evs[|evs| - 1]
      case Act(i, a, now) =>
        if i == id {
          OperatorKeepsStepAndCompletion(a, before[id], now);
        }
      case Work(i, c) =>
        assert !IsDue(before[id], c.now);
    }
  }
}
