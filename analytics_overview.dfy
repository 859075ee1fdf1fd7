/** `GET /api/automation/analytics/overview`: message totals over a window of
    days and enrollment status counts. The window's messages are the rows
    whose creation time is at least `now - days * 86400000`; `Number(days)`
    is the parameter `number` (`None` for NaN). */
module AnalyticsOverview {
  import opened Base
  import opened Domain

  const DayMs: int := 24 * 60 * 60 * 1000

  /** `daysParam ? Math.max(1, Number(daysParam)) : 30`; `None` stands for NaN. */
  function WindowDays(daysParam: Option<string>, number: string -> Option<int>): (d: Option<int>)
    ensures !Truthy(daysParam) ==> d == Some(30)
    ensures Truthy(daysParam) ==> (d.None? <==> number(daysParam.value).None?)
    ensures d.Some? ==> d.value >= 1
    ensures Truthy(daysParam) && d.Some? && number(daysParam.value).value >= 1 ==> d.value == number(daysParam.value).value
    ensures Truthy(daysParam) && number(daysParam.value).Some? && number(daysParam.value).value < 1 ==> d == Some(1)
  {
    if !Truthy(daysParam) then Some(30)
    else
      var n := number(daysParam.value);
      if n.None? then None else Some(if n.value < 1 then 1 else n.value)
  }

  /** The largest distance from the epoch, in milliseconds, of a JavaScript `Date`. */
  const MaxTimeMs: int := 8640000000000000

  /** `new Date(t).toISOString()` gives a time exactly in this range; outside it, or for NaN, it
      throws a RangeError "Invalid time value". */
  predicate TimeInRange(t: int) {
    -MaxTimeMs <= t <= MaxTimeMs
  }

  /** `since`: the start of the window, `None` where its computation throws (a NaN window, or one
      reaching before the first representable date). */
  function WindowStart(daysParam: Option<string>, number: string -> Option<int>, now: int): (s: Option<int>)
    ensures s.Some? <==> WindowDays(daysParam, number).Some? && TimeInRange(now - WindowDays(daysParam, number).value * DayMs)
    ensures s.Some? ==> s.value == now - WindowDays(daysParam, number).value * DayMs && s.value < now
  {
    var days := WindowDays(daysParam, number);
    if days.None? || !TimeInRange(now - days.value * DayMs) then None else Some(now - days.value * DayMs)
  }

  /** From any present time, a window of at most 100,000,000 days can be computed. */
  lemma WindowInRange(daysParam: Option<string>, number: string -> Option<int>, now: int)
    requires 0 <= now <= MaxTimeMs
    requires WindowDays(daysParam, number).Some? && WindowDays(daysParam, number).value <= 100000000
    ensures WindowStart(daysParam, number, now).Some?
  {
  }

  /** A window of a billion days reaches before the first date, whatever the present time. */
  lemma HugeWindowThrows(daysParam: Option<string>, number: string -> Option<int>, now: int)
    requires 0 <= now <= MaxTimeMs
    requires Truthy(daysParam) && number(daysParam.value) == Some(1000000000)
    ensures WindowStart(daysParam, number, now).None?
  {
  }

  /** `.gte("created_at", since)` */
  function InWindow(ms: seq<MessageRow>, since: int): (r: seq<MessageRow>)
    ensures forall m :: m in r <==> m in ms && m.createdAt >= since
    ensures |r| <= |ms|
  {
    if ms == [] then []
    else
      var rest := InWindow(ms[..|ms| - 1], since);
      var m := ms[|ms| - 1];
      assert forall x :: x in ms <==> x in ms[..|ms| - 1] || x == m;
      if m.createdAt >= since then rest + [m] else rest
  }

  /** The window holds each row created at or after `since` as often as the table does. */
  lemma {:induction false} InWindowCounts(ms: seq<MessageRow>, since: int)
    ensures forall m :: multiset(InWindow(ms, since))[m] == if m.createdAt >= since then multiset(ms)[m] else 0
  {
    if ms != [] {
      var init := ms[..|ms| - 1];
      var m := ms[|ms| - 1];
      assert ms == init + [m];
      InWindowCounts(init, since);
      var rest := InWindow(init, since);
      if m.createdAt >= since {
        assert multiset(rest + [m]) == multiset(rest) + multiset{m};
      }
    }
  }

  /** The window of two runs of rows is the window of the first followed by that of the second,
      so the rows keep their order. */
  lemma {:induction false} InWindowAppend(a: seq<MessageRow>, b: seq<MessageRow>, since: int)
    ensures InWindow(a + b, since) == InWindow(a, since) + InWindow(b, since)
  {
    if b != [] {
      var init := b[..|b| - 1];
      assert (a + b)[..|a + b| - 1] == a + init;
      assert (a + b)[|a + b| - 1] == b[|b| - 1];
      InWindowAppend(a, init, since);
    } else {
      assert a + b == a;
    }
  }

  datatype MessageTotals = MessageTotals(sms: nat, manualSms: nat, sequenceSms: nat, failedSms: nat)

  /** The message counts: the exact sources "manual" and "sequence" are disjoint, so together they
      are at most the total (mock sources such as "sequence-mock" are in neither). */
  function Totals(ms: seq<MessageRow>): (t: MessageTotals)
    ensures t.sms == |ms|
    ensures t.manualSms == CountIf(ms, (m: MessageRow) => m.source == "manual")
    ensures t.sequenceSms == CountIf(ms, (m: MessageRow) => m.source == "sequence")
    ensures t.failedSms == CountIf(ms, (m: MessageRow) => m.status == "failed")
    ensures t.manualSms + t.sequenceSms <= t.sms && t.failedSms <= t.sms
  {
    var manual := (m: MessageRow) => m.source == "manual";
    var sequence := (m: MessageRow) => m.source == "sequence";
    CountIfDisjoint(ms, manual, sequence);
    MessageTotals(|ms|, CountIf(ms, manual), CountIf(ms, sequence),
                  CountIf(ms, (m: MessageRow) => m.status == "failed"))
  }

  datatype EnrollmentCounts = EnrollmentCounts(active: nat, paused: nat, completed: nat, errored: nat)

  /** The enrollment counts: `paused` ignores completion, `completed` ignores the pause flag, and
      `errored` is always 0. */
  function Statuses(es: seq<Enrollment>): (c: EnrollmentCounts)
    ensures c.active == CountIf(es, (e: Enrollment) => !e.isPaused && !IsCompleted(e))
    ensures c.paused == CountIf(es, (e: Enrollment) => e.isPaused)
    ensures c.completed == CountIf(es, (e: Enrollment) => IsCompleted(e))
    ensures c.errored == 0
    ensures c.active + CountIf(es, (e: Enrollment) => e.isPaused || IsCompleted(e)) == |es|
    ensures c.active + c.paused <= |es| && c.active + c.completed <= |es|
  {
    var active := (e: Enrollment) => !e.isPaused && !IsCompleted(e);
    var paused := (e: Enrollment) => e.isPaused;
    var completed := (e: Enrollment) => IsCompleted(e);
    var either := (e: Enrollment) => e.isPaused || IsCompleted(e);
    CountIfComplement(es, active, either);
    CountIfDisjoint(es, active, paused);
    CountIfDisjoint(es, active, completed);
    EnrollmentCounts(CountIf(es, active), CountIf(es, paused), CountIf(es, completed), 0)
  }

  datatype Overview = Overview(windowDays: int, totals: MessageTotals, enrollments: EnrollmentCounts)
                    | OverviewFailed(status: int, error: string)

  /** The route. A NaN window, or one reaching before the first date, makes the date computation
      throw, which the handler answers with 500 and the exception's text. */
  function GetOverview(daysParam: Option<string>, number: string -> Option<int>, now: int,
                       messages: seq<MessageRow>, messagesFail: bool,
                       enrollments: seq<Enrollment>, enrollmentsFail: bool): (r: Overview)
    ensures WindowStart(daysParam, number, now).None? ==> r == OverviewFailed(500, "Invalid time value")
    ensures WindowStart(daysParam, number, now).Some? && messagesFail ==> r == OverviewFailed(500, "Failed to load messages")
    ensures WindowStart(daysParam, number, now).Some? && !messagesFail && enrollmentsFail ==>
              r == OverviewFailed(500, "Failed to load enrollments")
    ensures r.Overview? <==> WindowStart(daysParam, number, now).Some? && !messagesFail && !enrollmentsFail
    ensures r.Overview? ==>
              && r.windowDays == WindowDays(daysParam, number).value
              && r.totals == Totals(InWindow(messages, now - r.windowDays * DayMs))
              && r.enrollments == Statuses(enrollments)
  {
    var since := WindowStart(daysParam, number, now);
    if since.None? then OverviewFailed(500, "Invalid time value")
    else if messagesFail then OverviewFailed(500, "Failed to load messages")
    else if enrollmentsFail then OverviewFailed(500, "Failed to load enrollments")
    else Overview(WindowDays(daysParam, number).value, Totals(InWindow(messages, since.value)), Statuses(enrollments))
  }
}
