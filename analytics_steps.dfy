/** `GET /api/automation/analytics/steps`: per sequence, per step, how many
    enrollments have reached the step and how many are paused on it.

    The route fills a record keyed by sequence id, then the step entries of
    each known sequence, then increments the counters once per enrollment,
    and finally lists each sequence's steps by ascending step number. The
    method `StepAggregation` does the same with maps and is proved to return
    the counts `Reached` and `Errors` of the whole enrollment list. */
module AnalyticsSteps {
  import opened Base
  import opened Domain

  /** The enrollment columns the route selects; `current_step` may be null. */
  datatype EnrollmentRow = EnrollmentRow(sequenceId: string, currentStep: Option<int>, isPaused: bool)

  datatype StepCount = StepCount(stepNumber: int, reached: nat, errors: nat)

  datatype SequenceReport = SequenceReport(sequenceId: string, sequenceName: string, steps: seq<StepCount>)

  datatype StepsResponse = Report(sequences: seq<SequenceReport>) | Failed(status: int, error: string)

  // ---------------------------------------------------------------------
  // Specification
  // ---------------------------------------------------------------------

  predicate IsSequence(ss: seq<Sequence>, id: string) {
    exists s :: s in ss && s.id == id
  }

  /** The sequence ids, each once, in the order of their first row: the key order of the record. */
  function SequenceOrder(ss: seq<Sequence>): (r: seq<string>)
    ensures forall id :: id in r <==> IsSequence(ss, id)
    ensures forall a, b :: 0 <= a < b < |r| ==> r[a] != r[b]
  {
    if ss == [] then []
    else
      var prev := SequenceOrder(ss[..|ss| - 1]);
      assert forall s :: s in ss <==> s in ss[..|ss| - 1] || s == ss[|ss| - 1];
      if ss[|ss| - 1].id in prev then prev else prev + [ss[|ss| - 1].id]
  }

  /** The name of the last row with that id (a later row overwrites the record entry). */
  function NameOf(ss: seq<Sequence>, id: string): string {
    if ss == [] then "" else if ss[|ss| - 1].id == id then ss[|ss| - 1].name else NameOf(ss[..|ss| - 1], id)
  }

  /** Some step row of sequence `id` has number `n`. */
  predicate HasStep(steps: seq<SequenceStep>, id: string, n: int) {
    exists s :: s in steps && s.sequenceId == id && s.stepNumber == n
  }

  /** The enrollment is in sequence `id` and its step (null counts as 0) is at least `n`. */
  predicate ReachesStep(e: EnrollmentRow, id: string, n: int) {
    e.sequenceId == id && e.currentStep.GetOr(0) >= n
  }

  /** The enrollment is in sequence `id`, paused, and exactly at step `n`. */
  predicate ErrorAt(e: EnrollmentRow, id: string, n: int) {
    ReachesStep(e, id, n) && e.isPaused && e.currentStep.GetOr(0) == n
  }

  function Reached(es: seq<EnrollmentRow>, id: string, n: int): nat {
    if es == [] then 0 else Reached(es[..|es| - 1], id, n) + (if ReachesStep(es[|es| - 1], id, n) then 1 else 0)
  }

  function Errors(es: seq<EnrollmentRow>, id: string, n: int): nat {
    if es == [] then 0 else Errors(es[..|es| - 1], id, n) + (if ErrorAt(es[|es| - 1], id, n) then 1 else 0)
  }

  /** The step numbers listed in a report. */
  function Numbers(out: seq<StepCount>): (r: seq<int>)
    ensures |r| == |out| && forall k :: 0 <= k < |out| ==> r[k] == out[k].stepNumber
  {
    seq(|out|, k requires 0 <= k < |out| => out[k].stepNumber)
  }

  /** The report of one sequence: its step numbers, each once and ascending, exactly the numbers
      of its step rows, each with the counts over all enrollments. */
  ghost predicate StepsReport(out: seq<StepCount>, steps: seq<SequenceStep>, es: seq<EnrollmentRow>, id: string) {
    && (forall a, b :: 0 <= a < b < |out| ==> out[a].stepNumber < out[b].stepNumber)
    && (forall n :: n in Numbers(out) <==> HasStep(steps, id, n))
    && (forall k :: 0 <= k < |out| ==>
          out[k].reached == Reached(es, id, out[k].stepNumber) && out[k].errors == Errors(es, id, out[k].stepNumber))
  }

  // ---------------------------------------------------------------------
  // Properties of the counts
  // ---------------------------------------------------------------------

  /** Every enrollment paused at a step has reached it: `errors <= reached`. */
  lemma {:induction false} ErrorsAtMostReached(es: seq<EnrollmentRow>, id: string, n: int)
    ensures Errors(es, id, n) <= Reached(es, id, n)
  {
    if es != [] {
      ErrorsAtMostReached(es[..|es| - 1], id, n);
    }
  }

  /** Within a sequence, a later step is reached by no more enrollments than an earlier one. */
  lemma {:induction false} ReachedAntitone(es: seq<EnrollmentRow>, id: string, n: int, m: int)
    requires n <= m
    ensures Reached(es, id, m) <= Reached(es, id, n)
  {
    if es != [] {
      ReachedAntitone(es[..|es| - 1], id, n, m);
    }
  }

  /** An enrollment of another sequence (in particular of an unknown one) changes no count. */
  lemma ForeignEnrollmentIgnored(es: seq<EnrollmentRow>, e: EnrollmentRow, id: string, n: int)
    requires e.sequenceId != id
    ensures Reached(es + [e], id, n) == Reached(es, id, n)
    ensures Errors(es + [e], id, n) == Errors(es, id, n)
  {
    assert (es + [e])[..|es + [e]| - 1] == es;
  }

  /** A step's `reached` counts at most the enrollments of its sequence. */
  lemma {:induction false} ReachedAtMostLength(es: seq<EnrollmentRow>, id: string, n: int)
    ensures Reached(es, id, n) <= |es|
  {
    if es != [] {
      ReachedAtMostLength(es[..|es| - 1], id, n);
    }
  }

  // ---------------------------------------------------------------------
  // Ordering step numbers
  // ---------------------------------------------------------------------

  predicate StrictlySorted(s: seq<int>) {
    forall a, b :: 0 <= a < b < |s| ==> s[a] < s[b]
  }

  predicate DistinctInts(s: seq<int>) {
    forall a, b :: 0 <= a < b < |s| ==> s[a] != s[b]
  }

  /** Puts a new number into a strictly ascending list. */
  function Insert(s: seq<int>, x: int): (r: seq<int>)
    requires StrictlySorted(s) && x !in s
    ensures StrictlySorted(r)
    ensures forall n :: n in r <==> n in s || n == x
    ensures |r| == |s| + 1
  {
    if s == [] then [x]
    else if x < s[0] then
      assert forall k :: 0 < k < |s| ==> s[0] < s[k];
      [x] + s
    else
      assert forall n :: n in s[1..] ==> s[0] < n by {
        forall n | n in s[1..] ensures s[0] < n {
          var k :| 0 <= k < |s[1..]| && s[1..][k] == n;
          assert s[k + 1] == n;
        }
      }
      var t := Insert(s[1..], x);
      assert forall k :: 0 <= k < |t| ==> t[k] in t;
      [s[0]] + t
  }

  /** `sort((a, b) => a.step_number - b.step_number)` on distinct numbers. */
  function SortAscending(s: seq<int>): (r: seq<int>)
    requires DistinctInts(s)
    ensures StrictlySorted(r)
    ensures forall n :: n in r <==> n in s
    ensures |r| == |s|
  {
    if s == [] then []
    else
      var init := s[..|s| - 1];
      assert DistinctInts(init);
      assert s[|s| - 1] !in init;
      assert forall n :: n in s <==> n in init || n == s[|s| - 1];
      Insert(SortAscending(init), s[|s| - 1])
  }

  // ---------------------------------------------------------------------
  // The aggregation
  // ---------------------------------------------------------------------

  lemma HasStepSnoc(steps: seq<SequenceStep>, j: int, id: string, n: int)
    requires 0 <= j < |steps|
    ensures HasStep(steps[..j + 1], id, n) <==>
              HasStep(steps[..j], id, n) || (steps[j].sequenceId == id && steps[j].stepNumber == n)
  {
    assert steps[..j + 1] == steps[..j] + [steps[j]];
  }

  lemma CountsSnoc(es: seq<EnrollmentRow>, i: int, id: string, n: int)
    requires 0 <= i < |es|
    ensures Reached(es[..i + 1], id, n) == Reached(es[..i], id, n) + (if ReachesStep(es[i], id, n) then 1 else 0)
    ensures Errors(es[..i + 1], id, n) == Errors(es[..i], id, n) + (if ErrorAt(es[i], id, n) then 1 else 0)
  {
    assert es[..i + 1][..i] == es[..i];
  }

  /** The step entries of one sequence, in the order of `ns`, with the tallied counters. */
  function Tally(ns: seq<int>, id: string, reached: map<(string, int), nat>, errors: map<(string, int), nat>)
    : (out: seq<StepCount>)
    requires forall k :: 0 <= k < |ns| ==> (id, ns[k]) in reached && (id, ns[k]) in errors
    ensures |out| == |ns|
    ensures forall k :: 0 <= k < |ns| ==>
              out[k] == StepCount(ns[k], reached[(id, ns[k])], errors[(id, ns[k])])
  {
    seq(|ns|, k requires 0 <= k < |ns| => StepCount(ns[k], reached[(id, ns[k])], errors[(id, ns[k])]))
  }

  /** One more sequence row: its id is appended when new, and it names its id from now on. */
  lemma IndexStep(ss: seq<Sequence>, i: int)
    requires 0 <= i < |ss|
    ensures SequenceOrder(ss[..i + 1]) == if ss[i].id in SequenceOrder(ss[..i]) then SequenceOrder(ss[..i])
                                          else SequenceOrder(ss[..i]) + [ss[i].id]
    ensures forall id :: NameOf(ss[..i + 1], id) == if ss[i].id == id then ss[i].name else NameOf(ss[..i], id)
  {
    var t := ss[..i + 1];
    assert t[..|t| - 1] == ss[..i] && t[|t| - 1] == ss[i];
    forall id ensures NameOf(t, id) == if ss[i].id == id then ss[i].name else NameOf(ss[..i], id) {
    }
  }

  /** The record after the sequence rows `done`: one entry per id in first-insertion order, with
      the last name and no steps. */
  ghost predicate Indexed(order: seq<string>, names: map<string, string>, nums: map<string, seq<int>>,
                          done: seq<Sequence>)
  {
    && order == SequenceOrder(done)
    && (forall id :: id in names <==> id in order)
    && (forall id :: id in names ==> names[id] == NameOf(done, id))
    && (forall id :: id in nums <==> id in order)
    && (forall id :: id in nums ==> nums[id] == [])
  }

  /** The first pass: one entry per sequence id, in first-insertion order, with the last name
      and no steps yet. */
  method IndexSequences(sequences: seq<Sequence>)
    returns (order: seq<string>, names: map<string, string>, nums: map<string, seq<int>>)
    ensures order == SequenceOrder(sequences)
    ensures forall id :: id in names <==> id in order
    ensures forall id :: id in names ==> names[id] == NameOf(sequences, id)
    ensures forall id :: id in nums <==> id in order
    ensures forall id :: id in nums ==> nums[id] == []
  {
    order, names, nums := [], map[], map[];
    assert sequences[..0] == [];
    var i := 0;
    while i < |sequences|
      invariant 0 <= i <= |sequences|
      invariant Indexed(order, names, nums, sequences[..i])
    {
      order, names, nums := IndexOne(order, names, nums, sequences, i);
      i := i + 1;
    }
    assert sequences[..|sequences|] == sequences;
  }

  /** One sequence row: `stepAgg[seq.id] = { ... }`. */
  method IndexOne(order0: seq<string>, names0: map<string, string>, nums0: map<string, seq<int>>,
                  sequences: seq<Sequence>, i: int)
    returns (order: seq<string>, names: map<string, string>, nums: map<string, seq<int>>)
    requires 0 <= i < |sequences| && Indexed(order0, names0, nums0, sequences[..i])
    ensures Indexed(order, names, nums, sequences[..i + 1])
  {
    var s := sequences[i];
    if s.id in names0 {
      order := order0;
    } else {
      order := order0 + [s.id];
    }
    names := names0[s.id := s.name];
    nums := nums0[s.id := []];
    IndexedOrder(order0, names0, sequences, i, order);
    IndexedNames(names0, names, sequences, i);
    IndexedIntro(order, names, nums, sequences[..i + 1]);
  }

  lemma IndexedOrder(order0: seq<string>, names0: map<string, string>, sequences: seq<Sequence>, i: int,
                     order: seq<string>)
    requires 0 <= i < |sequences| && order0 == SequenceOrder(sequences[..i])
    requires forall id :: id in names0 <==> id in order0
    requires order == if sequences[i].id in names0 then order0 else order0 + [sequences[i].id]
    ensures order == SequenceOrder(sequences[..i + 1])
    ensures forall id :: id in order <==> id in order0 || id == sequences[i].id
  {
    IndexStep(sequences, i);
  }

  lemma IndexedIntro(order: seq<string>, names: map<string, string>, nums: map<string, seq<int>>,
                     done: seq<Sequence>)
    requires order == SequenceOrder(done)
    requires forall id :: id in names <==> id in order
    requires forall id :: id in names ==> names[id] == NameOf(done, id)
    requires forall id :: id in nums <==> id in order
    requires forall id :: id in nums ==> nums[id] == []
    ensures Indexed(order, names, nums, done)
  {
  }

  lemma IndexedNames(names0: map<string, string>, names: map<string, string>, sequences: seq<Sequence>, i: int)
    requires 0 <= i < |sequences|
    requires forall id :: id in names0 ==> names0[id] == NameOf(sequences[..i], id)
    requires names == names0[sequences[i].id := sequences[i].name]
    ensures forall id :: id in names ==> names[id] == NameOf(sequences[..i + 1], id)
  {
    IndexStep(sequences, i);
  }

  /** The counters of every listed step of every known sequence. */
  ghost predicate Counters(nums: map<string, seq<int>>, reached: map<(string, int), nat>,
                           errors: map<(string, int), nat>, es: seq<EnrollmentRow>)
  {
    forall id, n :: id in nums && n in nums[id] ==>
      && (id, n) in reached && (id, n) in errors
      && reached[(id, n)] == Reached(es, id, n) && errors[(id, n)] == Errors(es, id, n)
  }

  /** The second pass: each step row of a known sequence adds its number once, with counters
      at 0; rows of unknown sequences are skipped. */
  method AddSteps(steps: seq<SequenceStep>, nums0: map<string, seq<int>>)
    returns (nums: map<string, seq<int>>, reached: map<(string, int), nat>, errors: map<(string, int), nat>)
    requires forall id :: id in nums0 ==> nums0[id] == []
    ensures nums.Keys == nums0.Keys
    ensures forall id :: id in nums ==> DistinctInts(nums[id])
    ensures forall id, n :: id in nums ==> (n in nums[id] <==> HasStep(steps, id, n))
    ensures Counters(nums, reached, errors, [])
  {
    nums, reached, errors := nums0, map[], map[];
    var j := 0;
    while j < |steps|
      invariant 0 <= j <= |steps|
      invariant nums.Keys == nums0.Keys
      invariant forall id :: id in nums ==> DistinctInts(nums[id])
      invariant forall id, n :: id in nums ==> (n in nums[id] <==> HasStep(steps[..j], id, n))
      invariant Counters(nums, reached, errors, [])
    {
      var st := steps[j];
      forall id, n | id in nums
        ensures HasStep(steps[..j + 1], id, n) <==>
                  HasStep(steps[..j], id, n) || (st.sequenceId == id && st.stepNumber == n)
      {
        HasStepSnoc(steps, j, id, n);
      }
      if st.sequenceId in nums && st.stepNumber !in nums[st.sequenceId] {
        nums := nums[st.sequenceId := nums[st.sequenceId] + [st.stepNumber]];
        reached := reached[(st.sequenceId, st.stepNumber) := 0];
        errors := errors[(st.sequenceId, st.stepNumber) := 0];
      }
      j := j + 1;
    }
    assert steps[..|steps|] == steps;
  }

  /** The inner `forEach` for one enrollment of a known sequence: every listed step it has
      reached gains one `reached`, and its own step one `errors` when it is paused. */
  method CountOne(nums: map<string, seq<int>>, reached0: map<(string, int), nat>, errors0: map<(string, int), nat>,
                  es: seq<EnrollmentRow>, i: int)
    returns (reached: map<(string, int), nat>, errors: map<(string, int), nat>)
    requires 0 <= i < |es|
    requires forall id :: id in nums ==> DistinctInts(nums[id])
    requires Counters(nums, reached0, errors0, es[..i])
    ensures Counters(nums, reached, errors, es[..i + 1])
  {
    reached, errors := reached0, errors0;
    var enr := es[i];
    forall id, n
      ensures Reached(es[..i + 1], id, n) == Reached(es[..i], id, n) + (if ReachesStep(enr, id, n) then 1 else 0)
      ensures Errors(es[..i + 1], id, n) == Errors(es[..i], id, n) + (if ErrorAt(enr, id, n) then 1 else 0)
    {
      CountsSnoc(es, i, id, n);
    }
    if enr.sequenceId !in nums {
      return;
    }
    var sid := enr.sequenceId;
    var ns := nums[sid];
    var currentStep := enr.currentStep.GetOr(0);
    var k := 0;
    while k < |ns|
      invariant 0 <= k <= |ns|
      invariant forall id, n :: id in nums && n in nums[id] ==>
                  && (id, n) in reached && (id, n) in errors
                  && reached[(id, n)] == Reached(es[..i], id, n)
                                         + (if id == sid && n in ns[..k] && ReachesStep(enr, id, n) then 1 else 0)
                  && errors[(id, n)] == Errors(es[..i], id, n)
                                        + (if id == sid && n in ns[..k] && ErrorAt(enr, id, n) then 1 else 0)
    {
      var n := ns[k];
      assert ns[..k + 1] == ns[..k] + [n];
      assert n !in ns[..k];
      if currentStep >= n {
        reached := reached[(sid, n) := reached[(sid, n)] + 1];
        if enr.isPaused && currentStep == n {
          errors := errors[(sid, n) := errors[(sid, n)] + 1];
        }
      }
      k := k + 1;
    }
    assert ns[..|ns|] == ns;
  }

  /** The third pass: the counters end at the counts over all enrollments. */
  method CountEnrollments(nums: map<string, seq<int>>, reached0: map<(string, int), nat>,
                          errors0: map<(string, int), nat>, es: seq<EnrollmentRow>)
    returns (reached: map<(string, int), nat>, errors: map<(string, int), nat>)
    requires forall id :: id in nums ==> DistinctInts(nums[id])
    requires Counters(nums, reached0, errors0, [])
    ensures Counters(nums, reached, errors, es)
  {
    reached, errors := reached0, errors0;
    var i := 0;
    assert es[..0] == [];
    while i < |es|
      invariant 0 <= i <= |es|
      invariant Counters(nums, reached, errors, es[..i])
    {
      reached, errors := CountOne(nums, reached, errors, es, i);
      i := i + 1;
    }
    assert es[..|es|] == es;
  }

  /** The listing of one sequence's entries, sorted, is its report. */
  lemma ListedSteps(ns: seq<int>, sorted: seq<int>, id: string, reached: map<(string, int), nat>,
                    errors: map<(string, int), nat>, steps: seq<SequenceStep>, es: seq<EnrollmentRow>)
    requires StrictlySorted(sorted) && forall n :: n in sorted <==> n in ns
    requires forall n :: n in ns <==> HasStep(steps, id, n)
    requires forall n :: n in ns ==>
               && (id, n) in reached && (id, n) in errors
               && reached[(id, n)] == Reached(es, id, n) && errors[(id, n)] == Errors(es, id, n)
    ensures forall k :: 0 <= k < |sorted| ==> (id, sorted[k]) in reached && (id, sorted[k]) in errors
    ensures StepsReport(Tally(sorted, id, reached, errors), steps, es, id)
  {
    assert forall k :: 0 <= k < |sorted| ==> sorted[k] in sorted;
    var out := Tally(sorted, id, reached, errors);
    assert Numbers(out) == sorted;
  }

  /** The final listing: one report per sequence, in order, with its steps sorted by number. */
  method ListReports(order: seq<string>, names: map<string, string>, nums: map<string, seq<int>>,
                     reached: map<(string, int), nat>, errors: map<(string, int), nat>,
                     sequences: seq<Sequence>, steps: seq<SequenceStep>, enrollments: seq<EnrollmentRow>)
    returns (result: seq<SequenceReport>)
    requires forall id :: id in order ==> id in names && id in nums
    requires forall id :: id in names ==> names[id] == NameOf(sequences, id)
    requires forall id :: id in nums ==> DistinctInts(nums[id])
    requires forall id, n :: id in nums ==> (n in nums[id] <==> HasStep(steps, id, n))
    requires Counters(nums, reached, errors, enrollments)
    ensures |result| == |order|
    ensures forall q :: 0 <= q < |result| ==>
              && result[q].sequenceId == order[q]
              && result[q].sequenceName == NameOf(sequences, result[q].sequenceId)
              && StepsReport(result[q].steps, steps, enrollments, result[q].sequenceId)
  {
    result := [];
    var m := 0;
    while m < |order|
      invariant 0 <= m <= |order|
      invariant |result| == m
      invariant forall q :: 0 <= q < m ==>
                  && result[q].sequenceId == order[q]
                  && result[q].sequenceName == NameOf(sequences, result[q].sequenceId)
                  && StepsReport(result[q].steps, steps, enrollments, result[q].sequenceId)
    {
      var id := order[m];
      assert id in names && id in nums;
      var sorted := SortAscending(nums[id]);
      ListedSteps(nums[id], sorted, id, reached, errors, steps, enrollments);
      var out := Tally(sorted, id, reached, errors);
      result := result + [SequenceReport(id, names[id], out)];
      m := m + 1;
    }
  }

  /** The three `forEach` passes and the final listing. */
  method StepAggregation(sequences: seq<Sequence>, steps: seq<SequenceStep>, enrollments: seq<EnrollmentRow>)
    returns (result: seq<SequenceReport>)
    ensures |result| == |SequenceOrder(sequences)|
    ensures forall q :: 0 <= q < |result| ==>
              && result[q].sequenceId == SequenceOrder(sequences)[q]
              && result[q].sequenceName == NameOf(sequences, result[q].sequenceId)
              && StepsReport(result[q].steps, steps, enrollments, result[q].sequenceId)
  {
    var order, names, nums0 := IndexSequences(sequences);
    var nums, reached0, errors0 := AddSteps(steps, nums0);
    var reached, errors := CountEnrollments(nums, reached0, errors0, enrollments);
    result := ListReports(order, names, nums, reached, errors, sequences, steps, enrollments);
  }

  /** The route: a failing read of any of the three tables answers 500 with its message. */
  method GetStepAnalytics(sequences: seq<Sequence>, steps: seq<SequenceStep>, enrollments: seq<EnrollmentRow>,
                          sequencesFail: bool, stepsFail: bool, enrollmentsFail: bool)
    returns (r: StepsResponse)
    ensures sequencesFail ==> r == Failed(500, "Failed to load sequences")
    ensures !sequencesFail && stepsFail ==> r == Failed(500, "Failed to load steps")
    ensures !sequencesFail && !stepsFail && enrollmentsFail ==> r == Failed(500, "Failed to load enrollments")
    ensures r.Report? <==> !sequencesFail && !stepsFail && !enrollmentsFail
    ensures r.Report? ==>
              && |r.sequences| == |SequenceOrder(sequences)|
              && forall q :: 0 <= q < |r.sequences| ==>
                   && r.sequences[q].sequenceId == SequenceOrder(sequences)[q]
                   && r.sequences[q].sequenceName == NameOf(sequences, r.sequences[q].sequenceId)
                   && StepsReport(r.sequences[q].steps, steps, enrollments, r.sequences[q].sequenceId)
  {
    if sequencesFail {
      return Failed(500, "Failed to load sequences");
    }
    if stepsFail {
      return Failed(500, "Failed to load steps");
    }
    if enrollmentsFail {
      return Failed(500, "Failed to load enrollments");
    }
    var result := StepAggregation(sequences, steps, enrollments);
    r := Report(result);
  }
}
