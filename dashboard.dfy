/** The dashboard page's pure rules: the property filter and its sort by motivation, the
    lead-stage counters of the KPI strip, and the numeric filter inputs. Prices, scores and
    days on market are integers here. */
module Dashboard {
  import opened Base

  /** A property as the page holds it (`Property` of the shared types). */
  datatype Property = Property(
    id: string,
    mlsId: Option<string>,
    address: string,
    city: string,
    state: string,
    zip: string,
    listPrice: int,
    arv: Option<int>,
    beds: Option<int>,
    baths: Option<int>,
    sqft: Option<int>,
    dom: Option<int>,
    status: string,
    motivationScore: int,
    sellerPhone: Option<string>,
    leadStage: Option<string>,
    createdAt: string)

  /** The filter controls; a numeric control left blank is `None`. */
  datatype Filters = Filters(
    search: string,
    minPrice: Option<int>,
    maxPrice: Option<int>,
    maxDom: Option<int>,
    minMotivation: Option<int>,
    status: string,
    leadStage: string)

  const MaxSafeInteger: int := 9007199254740991

  /** Days on market, with an unknown value treated as the largest safe integer. */
  function DomValue(p: Property): int {
    if p.dom.Some? then p.dom.value else MaxSafeInteger
  }

  /** A property without a stage counts as "new". */
  function StageOf(p: Property): string {
    p.leadStage.GetOr("new")
  }

  function SearchBlob(p: Property): string {
    Lower(p.address + " " + p.city + " " + p.state + " " + p.zip)
  }

  /** The filter callback of `filteredProperties`. */
  predicate Keep(p: Property, f: Filters) {
    var term := Trim(Lower(f.search));
    && (term != "" ==> Includes(SearchBlob(p), term))
    && (f.minPrice.Some? ==> p.listPrice >= f.minPrice.value)
    && (f.maxPrice.Some? ==> p.listPrice <= f.maxPrice.value)
    && (f.maxDom.Some? ==> DomValue(p) <= f.maxDom.value)
    && (f.minMotivation.Some? ==> p.motivationScore >= f.minMotivation.value)
    && (f.status == "All" || p.status == f.status)
    && (f.leadStage == "All" || StageOf(p) == f.leadStage)
  }

  /** With every control at its default, nothing is filtered out. */
  lemma DefaultFiltersKeepAll(p: Property, search: string)
    requires Trim(Lower(search)) == ""
    ensures Keep(p, Filters(search, None, None, None, None, "All", "All"))
  {
  }

  /** A property with no days on market is dropped by any day limit below the largest safe integer. */
  lemma UnknownDomExcluded(p: Property, f: Filters)
    requires p.dom.None? && f.maxDom.Some? && f.maxDom.value < MaxSafeInteger
    ensures !Keep(p, f)
  {
  }

  /** A property without a stage passes the "new" stage filter exactly when it passes with no stage
      filter at all. */
  lemma MissingStageIsNew(p: Property, f: Filters)
    requires p.leadStage.None?
    ensures Keep(p, f.(leadStage := "new")) <==> Keep(p, f.(leadStage := "All"))
  {
  }

  /** The price bounds are inclusive. */
  lemma PriceBoundsInclusive(p: Property, f: Filters)
    requires f.minPrice == Some(p.listPrice) && f.maxPrice == Some(p.listPrice)
    ensures Keep(p, f) <==> Keep(p, f.(minPrice := None, maxPrice := None))
  {
  }

  /** `properties.filter(...)`: the kept properties, in their order. */
  function FilterKept(ps: seq<Property>, f: Filters): (r: seq<Property>)
    ensures forall p :: multiset(r)[p] == if Keep(p, f) then multiset(ps)[p] else 0
    ensures forall i :: 0 <= i < |r| ==> Keep(r[i], f)
  {
    if ps == [] then []
    else
      var init := ps[..|ps| - 1];
      var last := ps[|ps| - 1];
      assert ps == init + [last];
      var rest := FilterKept(init, f);
      if Keep(last, f) then
        assert multiset(rest + [last]) == multiset(rest) + multiset{last};
        rest + [last]
      else rest
  }

  predicate ByScoreDescending(s: seq<Property>) {
    forall a, b :: 0 <= a < b < |s| ==> s[a].motivationScore >= s[b].motivationScore
  }

  /** Places `x` before the first property that does not score higher, so that it stays ahead of
      later properties with an equal score. */
  function InsertByScore(x: Property, s: seq<Property>): (r: seq<Property>)
    requires ByScoreDescending(s)
    ensures ByScoreDescending(r)
    ensures |r| == |s| + 1
    ensures r[0] == x || (s != [] && r[0] == s[0])
  {
    if s == [] || s[0].motivationScore <= x.motivationScore then [x] + s
    else
      var t := InsertByScore(x, s[1..]);
      ConsDescending(s[0], t);
      [s[0]] + t
  }

  /** The insertion adds `x` once and keeps everything else. */
  lemma {:induction false} InsertByScoreAdds(x: Property, s: seq<Property>)
    requires ByScoreDescending(s)
    ensures multiset(InsertByScore(x, s)) == multiset(s) + multiset{x}
  {
    if s != [] && s[0].motivationScore > x.motivationScore {
      InsertByScoreAdds(x, s[1..]);
      assert s == [s[0]] + s[1..];
    }
  }

  /** A head that scores at least as high as the first of a descending list keeps it descending. */
  lemma ConsDescending(h: Property, t: seq<Property>)
    requires ByScoreDescending(t) && (t != [] ==> t[0].motivationScore <= h.motivationScore)
    ensures ByScoreDescending([h] + t)
  {
    var r := [h] + t;
    forall a, b | 0 <= a < b < |r| ensures r[a].motivationScore >= r[b].motivationScore {
      assert r[b] == t[b - 1];
      if a > 0 {
        assert r[a] == t[a - 1];
      } else {
        assert t[0].motivationScore >= t[b - 1].motivationScore || b == 1;
      }
    }
  }

  /** `sort((a, b) => b.motivationScore - a.motivationScore)`, a stable sort by descending score. */
  function SortByScore(s: seq<Property>): (r: seq<Property>)
    ensures ByScoreDescending(r)
    ensures multiset(r) == multiset(s)
  {
    if s == [] then []
    else
      assert s == [s[0]] + s[1..];
      InsertByScoreAdds(s[0], SortByScore(s[1..]));
      InsertByScore(s[0], SortByScore(s[1..]))
  }

  /** `filteredProperties`. */
  function FilteredProperties(ps: seq<Property>, f: Filters): (r: seq<Property>)
    ensures ByScoreDescending(r)
    ensures forall p :: multiset(r)[p] == if Keep(p, f) then multiset(ps)[p] else 0
    ensures multiset(r) <= multiset(ps)
  {
    SortByScore(FilterKept(ps, f))
  }

  // ---------------------------------------------------------------------
  // KPI counters
  // ---------------------------------------------------------------------

  /** The counters of `kpiStats` (the two averages, which are floating point, are left out). */
  datatype Kpi = Kpi(total: int, newLeads: int, contacted: int, followUp: int, dead: int,
                     motivationCount: int, spreadCount: int)

  predicate IsLeadStage(s: string) {
    s in {"new", "contacted", "follow_up", "dead"}
  }

  function StageIs(stage: string): Property -> bool {
    (p: Property) => StageOf(p) == stage
  }

  function HasArv(): Property -> bool {
    (p: Property) => p.arv.Some?
  }

  function NotAStage(): Property -> bool {
    (p: Property) => !IsLeadStage(StageOf(p))
  }

  /** The counters of a run of properties, one more property. */
  lemma CountSnoc(ps: seq<Property>, i: int, q: Property -> bool)
    requires 0 <= i < |ps|
    ensures CountIf(ps[..i + 1], q) == CountIf(ps[..i], q) + (if q(ps[i]) then 1 else 0)
  {
    assert ps[..i + 1][..i] == ps[..i];
  }

  ghost predicate Counters(k: Kpi, ps: seq<Property>, done: seq<Property>) {
    && k.total == |ps|
    && k.newLeads == CountIf(done, StageIs("new"))
    && k.contacted == CountIf(done, StageIs("contacted"))
    && k.followUp == CountIf(done, StageIs("follow_up"))
    && k.dead == CountIf(done, StageIs("dead"))
    && k.motivationCount == |done|
    && k.spreadCount == CountIf(done, HasArv())
    && k.newLeads + k.contacted + k.followUp + k.dead + CountIf(done, NotAStage()) == |done|
  }

  /** `kpiStats` as intended: each property is counted under its own stage when that is one of the
      four stages. */
  method KpiStats(ps: seq<Property>) returns (k: Kpi)
    ensures k.total == |ps|
    ensures k.newLeads == CountIf(ps, StageIs("new"))
    ensures k.contacted == CountIf(ps, StageIs("contacted"))
    ensures k.followUp == CountIf(ps, StageIs("follow_up"))
    ensures k.dead == CountIf(ps, StageIs("dead"))
    ensures k.motivationCount == |ps|
    ensures k.spreadCount == CountIf(ps, HasArv())
    ensures k.newLeads + k.contacted + k.followUp + k.dead + CountIf(ps, NotAStage()) == k.total
  {
    k := Kpi(|ps|, 0, 0, 0, 0, 0, 0);
    var i := 0;
    while i < |ps|
      invariant 0 <= i <= |ps|
      invariant Counters(k, ps, ps[..i])
    {
      k := CountProperty(k, ps, i);
      i := i + 1;
    }
    assert ps[..|ps|] == ps;
  }

  /** The body of the `forEach`: one more property counted. */
  method CountProperty(k0: Kpi, ps: seq<Property>, i: int) returns (k: Kpi)
    requires 0 <= i < |ps| && Counters(k0, ps, ps[..i])
    ensures Counters(k, ps, ps[..i + 1])
  {
    k := k0;
    var p := ps[i];
    var stage := StageOf(p);
    CountSnoc(ps, i, StageIs("new"));
    CountSnoc(ps, i, StageIs("contacted"));
    CountSnoc(ps, i, StageIs("follow_up"));
    CountSnoc(ps, i, StageIs("dead"));
    CountSnoc(ps, i, HasArv());
    CountSnoc(ps, i, NotAStage());
    if stage == "new" {
      k := k.(newLeads := k.newLeads + 1);
    } else if stage == "contacted" {
      k := k.(contacted := k.contacted + 1);
    } else if stage == "follow_up" {
      k := k.(followUp := k.followUp + 1);
    } else if stage == "dead" {
      k := k.(dead := k.dead + 1);
    }
    k := k.(motivationCount := k.motivationCount + 1);
    if p.arv.Some? {
      k := k.(spreadCount := k.spreadCount + 1);
    }
  }

  /** When every stage is one of the four, the stage counters add up to the total. */
  lemma StagesAddUp(ps: seq<Property>, k: Kpi)
    requires forall i :: 0 <= i < |ps| ==> IsLeadStage(StageOf(ps[i]))
    requires k.total == |ps|
    requires k.newLeads + k.contacted + k.followUp + k.dead + CountIf(ps, NotAStage()) == k.total
    ensures k.newLeads + k.contacted + k.followUp + k.dead == k.total
  {
    CountIfExtremes(ps, NotAStage());
  }

  /** The reading of `counts[stage] += 1` as written: `stage in counts` holds for every key of the
      counters object, so a stage spelled like another counter bumps that counter. */
  function BumpAsWritten(k: Kpi, stage: string): Kpi {
    if stage == "total" then k.(total := k.total + 1)
    else if stage == "new" then k.(newLeads := k.newLeads + 1)
    else if stage == "contacted" then k.(contacted := k.contacted + 1)
    else if stage == "follow_up" then k.(followUp := k.followUp + 1)
    else if stage == "dead" then k.(dead := k.dead + 1)
    else if stage == "motivationCount" then k.(motivationCount := k.motivationCount + 1)
    else if stage == "spreadCount" then k.(spreadCount := k.spreadCount + 1)
    else k
  }

  function StepAsWritten(k: Kpi, p: Property): Kpi {
    var k1 := BumpAsWritten(k, StageOf(p));
    var k2 := k1.(motivationCount := k1.motivationCount + 1);
    if p.arv.Some? then k2.(spreadCount := k2.spreadCount + 1) else k2
  }

  function FoldAsWritten(k: Kpi, ps: seq<Property>): Kpi {
    if ps == [] then k else StepAsWritten(FoldAsWritten(k, ps[..|ps| - 1]), ps[|ps| - 1])
  }

  function KpiAsWritten(ps: seq<Property>): Kpi {
    FoldAsWritten(Kpi(|ps|, 0, 0, 0, 0, 0, 0), ps)
  }

  /** One property whose stage is "total" makes the written counters report two properties. */
  lemma KpiAsWrittenMiscounts(p: Property)
    requires p.leadStage == Some("total")
    ensures KpiAsWritten([p]).total == 2 != |[p]|
  {
    var k := Kpi(1, 0, 0, 0, 0, 0, 0);
    assert [p][..0] == [];
    assert FoldAsWritten(k, [p]) == StepAsWritten(k, p);
    assert StageOf(p) == "total";
  }

  /** As written, the fold adds one to `total` for each property whose stage is "total". */
  lemma {:induction false} FoldAsWrittenTotal(k: Kpi, ps: seq<Property>)
    ensures FoldAsWritten(k, ps).total == k.total + CountIf(ps, StageIs("total"))
  {
    if ps != [] {
      FoldAsWrittenTotal(k, ps[..|ps| - 1]);
    }
  }

  /** The written `total` is the number of properties plus those whose stage is "total"; it is
      right exactly when no stage is spelled "total". */
  lemma KpiAsWrittenTotal(ps: seq<Property>)
    ensures KpiAsWritten(ps).total == |ps| + CountIf(ps, StageIs("total"))
    ensures KpiAsWritten(ps).total == |ps| <==> forall i :: 0 <= i < |ps| ==> StageOf(ps[i]) != "total"
  {
    FoldAsWrittenTotal(Kpi(|ps|, 0, 0, 0, 0, 0, 0), ps);
    CountIfExtremes(ps, StageIs("total"));
    if CountIf(ps, StageIs("total")) == 0 {
      CountIfZero(ps, StageIs("total"));
    }
  }

  /** On the four stages the written code and the intended counters agree. */
  lemma {:induction false} AsWrittenAgreesOnStages(k: Kpi, ps: seq<Property>)
    requires forall i :: 0 <= i < |ps| ==> IsLeadStage(StageOf(ps[i]))
    ensures var r := FoldAsWritten(k, ps);
      && r.total == k.total
      && r.newLeads == k.newLeads + CountIf(ps, StageIs("new"))
      && r.contacted == k.contacted + CountIf(ps, StageIs("contacted"))
      && r.followUp == k.followUp + CountIf(ps, StageIs("follow_up"))
      && r.dead == k.dead + CountIf(ps, StageIs("dead"))
      && r.motivationCount == k.motivationCount + |ps|
      && r.spreadCount == k.spreadCount + CountIf(ps, HasArv())
  {
    if ps != [] {
      var init, p := ps[..|ps| - 1], ps[|ps| - 1];
      assert forall i :: 0 <= i < |init| ==> init[i] == ps[i];
      AsWrittenAgreesOnStages(k, init);
      StepAsWrittenOnStage(FoldAsWritten(k, init), p);
    }
  }

  /** One step of the written code on a property whose stage is one of the four. */
  lemma StepAsWrittenOnStage(k: Kpi, p: Property)
    requires IsLeadStage(StageOf(p))
    ensures var r := StepAsWritten(k, p);
      && r.total == k.total
      && r.newLeads == k.newLeads + (if StageOf(p) == "new" then 1 else 0)
      && r.contacted == k.contacted + (if StageOf(p) == "contacted" then 1 else 0)
      && r.followUp == k.followUp + (if StageOf(p) == "follow_up" then 1 else 0)
      && r.dead == k.dead + (if StageOf(p) == "dead" then 1 else 0)
      && r.motivationCount == k.motivationCount + 1
      && r.spreadCount == k.spreadCount + (if p.arv.Some? then 1 else 0)
  {
  }

  // ---------------------------------------------------------------------
  // Numeric inputs
  // ---------------------------------------------------------------------

  /** The digits of `s`, in order. */
  function DigitsOnly(s: string): (r: string)
    ensures forall i :: 0 <= i < |r| ==> IsDigit(r[i])
    ensures |r| <= |s|
    ensures r == [] <==> forall i :: 0 <= i < |s| ==> !IsDigit(s[i])
    ensures (forall i :: 0 <= i < |s| ==> IsDigit(s[i])) ==> r == s
  {
    if s == [] then []
    else
      var init := s[..|s| - 1];
      var c := s[|s| - 1];
      var r0 := DigitsOnly(init);
      assert forall i :: 0 <= i < |init| ==> init[i] == s[i];
      if IsDigit(c) then
        assert s == init + [c];
        r0 + [c]
      else r0
  }

  datatype NumberField = Blank | Number(value: nat)

  /** `handleNumberChange`: an empty input clears the control; otherwise the non-digits are dropped
      and the rest read as a number, so an input without digits gives 0. */
  function HandleNumberChange(input: string): (r: NumberField)
    ensures r.Blank? <==> input == ""
    ensures input != "" && (forall i :: 0 <= i < |input| ==> !IsDigit(input[i])) ==> r == Number(0)
    ensures input != "" ==> r == Number(DigitsValue(DigitsOnly(input)))
  {
    if input == "" then Blank else Number(DigitsValue(DigitsOnly(input)))
  }

  /** A rendered number reads back as itself. */
  lemma NumberChangeReadsRendered(n: nat)
    ensures HandleNumberChange(NatToString(n)) == Number(n)
  {
    DigitsValueOfNatToString(n);
  }

  /** A separator typed after the digits changes nothing. */
  lemma NonDigitIgnored(input: string, c: char)
    requires input != "" && !IsDigit(c)
    ensures HandleNumberChange(input + [c]) == HandleNumberChange(input)
  {
    assert (input + [c])[..|input + [c]| - 1] == input;
  }
}
