/** The contracting processes of an OC4IDS project: their setup, one per
    compiled release, and the transforms that fill in their summaries. */
module Oc4idsProcesses {
  import opened Outcomes
  import opened JsonValues
  import opened Oc4idsState
  import opened Oc4idsCopy
  import opened Oc4idsSummaryRules
  import opened Oc4idsStatus

  /** The contracting process `contracting_process_setup` makes for a
      compiled release. */
  function NewProcess(compiledRelease: map<string, Json>): (process: Json)
    ensures ProcessOk(process)
  {
    var ocid := Get(compiledRelease, "ocid");
    var releases := Get(compiledRelease, "releases");
    var embedded := Get(compiledRelease, "embeddedReleases");
    var process := map["id" := ocid, "summary" := Obj(map["ocid" := ocid])];
    var withReleases := if Truthy(releases) then process["releases" := releases] else process;
    Obj(if Truthy(embedded) then withReleases["embeddedReleases" := embedded] else withReleases)
  }

  /** A new process and its summary carry the compiled release's ocid; it
      lists the linked and the embedded releases only when there are any,
      and has no other member. */
  lemma NewProcessShape(compiledRelease: map<string, Json>)
    ensures var process := NewProcess(compiledRelease);
            var ocid := Get(compiledRelease, "ocid");
            process.fields["id"] == ocid && SummaryOf(process) == map["ocid" := ocid] &&
            ("releases" in process.fields <==> Truthy(Get(compiledRelease, "releases"))) &&
            ("releases" in process.fields ==> process.fields["releases"] == Get(compiledRelease, "releases")) &&
            ("embeddedReleases" in process.fields <==> Truthy(Get(compiledRelease, "embeddedReleases"))) &&
            ("embeddedReleases" in process.fields ==>
               process.fields["embeddedReleases"] == Get(compiledRelease, "embeddedReleases")) &&
            process.fields.Keys <= {"id", "summary", "releases", "embeddedReleases"}
  {
  }

  /** `contracting_process_setup`: the project's contracting processes are
      replaced by one new process per compiled release, in order. */
  method ContractingProcessSetup(state: TransformState) returns (success: bool)
    modifies state
    ensures state.compiledReleases == old(state.compiledReleases)
    ensures success
    ensures "contractingProcesses" in state.output
    ensures var processes := state.output["contractingProcesses"];
            processes.Arr? && |processes.items| == |state.compiledReleases| &&
            forall k :: 0 <= k < |state.compiledReleases| ==> processes.items[k] == NewProcess(state.compiledReleases[k])
    ensures forall key :: key != "contractingProcesses" ==>
              (key in state.output <==> key in old(state.output)) &&
              (key in state.output ==> state.output[key] == old(state.output)[key])
    ensures ProcessesReady(state.output, |state.compiledReleases|)
  {
    var compiledReleases := state.compiledReleases;
    var processes: seq<Json> := [];
    for i := 0 to |compiledReleases|
      invariant |processes| == i
      invariant forall k :: 0 <= k < i ==> processes[k] == NewProcess(compiledReleases[k])
    {
      var compiledRelease := compiledReleases[i];
      var ocid := Get(compiledRelease, "ocid");
      var process := map["id" := ocid, "summary" := Obj(map["ocid" := ocid])];
      var releases := Get(compiledRelease, "releases");
      if Truthy(releases) {
        process := process["releases" := releases];
      }
      var embedded := Get(compiledRelease, "embeddedReleases");
      if Truthy(embedded) {
        process := process["embeddedReleases" := embedded];
      }
      processes := processes + [Obj(process)];
    }
    state.output := state.output["contractingProcesses" := Arr(processes)];
    success := true;
  }

  /** The summary rules of the transforms that go through the processes
      alongside the compiled releases. */
  datatype SummaryRule =
    | ProcuringEntityRule
    | AdministrativeEntityRule
    | StatusRule(now: string)
    | ProcurementProcessRule
    | NumberOfTenderersRule
    | ContractTitleRule
    | SuppliersRule
    | DescriptionRule
    | ContractPeriodRule

  function ApplyRule(rule: SummaryRule, compiledRelease: map<string, Json>, summary: map<string, Json>)
    : map<string, Json>
  {
    match rule
    case ProcuringEntityRule => ProcuringEntityStep(compiledRelease, summary)
    case AdministrativeEntityRule => AdministrativeEntityStep(compiledRelease, summary)
    case StatusRule(now) => StatusStep(compiledRelease, summary, now)
    case ProcurementProcessRule => ProcurementProcessStep(compiledRelease, summary)
    case NumberOfTenderersRule => NumberOfTenderersStep(compiledRelease, summary)
    case ContractTitleRule => ContractTitleStep(compiledRelease, summary)
    case SuppliersRule => SuppliersStep(compiledRelease, summary)
    case DescriptionRule => DescriptionStep(compiledRelease, summary)
    case ContractPeriodRule => ContractPeriodStep(compiledRelease, summary)
  }

  /** No rule turns the summary's tender into anything but a dict. */
  lemma ApplyRuleKeepsSummaryOk(rule: SummaryRule, compiledRelease: map<string, Json>, summary: map<string, Json>)
    requires SummaryOk(summary)
    ensures SummaryOk(ApplyRule(rule, compiledRelease, summary))
  {
    match rule
    case ProcurementProcessRule =>
    case ContractTitleRule =>
    case ContractPeriodRule =>
    case _ =>
  }

  /** The process with its summary replaced. */
  function WithSummary(process: Json, summary: map<string, Json>): Json
    requires process.Obj?
  {
    Obj(process.fields["summary" := Obj(summary)])
  }

  /** Each process with its summary rewritten by the rule from the compiled
      release at the same position (`zip`). */
  function UpdatedProcesses(compiledReleases: seq<map<string, Json>>, processes: seq<Json>, rule: SummaryRule)
    : (updated: seq<Json>)
    requires |processes| == |compiledReleases|
    requires forall k :: 0 <= k < |processes| ==> ProcessOk(processes[k])
    ensures |updated| == |processes|
  {
    seq(|processes|, k requires 0 <= k < |processes| && ProcessOk(processes[k]) =>
      WithSummary(processes[k], ApplyRule(rule, compiledReleases[k], SummaryOf(processes[k]))))
  }

  /** The project after a rule has rewritten every summary. */
  function Summarized(output: map<string, Json>, compiledReleases: seq<map<string, Json>>, rule: SummaryRule)
    : map<string, Json>
    requires ProcessesReady(output, |compiledReleases|)
  {
    output["contractingProcesses" := Arr(UpdatedProcesses(compiledReleases, output["contractingProcesses"].items, rule))]
  }

  /** After a rule, each process differs from the old one in its summary
      only, the summary is the rule's result, the processes are still ready,
      and nothing else in the project changed. */
  lemma SummarizedShape(output: map<string, Json>, compiledReleases: seq<map<string, Json>>, rule: SummaryRule)
    requires ProcessesReady(output, |compiledReleases|)
    ensures var after := Summarized(output, compiledReleases, rule);
            ProcessesReady(after, |compiledReleases|) &&
            forall k :: 0 <= k < |compiledReleases| ==>
              var before := output["contractingProcesses"].items[k];
              var process := after["contractingProcesses"].items[k];
              Updates(before.fields, process.fields, "summary", Obj(ApplyRule(rule, compiledReleases[k], SummaryOf(before))))
    ensures var after := Summarized(output, compiledReleases, rule);
            forall key :: key != "contractingProcesses" ==>
              (key in after <==> key in output) && (key in after ==> after[key] == output[key])
  {
    var processes := output["contractingProcesses"].items;
    var updated := UpdatedProcesses(compiledReleases, processes, rule);
    var after := Summarized(output, compiledReleases, rule);
    assert after["contractingProcesses"].items == updated;
    forall k | 0 <= k < |compiledReleases|
      ensures ProcessOk(updated[k])
      ensures Updates(processes[k].fields, updated[k].fields, "summary",
                      Obj(ApplyRule(rule, compiledReleases[k], SummaryOf(processes[k]))))
    {
      ApplyRuleKeepsSummaryOk(rule, compiledReleases[k], SummaryOf(processes[k]));
    }
  }

  /** The loop over `zip(state.compiled_releases, contractingProcesses)`
      that each per-process transform runs. */
  method UpdateSummaries(state: TransformState, rule: SummaryRule)
    modifies state
    requires ProcessesReady(state.output, |state.compiledReleases|)
    ensures state.compiledReleases == old(state.compiledReleases)
    ensures state.output == Summarized(old(state.output), state.compiledReleases, rule)
    ensures ProcessesReady(state.output, |state.compiledReleases|)
  {
    var compiledReleases := state.compiledReleases;
    var processes := state.output["contractingProcesses"].items;
    var updated: seq<Json> := [];
    for i := 0 to |compiledReleases|
      invariant |updated| == i
      invariant forall k :: 0 <= k < i ==>
                  updated[k] == WithSummary(processes[k], ApplyRule(rule, compiledReleases[k], SummaryOf(processes[k])))
    {
      var summary := SummaryOf(processes[i]);
      updated := updated + [WithSummary(processes[i], ApplyRule(rule, compiledReleases[i], summary))];
    }
    assert updated == UpdatedProcesses(compiledReleases, processes, rule);
    state.output := state.output["contractingProcesses" := Arr(updated)];
    SummarizedShape(old(state.output), compiledReleases, rule);
  }

  /** Copying parties leaves the contracting processes alone. */
  lemma AppendPartiesKeepsProcesses(output: map<string, Json>, copies: seq<Json>, count: nat)
    requires ProcessesReady(output, count)
    ensures ProcessesReady(AppendParties(output, copies), count)
    ensures AppendParties(output, copies)["contractingProcesses"] == output["contractingProcesses"]
  {
  }

  /** `procuring_entity`: parties with the `procuringEntity` role are
      copied, then each summary's tender gets a truthy procuring entity. */
  method ProcuringEntity(state: TransformState) returns (success: bool)
    modifies state
    requires ProcessesReady(state.output, |state.compiledReleases|)
    requires PartiesAreObjects(state.compiledReleases)
    requires ListOrAbsent(state.output, "parties") || RoleCopies(state.compiledReleases, "procuringEntity", []) == []
    ensures state.compiledReleases == old(state.compiledReleases)
    ensures var copied := AppendParties(old(state.output), RoleCopies(state.compiledReleases, "procuringEntity", []));
            ProcessesReady(copied, |state.compiledReleases|) &&
            state.output == Summarized(copied, state.compiledReleases, ProcuringEntityRule)
    ensures success <==> RoleCopies(state.compiledReleases, "procuringEntity", []) != []
  {
    success := CopyPartyByRole(state, "procuringEntity", []);
    AppendPartiesKeepsProcesses(old(state.output), RoleCopies(state.compiledReleases, "procuringEntity", []),
                                |state.compiledReleases|);
    UpdateSummaries(state, ProcuringEntityRule);
  }

  /** `administrative_entity`: parties with the `administrativeEntity` role
      are copied, then each summary's tender refers to the sole such party
      of its compiled release. */
  method AdministrativeEntity(state: TransformState) returns (success: bool)
    modifies state
    requires ProcessesReady(state.output, |state.compiledReleases|)
    requires PartiesAreObjects(state.compiledReleases)
    requires ListOrAbsent(state.output, "parties") || RoleCopies(state.compiledReleases, "administrativeEntity", []) == []
    ensures state.compiledReleases == old(state.compiledReleases)
    ensures var copied := AppendParties(old(state.output), RoleCopies(state.compiledReleases, "administrativeEntity", []));
            ProcessesReady(copied, |state.compiledReleases|) &&
            state.output == Summarized(copied, state.compiledReleases, AdministrativeEntityRule)
    ensures success <==> RoleCopies(state.compiledReleases, "administrativeEntity", []) != []
  {
    success := CopyPartyByRole(state, "administrativeEntity", []);
    AppendPartiesKeepsProcesses(old(state.output), RoleCopies(state.compiledReleases, "administrativeEntity", []),
                                |state.compiledReleases|);
    UpdateSummaries(state, AdministrativeEntityRule);
  }

  /** `contract_status`, at the time `now`. */
  method ContractStatusTransform(state: TransformState, now: string)
    modifies state
    requires ProcessesReady(state.output, |state.compiledReleases|)
    requires forall k :: 0 <= k < |state.compiledReleases| ==> ContractsAndAwardsAreObjects(state.compiledReleases[k])
    ensures state.compiledReleases == old(state.compiledReleases)
    ensures state.output == Summarized(old(state.output), state.compiledReleases, StatusRule(now))
  {
    UpdateSummaries(state, StatusRule(now));
  }

  /** `procurement_process`. */
  method ProcurementProcess(state: TransformState)
    modifies state
    requires ProcessesReady(state.output, |state.compiledReleases|)
    ensures state.compiledReleases == old(state.compiledReleases)
    ensures state.output == Summarized(old(state.output), state.compiledReleases, ProcurementProcessRule)
  {
    UpdateSummaries(state, ProcurementProcessRule);
  }

  /** `number_of_tenderers`. */
  method NumberOfTenderers(state: TransformState)
    modifies state
    requires ProcessesReady(state.output, |state.compiledReleases|)
    ensures state.compiledReleases == old(state.compiledReleases)
    ensures state.output == Summarized(old(state.output), state.compiledReleases, NumberOfTenderersRule)
  {
    UpdateSummaries(state, NumberOfTenderersRule);
  }

  /** `contract_title`. */
  method ContractTitle(state: TransformState)
    modifies state
    requires ProcessesReady(state.output, |state.compiledReleases|)
    ensures state.compiledReleases == old(state.compiledReleases)
    ensures state.output == Summarized(old(state.output), state.compiledReleases, ContractTitleRule)
  {
    UpdateSummaries(state, ContractTitleRule);
  }

  /** `suppliers`: parties with the `supplier` role are copied, then each
      summary lists its compiled release's suppliers. */
  method Suppliers(state: TransformState)
    modifies state
    requires ProcessesReady(state.output, |state.compiledReleases|)
    requires PartiesAreObjects(state.compiledReleases)
    requires ListOrAbsent(state.output, "parties") || RoleCopies(state.compiledReleases, "supplier", []) == []
    ensures state.compiledReleases == old(state.compiledReleases)
    ensures var copied := AppendParties(old(state.output), RoleCopies(state.compiledReleases, "supplier", []));
            ProcessesReady(copied, |state.compiledReleases|) &&
            state.output == Summarized(copied, state.compiledReleases, SuppliersRule)
  {
    var _ := CopyPartyByRole(state, "supplier", []);
    AppendPartiesKeepsProcesses(old(state.output), RoleCopies(state.compiledReleases, "supplier", []),
                                |state.compiledReleases|);
    UpdateSummaries(state, SuppliersRule);
  }

  /** `contract_process_description`. */
  method ContractProcessDescription(state: TransformState)
    modifies state
    requires ProcessesReady(state.output, |state.compiledReleases|)
    ensures state.compiledReleases == old(state.compiledReleases)
    ensures state.output == Summarized(old(state.output), state.compiledReleases, DescriptionRule)
  {
    UpdateSummaries(state, DescriptionRule);
  }

  /** `contract_period`, with the end date taken from the awards' end dates. */
  method ContractPeriod(state: TransformState)
    modifies state
    requires ProcessesReady(state.output, |state.compiledReleases|)
    requires forall k :: 0 <= k < |state.compiledReleases| ==> AwardsAreObjects(state.compiledReleases[k])
    ensures state.compiledReleases == old(state.compiledReleases)
    ensures state.output == Summarized(old(state.output), state.compiledReleases, ContractPeriodRule)
  {
    UpdateSummaries(state, ContractPeriodRule);
  }

  /** A release whose tender is in planning and has a truthy value. */
  predicate PlanningRelease(release: map<string, Json>) {
    Resolve(Obj(release), ["tender", "status"], Null) == Str("planning") &&
    Truthy(Resolve(Obj(release), ["tender", "value"], Null))
  }

  /** Release `k` is in planning with a value, and no later release is. */
  predicate LastPlanningAt(releases: seq<map<string, Json>>, k: int) {
    0 <= k < |releases| && PlanningRelease(releases[k]) &&
    forall j :: k < j < |releases| ==> !PlanningRelease(releases[j])
  }

  /** The tender value of the last planning release. */
  function LastPlanningValue(releases: seq<map<string, Json>>): Option<Json> {
    if releases == [] then None
    else
      var last := releases[|releases| - 1];
      if PlanningRelease(last) then Some(Resolve(Obj(last), ["tender", "value"], Null))
      else LastPlanningValue(releases[..|releases| - 1])
  }

  /** There is a planning value exactly when some release is in planning
      with a value, and it is the value of the last such release. */
  lemma {:induction false} LastPlanningValueIsLast(releases: seq<map<string, Json>>)
    ensures LastPlanningValue(releases).None? <==> forall k :: 0 <= k < |releases| ==> !PlanningRelease(releases[k])
    ensures LastPlanningValue(releases).Some? ==>
              Truthy(LastPlanningValue(releases).value) &&
              exists k :: LastPlanningAt(releases, k) &&
                LastPlanningValue(releases).value == Resolve(Obj(releases[k]), ["tender", "value"], Null)
  {
    if releases != [] {
      var n := |releases|;
      var init := releases[..n - 1];
      if PlanningRelease(releases[n - 1]) {
        assert LastPlanningAt(releases, n - 1);
      } else {
        LastPlanningValueIsLast(init);
        assert LastPlanningValue(releases) == LastPlanningValue(init);
        if LastPlanningValue(init).Some? {
          var k :| LastPlanningAt(init, k) &&
                   LastPlanningValue(init).value == Resolve(Obj(init[k]), ["tender", "value"], Null);
          assert init[k] == releases[k];
          forall j | k < j < n
            ensures !PlanningRelease(releases[j])
          {
            if j < n - 1 { assert init[j] == releases[j]; }
          }
          assert LastPlanningAt(releases, k);
        } else {
          forall k | 0 <= k < n
            ensures !PlanningRelease(releases[k])
          {
            if k < n - 1 { assert init[k] == releases[k]; }
          }
        }
      }
    }
  }

  /** The inner loop of `cost_estimate`: the value of the latest release in
      planning, `None` when there is none. */
  method LatestPlanningValue(releases: seq<map<string, Json>>) returns (latest: Option<Json>)
    ensures latest == LastPlanningValue(releases)
  {
    latest := None;
    for i := 0 to |releases|
      invariant latest == LastPlanningValue(releases[..i])
    {
      var release := releases[i];
      assert releases[..i + 1][..i] == releases[..i];
      var status := Resolve(Obj(release), ["tender", "status"], Null);
      var value := Resolve(Obj(release), ["tender", "value"], Null);
      if status == Str("planning") && Truthy(value) {
        latest := Some(value);
      }
    }
    assert releases[..|releases|] == releases;
  }

  /** `releases_by_ocid.get(ocid, [])`. */
  function GroupOf(releasesByOcid: map<string, seq<map<string, Json>>>, ocid: Json): seq<map<string, Json>> {
    if ocid.Str? && ocid.s in releasesByOcid then releasesByOcid[ocid.s] else []
  }

  /** A process id the source can look up: lists and dicts are unhashable. */
  predicate HashableIds(output: map<string, Json>, count: nat)
    requires ProcessesReady(output, count)
  {
    forall k :: 0 <= k < count ==>
      var id := Get(output["contractingProcesses"].items[k].fields, "id");
      !id.Arr? && !id.Obj?
  }

  /** The summary after `cost_estimate`: the latest planning value of the
      process's releases becomes its tender's cost estimate. */
  function CostEstimateSummary(releasesByOcid: map<string, seq<map<string, Json>>>, process: Json)
    : (summary: map<string, Json>)
    requires ProcessOk(process)
    ensures SummaryOk(summary)
  {
    match LastPlanningValue(GroupOf(releasesByOcid, Get(process.fields, "id")))
    case Some(value) => SetTender(SummaryOf(process), "costEstimate", value)
    case None => SummaryOf(process)
  }

  /** The cost estimate is the tender value of the last release of the
      process's ocid that is in planning; without one the summary is kept. */
  lemma CostEstimateIsLastPlanningValue(releasesByOcid: map<string, seq<map<string, Json>>>, process: Json)
    requires ProcessOk(process)
    ensures var group := GroupOf(releasesByOcid, Get(process.fields, "id"));
            var after := CostEstimateSummary(releasesByOcid, process);
            ((forall k :: 0 <= k < |group| ==> !PlanningRelease(group[k])) ==> after == SummaryOf(process)) &&
            forall k :: 0 <= k < |group| && PlanningRelease(group[k]) &&
                        (forall j :: k < j < |group| ==> !PlanningRelease(group[j])) ==>
              UpdatesTender(SummaryOf(process), after, "costEstimate", Resolve(Obj(group[k]), ["tender", "value"], Null))
  {
    var group := GroupOf(releasesByOcid, Get(process.fields, "id"));
    LastPlanningValueIsLast(group);
    forall k | 0 <= k < |group| && PlanningRelease(group[k]) && (forall j :: k < j < |group| ==> !PlanningRelease(group[j]))
      ensures LastPlanningValue(group) == Some(Resolve(Obj(group[k]), ["tender", "value"], Null))
    {
      var k' :| 0 <= k' < |group| && PlanningRelease(group[k']) &&
                LastPlanningValue(group).value == Resolve(Obj(group[k']), ["tender", "value"], Null) &&
                forall j :: k' < j < |group| ==> !PlanningRelease(group[j]);
      assert k' == k;
    }
  }

  /** Every process with its cost estimate. */
  function CostEstimated(releasesByOcid: map<string, seq<map<string, Json>>>, processes: seq<Json>)
    : (updated: seq<Json>)
    requires forall k :: 0 <= k < |processes| ==> ProcessOk(processes[k])
    ensures |updated| == |processes|
  {
    seq(|processes|, k requires 0 <= k < |processes| && ProcessOk(processes[k]) =>
      WithSummary(processes[k], CostEstimateSummary(releasesByOcid, processes[k])))
  }

  /** `cost_estimate`: each process's summary gets its cost estimate. */
  method CostEstimate(state: TransformState)
    modifies state
    requires ProcessesReady(state.output, |state.compiledReleases|)
    requires HashableIds(state.output, |state.compiledReleases|)
    ensures state.compiledReleases == old(state.compiledReleases)
    ensures state.output == old(state.output)["contractingProcesses" :=
              Arr(CostEstimated(state.releasesByOcid, old(state.output)["contractingProcesses"].items))]
    ensures ProcessesReady(state.output, |state.compiledReleases|)
  {
    var processes := state.output["contractingProcesses"].items;
    var updated: seq<Json> := [];
    for i := 0 to |processes|
      invariant state.output == old(state.output) && state.compiledReleases == old(state.compiledReleases)
      invariant |updated| == i
      invariant forall k :: 0 <= k < i ==>
                  updated[k] == WithSummary(processes[k], CostEstimateSummary(state.releasesByOcid, processes[k]))
    {
      var process := processes[i];
      var ocid := Get(process.fields, "id");
      var latest := LatestPlanningValue(GroupOf(state.releasesByOcid, ocid));
      var summary := SummaryOf(process);
      if latest.Some? {
        summary := SetTender(summary, "costEstimate", latest.value);
      }
      updated := updated + [WithSummary(process, summary)];
    }
    assert updated == CostEstimated(state.releasesByOcid, processes);
    state.output := state.output["contractingProcesses" := Arr(updated)];
  }
}
