/** `run_transforms`: the transforms a configuration selects, run in the
    fixed order of the transform list over one transform state. */
module Oc4idsPipeline {
  import opened Outcomes
  import opened JsonValues
  import opened Oc4idsState
  import opened Oc4idsCopy
  import Oc4idsStatus
  import Oc4idsProject
  import Oc4idsProcesses
  import Oc4idsFunding

  /** The transforms of the transform list, in its order. `contract_price`,
      which sums amounts as floats, is not part of this model. */
  datatype Transform =
    | ContractingProcessSetup
    | PublicAuthorityRole
    | BuyerRole
    | Sector
    | AdditionalClassifications
    | Title
    | TitleFromTender
    | ProcuringEntity
    | AdministrativeEntity
    | ContractStatus
    | ProcurementProcess
    | Location
    | LocationFromItems
    | Budget
    | BudgetApproval
    | Purpose
    | PurposeNeedsAssessment
    | Description
    | DescriptionTender
    | EnvironmentalImpact
    | LandAndSettlementImpact
    | FundingSources
    | CostEstimate
    | ContractTitle
    | Suppliers
    | ContractProcessDescription
    | ContractPeriod
    | ProjectScope

  /** The Python name of a transform, which is also its configuration key. */
  function Name(t: Transform): string {
    match t
    case ContractingProcessSetup => "contracting_process_setup"
    case PublicAuthorityRole => "public_authority_role"
    case BuyerRole => "buyer_role"
    case Sector => "sector"
    case AdditionalClassifications => "additional_classifications"
    case Title => "title"
    case TitleFromTender => "title_from_tender"
    case ProcuringEntity => "procuring_entity"
    case AdministrativeEntity => "administrative_entity"
    case ContractStatus => "contract_status"
    case ProcurementProcess => "procurement_process"
    case Location => "location"
    case LocationFromItems => "location_from_items"
    case Budget => "budget"
    case BudgetApproval => "budget_approval"
    case Purpose => "purpose"
    case PurposeNeedsAssessment => "purpose_needs_assessment"
    case Description => "description"
    case DescriptionTender => "description_tender"
    case EnvironmentalImpact => "environmental_impact"
    case LandAndSettlementImpact => "land_and_settlement_impact"
    case FundingSources => "funding_sources"
    case CostEstimate => "cost_estimate"
    case ContractTitle => "contract_title"
    case Suppliers => "suppliers"
    case ContractProcessDescription => "contract_process_description"
    case ContractPeriod => "contract_period"
    case ProjectScope => "project_scope"
  }

  /** `TRANSFORM_LIST` without `contract_price`. */
  function TransformList(): seq<Transform> {
    [ContractingProcessSetup, PublicAuthorityRole, BuyerRole, Sector, AdditionalClassifications,
     Title, TitleFromTender, ProcuringEntity, AdministrativeEntity, ContractStatus,
     ProcurementProcess, Location, LocationFromItems, Budget, BudgetApproval, Purpose,
     PurposeNeedsAssessment, Description, DescriptionTender, EnvironmentalImpact,
     LandAndSettlementImpact, FundingSources, CostEstimate, ContractTitle, Suppliers,
     ContractProcessDescription, ContractPeriod, ProjectScope]
  }

  /** `OPTIONAL_TRANSFORMS`. */
  function OptionalTransforms(): seq<string> {
    ["buyer_role", "title_from_tender", "location_from_items", "purpose_needs_assessment", "description_tender"]
  }

  /** The test of `run_transforms`: an optional transform is skipped unless
      the configuration turns on `all` or the transform itself. */
  predicate Skipped(config: map<string, Json>, t: Transform) {
    !Truthy(Get(config, "all")) && !Truthy(Get(config, Name(t))) && Name(t) in OptionalTransforms()
  }

  /** The transforms of `transforms` that the configuration does not skip,
      in their order. */
  function Selected(config: map<string, Json>, transforms: seq<Transform>): seq<Transform> {
    if transforms == [] then []
    else
      var last := transforms[|transforms| - 1];
      Selected(config, transforms[..|transforms| - 1]) + (if Skipped(config, last) then [] else [last])
  }

  /** A transform is selected exactly when it is in the list and not
      skipped; the selection keeps the list's order. */
  lemma {:induction false} SelectedMembers(config: map<string, Json>, transforms: seq<Transform>)
    ensures forall t :: t in Selected(config, transforms) <==> t in transforms && !Skipped(config, t)
    ensures |Selected(config, transforms)| <= |transforms|
  {
    if transforms != [] {
      var init := transforms[..|transforms| - 1];
      SelectedMembers(config, init);
      assert transforms == init + [transforms[|transforms| - 1]];
    }
  }

  /** A selection of a list that starts with a transform that is never
      skipped starts with that transform. */
  lemma {:induction false} SelectedKeepsHead(config: map<string, Json>, transforms: seq<Transform>)
    requires transforms != [] && !Skipped(config, transforms[0])
    ensures Selected(config, transforms) != [] && Selected(config, transforms)[0] == transforms[0]
  {
    if |transforms| > 1 {
      var init := transforms[..|transforms| - 1];
      assert init[0] == transforms[0];
      SelectedKeepsHead(config, init);
    }
  }

  /** With `all` turned on nothing is skipped. */
  lemma {:induction false} SelectedAll(config: map<string, Json>, transforms: seq<Transform>)
    requires Truthy(Get(config, "all"))
    ensures Selected(config, transforms) == transforms
  {
    if transforms != [] {
      var init := transforms[..|transforms| - 1];
      SelectedAll(config, init);
      assert transforms == init + [transforms[|transforms| - 1]];
    }
  }

  /** Every mandatory transform runs, whatever the configuration; in
      particular the selection starts with `contracting_process_setup`. */
  lemma MandatoryTransformsRun(config: map<string, Json>)
    ensures forall t :: t in TransformList() && Name(t) !in OptionalTransforms() ==> t in Selected(config, TransformList())
    ensures Selected(config, TransformList()) != [] && Selected(config, TransformList())[0] == ContractingProcessSetup
  {
    SelectedMembers(config, TransformList());
    SelectedKeepsHead(config, TransformList());
  }

  /** What the loop of `run_transforms` needs of the selection. */
  lemma SelectionStartsWithSetup(config: map<string, Json>, selected: seq<Transform>)
    requires selected == Selected(config, TransformList())
    ensures selected != [] && selected[0] == ContractingProcessSetup
  {
    MandatoryTransformsRun(config);
  }

  /** The selection loop of `run_transforms`. */
  method SelectTransforms(config: map<string, Json>) returns (selected: seq<Transform>)
    ensures selected == Selected(config, TransformList())
  {
    var transforms := TransformList();
    selected := [];
    for i := 0 to |transforms|
      invariant selected == Selected(config, transforms[..i])
    {
      assert transforms[..i + 1][..i] == transforms[..i];
      if !Skipped(config, transforms[i]) {
        selected := selected + [transforms[i]];
      }
    }
    assert transforms[..|transforms|] == transforms;
  }

  /** The members of the project a transform may change. */
  function Touches(t: Transform): set<string> {
    match t
    case ContractingProcessSetup => {"contractingProcesses"}
    case PublicAuthorityRole => {"parties"}
    case BuyerRole => {"parties"}
    case Sector => {"sector"}
    case AdditionalClassifications => {"additionalClassifications"}
    case Title => {"title"}
    case TitleFromTender => {"title"}
    case ProcuringEntity => {"parties", "contractingProcesses"}
    case AdministrativeEntity => {"parties", "contractingProcesses"}
    case ContractStatus => {"contractingProcesses"}
    case ProcurementProcess => {"contractingProcesses"}
    case Location => {"locations"}
    case LocationFromItems => {"locations"}
    case Budget => {"budget"}
    case BudgetApproval => {"documents"}
    case Purpose => {"purpose"}
    case PurposeNeedsAssessment => {"documents"}
    case Description => {"description"}
    case DescriptionTender => {"description"}
    case EnvironmentalImpact => {"documents"}
    case LandAndSettlementImpact => {"documents"}
    case FundingSources => {"parties"}
    case CostEstimate => {"contractingProcesses"}
    case ContractTitle => {"contractingProcesses"}
    case Suppliers => {"parties", "contractingProcesses"}
    case ContractProcessDescription => {"contractingProcesses"}
    case ContractPeriod => {"contractingProcesses"}
    case ProjectScope => {"documents"}
  }

  /** The transforms that read the contracting processes and so need
      `contracting_process_setup` to have run. */
  predicate NeedsProcesses(t: Transform) {
    t != ContractingProcessSetup && "contractingProcesses" in Touches(t)
  }

  /** No transform changes the project's `id`. */
  lemma IdUntouched(t: Transform)
    ensures "id" !in Touches(t)
  {
  }

  /** `after` differs from `before` only in `keys`. */
  ghost predicate Outside(before: map<string, Json>, after: map<string, Json>, keys: set<string>) {
    forall key :: key !in keys ==> (key in after <==> key in before) && (key in after ==> after[key] == before[key])
  }

  /** What the transforms demand of one compiled release: its parties,
      contracts and awards are dicts, its project locations a list, a
      string or a dict when truthy, and its ocid can key a dict. */
  predicate ReleaseWellFormed(compiledRelease: map<string, Json>) {
    (forall party :: party in Parties(compiledRelease) ==> party.Obj?) &&
    Oc4idsStatus.ContractsAndAwardsAreObjects(compiledRelease) &&
    (Truthy(Oc4idsProject.ProjectLocations(compiledRelease)) ==> Iterable(Oc4idsProject.ProjectLocations(compiledRelease))) &&
    !Get(compiledRelease, "ocid").Arr? && !Get(compiledRelease, "ocid").Obj?
  }

  predicate ReleasesWellFormed(compiledReleases: seq<map<string, Json>>) {
    forall k :: 0 <= k < |compiledReleases| ==> ReleaseWellFormed(compiledReleases[k])
  }

  /** What `budget` demands of the compiled releases: there is one, and
      when there are several each one's amount and currency can be summed
      and collected. */
  predicate BudgetReady(compiledReleases: seq<map<string, Json>>) {
    compiledReleases != [] && (|compiledReleases| > 1 ==> Oc4idsProject.BudgetsSummable(compiledReleases))
  }

  /** What the transforms demand of the project: `parties` absent or a
      list, `documents` falsy or a list. */
  predicate OutputWellFormed(output: map<string, Json>) {
    ListOrAbsent(output, "parties") && (!Truthy(Get(output, "documents")) || Get(output, "documents").Arr?)
  }

  /** Each contracting process carries the ocid of its compiled release as
      its id. */
  predicate ProcessIdsAre(output: map<string, Json>, compiledReleases: seq<map<string, Json>>)
    requires ProcessesReady(output, |compiledReleases|)
  {
    forall k :: 0 <= k < |compiledReleases| ==>
      Get(output["contractingProcesses"].items[k].fields, "id") == Get(compiledReleases[k], "ocid")
  }

  /** The state between two transforms; `setUp` says whether
      `contracting_process_setup` has run. */
  ghost predicate Ready(state: TransformState, setUp: bool)
    reads state
  {
    ReleasesWellFormed(state.compiledReleases) && BudgetReady(state.compiledReleases) &&
    OutputWellFormed(state.output) &&
    (setUp ==> ProcessesReady(state.output, |state.compiledReleases|) &&
               ProcessIdsAre(state.output, state.compiledReleases))
  }

  /** The compiled releases keep their ocids. */
  ghost predicate SameOcids(before: seq<map<string, Json>>, after: seq<map<string, Json>>) {
    |after| == |before| && forall k :: 0 <= k < |before| ==> Get(after[k], "ocid") == Get(before[k], "ocid")
  }

  lemma ReleasesReady(compiledReleases: seq<map<string, Json>>)
    requires ReleasesWellFormed(compiledReleases)
    ensures PartiesAreObjects(compiledReleases)
    ensures forall k :: 0 <= k < |compiledReleases| ==> Oc4idsStatus.ContractsAndAwardsAreObjects(compiledReleases[k])
    ensures forall k :: 0 <= k < |compiledReleases| ==> Oc4idsStatus.AwardsAreObjects(compiledReleases[k])
    ensures Oc4idsProject.LocationsExtendable(compiledReleases)
  {
  }

  /** Ids that are ocids of well-formed releases can key a dict. */
  lemma IdsHashable(output: map<string, Json>, compiledReleases: seq<map<string, Json>>)
    requires ReleasesWellFormed(compiledReleases)
    requires ProcessesReady(output, |compiledReleases|) && ProcessIdsAre(output, compiledReleases)
    ensures Oc4idsProcesses.HashableIds(output, |compiledReleases|)
  {
  }

  /** A change outside `contractingProcesses` keeps the processes. */
  lemma ProcessesKept(before: map<string, Json>, after: map<string, Json>, keys: set<string>,
                      compiledReleases: seq<map<string, Json>>)
    requires Outside(before, after, keys) && "contractingProcesses" !in keys
    requires ProcessesReady(before, |compiledReleases|) && ProcessIdsAre(before, compiledReleases)
    ensures ProcessesReady(after, |compiledReleases|) && ProcessIdsAre(after, compiledReleases)
  {
    assert after["contractingProcesses"] == before["contractingProcesses"];
  }

  /** A summary rule keeps every process's id. */
  lemma SummarizedKeepsIds(output: map<string, Json>, compiledReleases: seq<map<string, Json>>,
                           rule: Oc4idsProcesses.SummaryRule)
    requires ProcessesReady(output, |compiledReleases|) && ProcessIdsAre(output, compiledReleases)
    ensures var after := Oc4idsProcesses.Summarized(output, compiledReleases, rule);
            ProcessesReady(after, |compiledReleases|) && ProcessIdsAre(after, compiledReleases) &&
            Outside(output, after, {"contractingProcesses"})
  {
    Oc4idsProcesses.SummarizedShape(output, compiledReleases, rule);
    var after := Oc4idsProcesses.Summarized(output, compiledReleases, rule);
    forall k | 0 <= k < |compiledReleases|
      ensures Get(after["contractingProcesses"].items[k].fields, "id") == Get(compiledReleases[k], "ocid")
    {
      assert "id" != "summary";
    }
  }

  /** Appending parties keeps the processes and the documents, and leaves
      `parties` a list. */
  lemma AppendPartiesReady(output: map<string, Json>, copies: seq<Json>)
    requires OutputWellFormed(output)
    ensures OutputWellFormed(AppendParties(output, copies))
    ensures Outside(output, AppendParties(output, copies), {"parties"})
  {
    Oc4idsCopy.AppendPartiesUpdates(output, copies);
  }

  /** Adding documents leaves `documents` a list and the rest as it was. */
  lemma AddDocumentsReady(output: map<string, Json>, found: seq<Json>)
    requires OutputWellFormed(output)
    ensures OutputWellFormed(AddDocuments(output, found))
    ensures Outside(output, AddDocuments(output, found), {"documents"})
  {
    Oc4idsCopy.AddDocumentsUpdates(output, found);
  }

  /** Setting one member, or leaving the project as it was, changes
      nothing outside that member. */
  lemma SetOnly(before: map<string, Json>, after: map<string, Json>, key: string)
    requires after == before || (key in after && after == before[key := after[key]])
    ensures Outside(before, after, {key})
  {
  }

  /** A change to keys other than `parties`, `documents` and
      `contractingProcesses` keeps the project ready. */
  lemma FieldReady(before: map<string, Json>, after: map<string, Json>, keys: set<string>,
                   compiledReleases: seq<map<string, Json>>, setUp: bool)
    requires Outside(before, after, keys)
    requires "parties" !in keys && "documents" !in keys && "contractingProcesses" !in keys
    requires OutputWellFormed(before)
    requires setUp ==> ProcessesReady(before, |compiledReleases|) && ProcessIdsAre(before, compiledReleases)
    ensures OutputWellFormed(after)
    ensures setUp ==> ProcessesReady(after, |compiledReleases|) && ProcessIdsAre(after, compiledReleases)
  {
    assert Get(after, "parties") == Get(before, "parties");
    assert Get(after, "documents") == Get(before, "documents");
    if setUp {
      ProcessesKept(before, after, keys, compiledReleases);
    }
  }

  /** Copying parties, then rewriting every summary, keeps the project
      ready and changes only `parties` (when something is copied) and
      `contractingProcesses`. */
  lemma SummaryReady(before: map<string, Json>, copies: seq<Json>, compiledReleases: seq<map<string, Json>>,
                     rule: Oc4idsProcesses.SummaryRule, keys: set<string>)
    requires OutputWellFormed(before)
    requires ProcessesReady(before, |compiledReleases|) && ProcessIdsAre(before, compiledReleases)
    requires "contractingProcesses" in keys && (copies != [] ==> "parties" in keys)
    ensures var after := Oc4idsProcesses.Summarized(AppendParties(before, copies), compiledReleases, rule);
            OutputWellFormed(after) &&
            ProcessesReady(after, |compiledReleases|) && ProcessIdsAre(after, compiledReleases) &&
            Outside(before, after, keys)
  {
    var copied := AppendParties(before, copies);
    assert copies == [] ==> copied == before;
    AppendPartiesReady(before, copies);
    ProcessesKept(before, copied, {"parties"}, compiledReleases);
    SummarizedKeepsIds(copied, compiledReleases, rule);
    var after := Oc4idsProcesses.Summarized(copied, compiledReleases, rule);
    assert Get(after, "parties") == Get(copied, "parties");
    assert Get(after, "documents") == Get(copied, "documents");
  }

  /** `contracting_process_setup` in the pipeline. */
  method RunSetup(state: TransformState)
    modifies state
    requires Ready(state, false)
    ensures Ready(state, true)
    ensures state.compiledReleases == old(state.compiledReleases)
    ensures Outside(old(state.output), state.output, Touches(ContractingProcessSetup))
  {
    var _ := Oc4idsProcesses.ContractingProcessSetup(state);
    forall k | 0 <= k < |state.compiledReleases|
      ensures Get(state.output["contractingProcesses"].items[k].fields, "id") == Get(state.compiledReleases[k], "ocid")
    {
      Oc4idsProcesses.NewProcessShape(state.compiledReleases[k]);
    }
    assert Get(state.output, "parties") == Get(old(state.output), "parties");
    assert Get(state.output, "documents") == Get(old(state.output), "documents");
  }

  /** `public_authority_role` and `buyer_role`. */
  method RunPartyCopy(state: TransformState, role: string, newRoles: seq<string>, ghost setUp: bool)
    modifies state
    requires Ready(state, setUp)
    ensures Ready(state, setUp)
    ensures state.compiledReleases == old(state.compiledReleases)
    ensures Outside(old(state.output), state.output, {"parties"})
  {
    ReleasesReady(state.compiledReleases);
    var _ := CopyPartyByRole(state, role, newRoles);
    AppendPartiesReady(old(state.output), RoleCopies(state.compiledReleases, role, newRoles));
    if setUp {
      ProcessesKept(old(state.output), state.output, {"parties"}, state.compiledReleases);
    }
  }

  /** The transforms that copy planning documents of one type. */
  method RunDocumentCopy(state: TransformState, documentType: string, ghost setUp: bool)
    modifies state
    requires Ready(state, setUp)
    ensures Ready(state, setUp)
    ensures state.compiledReleases == old(state.compiledReleases)
    ensures Outside(old(state.output), state.output, {"documents"})
  {
    var _ := CopyDocumentByType(state, documentType);
    AddDocumentsReady(old(state.output), TypedDocuments(state.compiledReleases, documentType));
    if setUp {
      ProcessesKept(old(state.output), state.output, {"documents"}, state.compiledReleases);
    }
  }

  /** The transforms that set one project-level field. */
  method RunField(state: TransformState, t: Transform, budgetTotal: Json, ghost setUp: bool)
    modifies state
    requires t in {Sector, AdditionalClassifications, Title, TitleFromTender, Location, LocationFromItems,
                   Budget, Purpose, Description, DescriptionTender}
    requires Ready(state, setUp)
    ensures Ready(state, setUp)
    ensures state.compiledReleases == old(state.compiledReleases)
    ensures Outside(old(state.output), state.output, Touches(t))
  {
    if t in {Sector, AdditionalClassifications, Title, TitleFromTender} {
      SetClassifyingField(state, t);
    } else if t in {Location, LocationFromItems} {
      SetLocations(state, t);
    } else if t == Budget {
      SetBudget(state, budgetTotal);
    } else {
      SetTextField(state, t);
    }
    FieldReady(old(state.output), state.output, Touches(t), state.compiledReleases, setUp);
  }

  /** `sector`, `additional_classifications`, `title` and
      `title_from_tender`. */
  method SetClassifyingField(state: TransformState, t: Transform)
    modifies state
    requires t in {Sector, AdditionalClassifications, Title, TitleFromTender}
    ensures state.compiledReleases == old(state.compiledReleases)
    ensures Outside(old(state.output), state.output, Touches(t))
  {
    var success: bool;
    match t {
      case Sector => success := Oc4idsProject.Sector(state);
      case AdditionalClassifications => success := Oc4idsProject.AdditionalClassifications(state);
      case Title => success := Oc4idsProject.Title(state);
      case TitleFromTender => success := Oc4idsProject.TitleFromTender(state);
    }
  }

  /** `location` and `location_from_items`. */
  method SetLocations(state: TransformState, t: Transform)
    modifies state
    requires t in {Location, LocationFromItems}
    requires ReleasesWellFormed(state.compiledReleases)
    ensures state.compiledReleases == old(state.compiledReleases)
    ensures Outside(old(state.output), state.output, Touches(t))
  {
    ReleasesReady(state.compiledReleases);
    ghost var before := state.output;
    assert Touches(t) == {"locations"};
    var success: bool;
    if t == Location {
      success := Oc4idsProject.Location(state);
    } else {
      success := Oc4idsProject.LocationFromItems(state);
    }
    SetOnly(before, state.output, "locations");
  }

  /** `budget`, with `budgetTotal` standing for the float sum of several
      releases' amounts. */
  method SetBudget(state: TransformState, budgetTotal: Json)
    modifies state
    requires BudgetReady(state.compiledReleases)
    ensures state.compiledReleases == old(state.compiledReleases)
    ensures Outside(old(state.output), state.output, Touches(Budget))
  {
    ghost var before := state.output;
    var _ := Oc4idsProject.Budget(state, budgetTotal);
    SetOnly(before, state.output, "budget");
  }

  /** `purpose`, `description` and `description_tender`. */
  method SetTextField(state: TransformState, t: Transform)
    modifies state
    requires t in {Purpose, Description, DescriptionTender}
    ensures state.compiledReleases == old(state.compiledReleases)
    ensures Outside(old(state.output), state.output, Touches(t))
  {
    ghost var before := state.output;
    var success: bool;
    if t == Purpose {
      assert Touches(t) == {"purpose"};
      success := Oc4idsProject.Purpose(state);
      SetOnly(before, state.output, "purpose");
    } else {
      assert Touches(t) == {"description"};
      if t == Description {
        success := Oc4idsProject.Description(state);
      } else {
        success := Oc4idsProject.DescriptionTender(state);
      }
      SetOnly(before, state.output, "description");
    }
  }

  /** The role whose parties a summary transform copies first, if any. */
  function CopiedRole(t: Transform): Option<string> {
    match t
    case ProcuringEntity => Some("procuringEntity")
    case AdministrativeEntity => Some("administrativeEntity")
    case Suppliers => Some("supplier")
    case _ => None
  }

  /** The parties a summary transform appends to the project. */
  function SummaryCopies(t: Transform, compiledReleases: seq<map<string, Json>>): seq<Json> {
    match CopiedRole(t)
    case Some(role) => RoleCopies(compiledReleases, role, [])
    case None => []
  }

  /** The rule by which a summary transform rewrites each summary. */
  function SummaryRuleOf(t: Transform, now: string): Oc4idsProcesses.SummaryRule
    requires t in {ProcuringEntity, AdministrativeEntity, ContractStatus, ProcurementProcess, ContractTitle,
                   Suppliers, ContractProcessDescription, ContractPeriod}
  {
    match t
    case ProcuringEntity => Oc4idsProcesses.ProcuringEntityRule
    case AdministrativeEntity => Oc4idsProcesses.AdministrativeEntityRule
    case Suppliers => Oc4idsProcesses.SuppliersRule
    case ContractStatus => Oc4idsProcesses.StatusRule(now)
    case ProcurementProcess => Oc4idsProcesses.ProcurementProcessRule
    case ContractTitle => Oc4idsProcesses.ContractTitleRule
    case ContractProcessDescription => Oc4idsProcesses.DescriptionRule
    case ContractPeriod => Oc4idsProcesses.ContractPeriodRule
  }

  /** The transforms that rewrite every process's summary, some after
      copying parties by role. */
  method RunSummary(state: TransformState, t: Transform, now: string)
    modifies state
    requires t in {ProcuringEntity, AdministrativeEntity, ContractStatus, ProcurementProcess, ContractTitle,
                   Suppliers, ContractProcessDescription, ContractPeriod}
    requires Ready(state, true)
    ensures Ready(state, true)
    ensures state.compiledReleases == old(state.compiledReleases)
    ensures Outside(old(state.output), state.output, Touches(t))
  {
    if t in {ProcuringEntity, AdministrativeEntity, Suppliers} {
      RunPartySummaryReady(state, t);
    } else {
      RunPlainSummaryReady(state, t, now);
    }
  }

  /** The summary transforms that copy parties by role first. */
  method RunPartySummaryReady(state: TransformState, t: Transform)
    modifies state
    requires t in {ProcuringEntity, AdministrativeEntity, Suppliers}
    requires Ready(state, true)
    ensures Ready(state, true)
    ensures state.compiledReleases == old(state.compiledReleases)
    ensures Outside(old(state.output), state.output, Touches(t))
  {
    ReleasesReady(state.compiledReleases);
    ghost var before := state.output;
    SummaryReady(before, SummaryCopies(t, state.compiledReleases), state.compiledReleases, SummaryRuleOf(t, ""),
                 Touches(t));
    RunPartySummary(state, t);
  }

  /** The summary transforms that copy no parties. */
  method RunPlainSummaryReady(state: TransformState, t: Transform, now: string)
    modifies state
    requires t in {ContractStatus, ProcurementProcess, ContractTitle, ContractProcessDescription, ContractPeriod}
    requires Ready(state, true)
    ensures Ready(state, true)
    ensures state.compiledReleases == old(state.compiledReleases)
    ensures Outside(old(state.output), state.output, Touches(t))
  {
    ReleasesReady(state.compiledReleases);
    ghost var before := state.output;
    assert CopiedRole(t).None?;
    SummaryReady(before, [], state.compiledReleases, SummaryRuleOf(t, now), Touches(t));
    assert AppendParties(before, []) == before;
    RunPlainSummary(state, t, now);
  }

  /** `procuring_entity`, `administrative_entity` and `suppliers`. */
  method RunPartySummary(state: TransformState, t: Transform)
    modifies state
    requires t in {ProcuringEntity, AdministrativeEntity, Suppliers}
    requires ProcessesReady(state.output, |state.compiledReleases|)
    requires PartiesAreObjects(state.compiledReleases) && ListOrAbsent(state.output, "parties")
    ensures state.compiledReleases == old(state.compiledReleases)
    ensures state.output ==
            Oc4idsProcesses.Summarized(AppendParties(old(state.output), SummaryCopies(t, state.compiledReleases)),
                                       state.compiledReleases, SummaryRuleOf(t, ""))
  {
    ghost var copies := SummaryCopies(t, state.compiledReleases);
    ghost var rule := SummaryRuleOf(t, "");
    if t == ProcuringEntity {
      assert copies == RoleCopies(state.compiledReleases, "procuringEntity", []);
      assert rule == Oc4idsProcesses.ProcuringEntityRule;
      var _ := Oc4idsProcesses.ProcuringEntity(state);
    } else if t == AdministrativeEntity {
      assert copies == RoleCopies(state.compiledReleases, "administrativeEntity", []);
      assert rule == Oc4idsProcesses.AdministrativeEntityRule;
      var _ := Oc4idsProcesses.AdministrativeEntity(state);
    } else {
      assert copies == RoleCopies(state.compiledReleases, "supplier", []);
      assert rule == Oc4idsProcesses.SuppliersRule;
      Oc4idsProcesses.Suppliers(state);
    }
  }

  /** The summary transforms that copy no parties. */
  method RunPlainSummary(state: TransformState, t: Transform, now: string)
    modifies state
    requires t in {ContractStatus, ProcurementProcess, ContractTitle, ContractProcessDescription, ContractPeriod}
    requires ProcessesReady(state.output, |state.compiledReleases|)
    requires forall k :: 0 <= k < |state.compiledReleases| ==>
               Oc4idsStatus.ContractsAndAwardsAreObjects(state.compiledReleases[k])
    requires forall k :: 0 <= k < |state.compiledReleases| ==> Oc4idsStatus.AwardsAreObjects(state.compiledReleases[k])
    ensures state.compiledReleases == old(state.compiledReleases)
    ensures state.output == Oc4idsProcesses.Summarized(old(state.output), state.compiledReleases, SummaryRuleOf(t, now))
  {
    match t {
      case ContractStatus => Oc4idsProcesses.ContractStatusTransform(state, now);
      case ProcurementProcess => Oc4idsProcesses.ProcurementProcess(state);
      case ContractTitle => Oc4idsProcesses.ContractTitle(state);
      case ContractProcessDescription => Oc4idsProcesses.ContractProcessDescription(state);
      case ContractPeriod => Oc4idsProcesses.ContractPeriod(state);
    }
  }

  /** Funding keeps every compiled release well formed and its ocid. */
  lemma FundedReleasesReady(before: seq<map<string, Json>>, after: seq<map<string, Json>>)
    requires ReleasesWellFormed(before)
    requires |after| == |before|
    requires forall k :: 0 <= k < |before| ==> after[k] == Oc4idsFunding.FundedRelease(before[k])
    ensures ReleasesWellFormed(after) && SameOcids(before, after)
    ensures BudgetReady(before) ==> BudgetReady(after)
  {
    forall k | 0 <= k < |before|
      ensures ReleaseWellFormed(after[k]) && Get(after[k], "ocid") == Get(before[k], "ocid")
      ensures Oc4idsProject.BudgetSummable(before[k]) ==> Oc4idsProject.BudgetSummable(after[k])
    {
      var cr := before[k];
      Oc4idsFunding.FundedReleaseChanges(cr);
      Oc4idsFunding.FundedReleaseKeepsObjects(cr);
      assert Get(after[k], "ocid") == Get(cr, "ocid");
      assert Get(after[k], "contracts") == Get(cr, "contracts");
      assert Get(after[k], "awards") == Get(cr, "awards");
      assert Get(after[k], "planning") == Get(cr, "planning");
      assert Oc4idsStatus.ContractsOf(after[k]) == Oc4idsStatus.ContractsOf(cr);
      assert Oc4idsStatus.AwardsOf(after[k]) == Oc4idsStatus.AwardsOf(cr);
      assert Oc4idsProject.ProjectLocations(after[k]) == Oc4idsProject.ProjectLocations(cr);
      assert Oc4idsProject.BudgetSum(after[k]) == Oc4idsProject.BudgetSum(cr);
      assert Oc4idsProject.BudgetCurrency(after[k]) == Oc4idsProject.BudgetCurrency(cr);
    }
  }

  /** `funding_sources` in the pipeline. */
  method RunFunding(state: TransformState, ghost setUp: bool)
    modifies state
    requires Ready(state, setUp)
    ensures Ready(state, setUp)
    ensures SameOcids(old(state.compiledReleases), state.compiledReleases)
    ensures Outside(old(state.output), state.output, {"parties"})
  {
    ReleasesReady(state.compiledReleases);
    var _ := Oc4idsFunding.FundingSources(state);
    FundedReleasesReady(old(state.compiledReleases), state.compiledReleases);
    assert Get(state.output, "documents") == Get(old(state.output), "documents");
    if setUp {
      var count := |state.compiledReleases|;
      assert state.output["contractingProcesses"] == old(state.output)["contractingProcesses"];
      assert ProcessesReady(state.output, count);
      forall k | 0 <= k < count
        ensures Get(state.output["contractingProcesses"].items[k].fields, "id") == Get(state.compiledReleases[k], "ocid")
      {
        assert Get(state.compiledReleases[k], "ocid") == Get(old(state.compiledReleases)[k], "ocid");
      }
    }
  }

  /** `cost_estimate` in the pipeline. */
  method RunCostEstimate(state: TransformState)
    modifies state
    requires Ready(state, true)
    ensures Ready(state, true)
    ensures state.compiledReleases == old(state.compiledReleases)
    ensures Outside(old(state.output), state.output, {"contractingProcesses"})
  {
    IdsHashable(state.output, state.compiledReleases);
    var processes := state.output["contractingProcesses"].items;
    Oc4idsProcesses.CostEstimate(state);
    var updated := state.output["contractingProcesses"].items;
    forall k | 0 <= k < |state.compiledReleases|
      ensures Get(updated[k].fields, "id") == Get(state.compiledReleases[k], "ocid")
    {
      assert updated[k] == Oc4idsProcesses.WithSummary(processes[k],
                             Oc4idsProcesses.CostEstimateSummary(state.releasesByOcid, processes[k]));
    }
    assert Get(state.output, "parties") == Get(old(state.output), "parties");
    assert Get(state.output, "documents") == Get(old(state.output), "documents");
  }

  /** One transform: the state stays ready, only the members the transform
      touches change, and the compiled releases keep their ocids. */
  method ApplyTransform(state: TransformState, t: Transform, now: string, budgetTotal: Json, ghost setUp: bool)
    modifies state
    requires Ready(state, setUp)
    requires NeedsProcesses(t) ==> setUp
    ensures Ready(state, setUp || t == ContractingProcessSetup)
    ensures Outside(old(state.output), state.output, Touches(t))
    ensures SameOcids(old(state.compiledReleases), state.compiledReleases)
    ensures t != FundingSources ==> state.compiledReleases == old(state.compiledReleases)
  {
    if t in {ContractingProcessSetup, FundingSources, CostEstimate} {
      ApplyProcessOrFunding(state, t, setUp);
    } else if t in {PublicAuthorityRole, BuyerRole, BudgetApproval, PurposeNeedsAssessment, EnvironmentalImpact,
                    LandAndSettlementImpact, ProjectScope} {
      ApplyCopying(state, t, setUp);
    } else {
      ApplyRewriting(state, t, now, budgetTotal, setUp);
    }
  }

  /** `contracting_process_setup`, `funding_sources` and `cost_estimate`. */
  method ApplyProcessOrFunding(state: TransformState, t: Transform, ghost setUp: bool)
    modifies state
    requires t in {ContractingProcessSetup, FundingSources, CostEstimate}
    requires Ready(state, setUp)
    requires NeedsProcesses(t) ==> setUp
    ensures Ready(state, setUp || t == ContractingProcessSetup)
    ensures Outside(old(state.output), state.output, Touches(t))
    ensures SameOcids(old(state.compiledReleases), state.compiledReleases)
    ensures t != FundingSources ==> state.compiledReleases == old(state.compiledReleases)
  {
    if t == ContractingProcessSetup {
      assert Ready(state, false);
      RunSetup(state);
    } else if t == FundingSources {
      assert Touches(t) == {"parties"};
      RunFunding(state, setUp);
    } else {
      assert Touches(t) == {"contractingProcesses"};
      RunCostEstimate(state);
    }
  }

  /** The transforms that copy parties by role or planning documents by
      type from the compiled releases. */
  method ApplyCopying(state: TransformState, t: Transform, ghost setUp: bool)
    modifies state
    requires t in {PublicAuthorityRole, BuyerRole, BudgetApproval, PurposeNeedsAssessment, EnvironmentalImpact,
                   LandAndSettlementImpact, ProjectScope}
    requires Ready(state, setUp)
    ensures Ready(state, setUp)
    ensures Outside(old(state.output), state.output, Touches(t))
    ensures state.compiledReleases == old(state.compiledReleases)
  {
    if t in {PublicAuthorityRole, BuyerRole} {
      assert Touches(t) == {"parties"};
      if t == PublicAuthorityRole {
        RunPartyCopy(state, "publicAuthority", [], setUp);
      } else {
        RunPartyCopy(state, "buyer", ["publicAuthority"], setUp);
      }
    } else {
      assert Touches(t) == {"documents"};
      RunDocumentCopy(state, DocumentTypeOf(t), setUp);
    }
  }

  /** The transforms that set one project-level field or rewrite the
      summaries of the processes. */
  method ApplyRewriting(state: TransformState, t: Transform, now: string, budgetTotal: Json, ghost setUp: bool)
    modifies state
    requires t in {Sector, AdditionalClassifications, Title, TitleFromTender, Location, LocationFromItems,
                   Budget, Purpose, Description, DescriptionTender, ProcuringEntity, AdministrativeEntity, ContractStatus,
                   ProcurementProcess, ContractTitle, Suppliers, ContractProcessDescription, ContractPeriod}
    requires Ready(state, setUp)
    requires NeedsProcesses(t) ==> setUp
    ensures Ready(state, setUp)
    ensures Outside(old(state.output), state.output, Touches(t))
    ensures state.compiledReleases == old(state.compiledReleases)
  {
    if t in {Sector, AdditionalClassifications, Title, TitleFromTender, Location, LocationFromItems,
             Budget, Purpose, Description, DescriptionTender} {
      RunField(state, t, budgetTotal, setUp);
    } else {
      assert NeedsProcesses(t);
      RunSummary(state, t, now);
    }
  }

  /** The planning document type each document transform copies. */
  function DocumentTypeOf(t: Transform): string
    requires t in {BudgetApproval, PurposeNeedsAssessment, EnvironmentalImpact, LandAndSettlementImpact, ProjectScope}
  {
    match t
    case BudgetApproval => "budgetApproval"
    case PurposeNeedsAssessment => "needsAssessment"
    case EnvironmentalImpact => "environmentalImpact"
    case LandAndSettlementImpact => "landAndSettlementImpact"
    case ProjectScope => "projectScope"
  }

  /** The compiled release of a well-formed record is well formed when the
      record's own compiled release is. */
  predicate RecordWellFormed(record: map<string, Json>) {
    RecordReleasesAreObjects(record) && ReleaseWellFormed(CompiledRelease(record))
  }

  /** The transform state `run_transforms` starts from: well formed, with
      one compiled release per record, and the project id set. */
  method NewState(releases: seq<map<string, Json>>, projectId: string,
                  records: seq<map<string, Json>>, output: map<string, Json>)
    returns (state: TransformState)
    requires records != []
    requires forall k :: 0 <= k < |records| ==> RecordWellFormed(records[k])
    requires |records| > 1 ==> forall k :: 0 <= k < |records| ==> Oc4idsProject.BudgetSummable(CompiledRelease(records[k]))
    requires OutputWellFormed(output)
    ensures fresh(state)
    ensures Ready(state, false)
    ensures |state.compiledReleases| == |records|
    ensures forall k :: 0 <= k < |records| ==> Get(state.compiledReleases[k], "ocid") == Get(CompiledRelease(records[k]), "ocid")
    ensures Get(state.output, "id") == if projectId != "" && "id" !in output then Str(projectId) else Get(output, "id")
  {
    state := new TransformState(releases, projectId, records, output);
    assert Get(state.output, "parties") == Get(output, "parties");
    assert Get(state.output, "documents") == Get(output, "documents");
  }

  /** `run_transforms` over the given records, with `now` standing for the
      clock and `budgetTotal` for the float sum of the budget amounts: every selected transform runs in order on one state, and the
      project that comes out has one contracting process per record, each
      with its compiled release's ocid as id, and keeps its id. */
  method RunTransforms(config: map<string, Json>, releases: seq<map<string, Json>>, projectId: string,
                       records: seq<map<string, Json>>, output: map<string, Json>, now: string,
                       budgetTotal: Json)
    returns (project: map<string, Json>)
    requires records != []
    requires forall k :: 0 <= k < |records| ==> RecordWellFormed(records[k])
    requires |records| > 1 ==> forall k :: 0 <= k < |records| ==> Oc4idsProject.BudgetSummable(CompiledRelease(records[k]))
    requires OutputWellFormed(output)
    ensures ProcessesReady(project, |records|)
    ensures forall k :: 0 <= k < |records| ==>
              Get(project["contractingProcesses"].items[k].fields, "id") == Get(CompiledRelease(records[k]), "ocid")
    ensures Get(project, "id") == if projectId != "" && "id" !in output then Str(projectId) else Get(output, "id")
  {
    var selected := SelectTransforms(config);
    SelectionStartsWithSetup(config, selected);
    var state := NewState(releases, projectId, records, output);
    ghost var initial := state.output;
    ghost var compiled := state.compiledReleases;
    var i := 0;
    while i < |selected|
      invariant 0 <= i <= |selected|
      invariant Ready(state, i > 0)
      invariant SameOcids(compiled, state.compiledReleases)
      invariant Get(state.output, "id") == Get(initial, "id")
    {
      assert i == 0 ==> selected[i] == ContractingProcessSetup;
      IdUntouched(selected[i]);
      ApplyTransform(state, selected[i], now, budgetTotal, i > 0);
      i := i + 1;
    }
    project := state.output;
  }
}
