/** The OC4IDS transforms that fill in project-level fields: sector,
    classifications, title, locations, budget, purpose and description. */
module Oc4idsProject {
  import opened Outcomes
  import opened JsonValues
  import opened Oc4idsState
  import opened Oc4idsCopy

  /** `resolve_pointer(compiled_release, path, None)`. */
  function ValueAt(compiledRelease: map<string, Json>, path: seq<string>): Json {
    Resolve(Obj(compiledRelease), path, Null)
  }

  /** The value at `path` in the first compiled release where it is truthy. */
  function FirstTruthy(compiledReleases: seq<map<string, Json>>, path: seq<string>): Option<Json> {
    if compiledReleases == [] then None
    else if Truthy(ValueAt(compiledReleases[0], path)) then Some(ValueAt(compiledReleases[0], path))
    else FirstTruthy(compiledReleases[1..], path)
  }

  /** There is a first truthy value exactly when some compiled release has a
      truthy value at `path`, and it comes from the first such release. */
  lemma {:induction false} FirstTruthyIsFirst(compiledReleases: seq<map<string, Json>>, path: seq<string>)
    ensures FirstTruthy(compiledReleases, path).None? <==>
              forall k :: 0 <= k < |compiledReleases| ==> !Truthy(ValueAt(compiledReleases[k], path))
    ensures FirstTruthy(compiledReleases, path).Some? ==>
              exists k :: 0 <= k < |compiledReleases| &&
                FirstTruthy(compiledReleases, path).value == ValueAt(compiledReleases[k], path) &&
                Truthy(ValueAt(compiledReleases[k], path)) &&
                forall j :: 0 <= j < k ==> !Truthy(ValueAt(compiledReleases[j], path))
  {
    if compiledReleases != [] && !Truthy(ValueAt(compiledReleases[0], path)) {
      var rest := compiledReleases[1..];
      FirstTruthyIsFirst(rest, path);
      assert forall k :: 0 < k < |compiledReleases| ==> compiledReleases[k] == rest[k - 1];
      if FirstTruthy(rest, path).Some? {
        var k :| 0 <= k < |rest| && FirstTruthy(rest, path).value == ValueAt(rest[k], path) &&
                 Truthy(ValueAt(rest[k], path)) && forall j :: 0 <= j < k ==> !Truthy(ValueAt(rest[j], path));
        assert compiledReleases[k + 1] == rest[k];
      }
    }
  }

  /** The loop shared by `sector`, `additional_classifications`, `title` and
      `title_from_tender`: the first truthy value at `path` is stored under
      `key`, and the search stops there. */
  method CopyFirstTruthy(state: TransformState, path: seq<string>, key: string) returns (success: bool)
    modifies state
    ensures state.compiledReleases == old(state.compiledReleases)
    ensures success <==> FirstTruthy(state.compiledReleases, path).Some?
    ensures state.output == match FirstTruthy(state.compiledReleases, path)
                            case Some(value) => old(state.output)[key := value]
                            case None => old(state.output)
  {
    var compiledReleases := state.compiledReleases;
    success := false;
    var i := 0;
    while i < |compiledReleases|
      invariant 0 <= i <= |compiledReleases|
      invariant state.compiledReleases == compiledReleases
      invariant FirstTruthy(compiledReleases, path) == FirstTruthy(compiledReleases[i..], path)
      invariant state.output == old(state.output) && !success
    {
      var value := ValueAt(compiledReleases[i], path);
      assert compiledReleases[i..][0] == compiledReleases[i] && compiledReleases[i..][1..] == compiledReleases[i + 1..];
      if Truthy(value) {
        state.output := state.output[key := value];
        success := true;
        return;
      }
      i := i + 1;
    }
  }

  /** `sector`: the first truthy `planning.project.sector`. */
  method Sector(state: TransformState) returns (success: bool)
    modifies state
    ensures state.compiledReleases == old(state.compiledReleases)
    ensures var first := FirstTruthy(state.compiledReleases, ["planning", "project", "sector"]);
            (success <==> first.Some?) &&
            state.output == if first.Some? then old(state.output)["sector" := first.value] else old(state.output)
  {
    success := CopyFirstTruthy(state, ["planning", "project", "sector"], "sector");
  }

  /** `additional_classifications`: the first truthy
      `planning.project.additionalClassifications`. */
  method AdditionalClassifications(state: TransformState) returns (success: bool)
    modifies state
    ensures state.compiledReleases == old(state.compiledReleases)
    ensures var first := FirstTruthy(state.compiledReleases, ["planning", "project", "additionalClassifications"]);
            (success <==> first.Some?) &&
            state.output == if first.Some? then old(state.output)["additionalClassifications" := first.value]
                            else old(state.output)
  {
    success := CopyFirstTruthy(state, ["planning", "project", "additionalClassifications"], "additionalClassifications");
  }

  /** `title`: the first truthy `planning.project.title`. */
  method Title(state: TransformState) returns (success: bool)
    modifies state
    ensures state.compiledReleases == old(state.compiledReleases)
    ensures var first := FirstTruthy(state.compiledReleases, ["planning", "project", "title"]);
            (success <==> first.Some?) &&
            state.output == if first.Some? then old(state.output)["title" := first.value] else old(state.output)
  {
    success := CopyFirstTruthy(state, ["planning", "project", "title"], "title");
  }

  /** `title_from_tender`: a truthy title is kept; otherwise the first
      truthy `tender.title`. */
  method TitleFromTender(state: TransformState) returns (success: bool)
    modifies state
    ensures state.compiledReleases == old(state.compiledReleases)
    ensures Truthy(Get(old(state.output), "title")) ==> success && state.output == old(state.output)
    ensures !Truthy(Get(old(state.output), "title")) ==>
              var first := FirstTruthy(state.compiledReleases, ["tender", "title"]);
              (success <==> first.Some?) &&
              state.output == if first.Some? then old(state.output)["title" := first.value] else old(state.output)
  {
    if Truthy(Get(state.output, "title")) {
      return true;
    }
    success := CopyFirstTruthy(state, ["tender", "title"], "title");
  }

  /** `planning.project.locations` of a compiled release. */
  function ProjectLocations(compiledRelease: map<string, Json>): Json {
    ValueAt(compiledRelease, ["planning", "project", "locations"])
  }

  /** Truthy locations are a list, a string or a dict; a number or `true`
      makes `extend` raise `TypeError`. */
  predicate LocationsExtendable(compiledReleases: seq<map<string, Json>>) {
    forall k :: 0 <= k < |compiledReleases| && Truthy(ProjectLocations(compiledReleases[k])) ==>
      Iterable(ProjectLocations(compiledReleases[k]))
  }

  /** The locations of all compiled releases, in order. */
  function AllLocations(compiledReleases: seq<map<string, Json>>): seq<Json> {
    if compiledReleases == [] then []
    else
      var locations := ProjectLocations(compiledReleases[|compiledReleases| - 1]);
      AllLocations(compiledReleases[..|compiledReleases| - 1]) + (if Truthy(locations) then Extension(locations) else [])
  }

  /** With extendable locations, some location is collected exactly when
      some compiled release has truthy locations. */
  lemma {:induction false} AllLocationsFound(compiledReleases: seq<map<string, Json>>)
    requires LocationsExtendable(compiledReleases)
    ensures AllLocations(compiledReleases) != [] <==>
              exists k :: 0 <= k < |compiledReleases| && Truthy(ProjectLocations(compiledReleases[k]))
  {
    if compiledReleases != [] {
      var n := |compiledReleases|;
      var init := compiledReleases[..n - 1];
      assert forall k :: 0 <= k < n - 1 ==> init[k] == compiledReleases[k];
      AllLocationsFound(init);
      ExtensionAdds(ProjectLocations(compiledReleases[n - 1]));
    }
  }

  /** `location`: every compiled release's truthy locations are collected
      in order; the project gets them when there are any. */
  method Location(state: TransformState) returns (success: bool)
    modifies state
    requires LocationsExtendable(state.compiledReleases)
    ensures state.compiledReleases == old(state.compiledReleases)
    ensures success <==> exists k :: 0 <= k < |state.compiledReleases| && Truthy(ProjectLocations(state.compiledReleases[k]))
    ensures var all := AllLocations(state.compiledReleases);
            state.output == if all != [] then old(state.output)["locations" := Arr(all)] else old(state.output)
  {
    var compiledReleases := state.compiledReleases;
    success := false;
    var allLocations: seq<Json> := [];
    for i := 0 to |compiledReleases|
      invariant allLocations == AllLocations(compiledReleases[..i])
      invariant success <==> exists k :: 0 <= k < i && Truthy(ProjectLocations(compiledReleases[k]))
    {
      var locations := ProjectLocations(compiledReleases[i]);
      assert compiledReleases[..i + 1][..i] == compiledReleases[..i];
      if Truthy(locations) {
        allLocations := allLocations + Extension(locations);
        success := true;
      }
    }
    assert compiledReleases[..|compiledReleases|] == compiledReleases;
    if allLocations != [] {
      state.output := state.output["locations" := Arr(allLocations)];
    }
  }

  /** The locations one tender item contributes: a truthy `deliveryLocation`
      as it is, then a truthy `deliveryAddress` wrapped as `{"address": …}`. */
  function ItemLocation(item: Json): (found: seq<Json>)
    ensures |found| <= 2
  {
    var deliveryLocation := Resolve(item, ["deliveryLocation"], Null);
    var deliveryAddress := Resolve(item, ["deliveryAddress"], Null);
    (if Truthy(deliveryLocation) then [deliveryLocation] else []) +
    (if Truthy(deliveryAddress) then [Obj(map["address" := deliveryAddress])] else [])
  }

  function ItemLocations(items: seq<Json>): seq<Json> {
    if items == [] then []
    else ItemLocations(items[..|items| - 1]) + ItemLocation(items[|items| - 1])
  }

  /** `tender.items` of a compiled release, as a list. */
  function TenderItems(compiledRelease: map<string, Json>): seq<Json> {
    AsList(Resolve(Obj(compiledRelease), ["tender", "items"], Arr([])))
  }

  /** The item locations of the first compiled release that has any. */
  function FirstItemLocations(compiledReleases: seq<map<string, Json>>): Option<seq<Json>> {
    if compiledReleases == [] then None
    else if ItemLocations(TenderItems(compiledReleases[0])) != [] then Some(ItemLocations(TenderItems(compiledReleases[0])))
    else FirstItemLocations(compiledReleases[1..])
  }

  /** Item locations are found exactly when some item of some compiled
      release has a truthy delivery location or address; what is found is
      never empty. */
  lemma {:induction false} FirstItemLocationsFound(compiledReleases: seq<map<string, Json>>)
    ensures FirstItemLocations(compiledReleases).Some? ==> FirstItemLocations(compiledReleases).value != []
    ensures FirstItemLocations(compiledReleases).Some? <==>
              exists k, j :: 0 <= k < |compiledReleases| && 0 <= j < |TenderItems(compiledReleases[k])| &&
                ItemLocation(TenderItems(compiledReleases[k])[j]) != []
  {
    if compiledReleases != [] {
      var rest := compiledReleases[1..];
      FirstItemLocationsFound(rest);
      ItemLocationsFound(TenderItems(compiledReleases[0]));
      if exists k, j :: 0 <= k < |rest| && 0 <= j < |TenderItems(rest[k])| && ItemLocation(TenderItems(rest[k])[j]) != [] {
        var k, j :| 0 <= k < |rest| && 0 <= j < |TenderItems(rest[k])| && ItemLocation(TenderItems(rest[k])[j]) != [];
        assert compiledReleases[k + 1] == rest[k];
      }
      if exists k, j :: 0 <= k < |compiledReleases| && 0 <= j < |TenderItems(compiledReleases[k])| &&
                         ItemLocation(TenderItems(compiledReleases[k])[j]) != [] {
        var k, j :| 0 <= k < |compiledReleases| && 0 <= j < |TenderItems(compiledReleases[k])| &&
                    ItemLocation(TenderItems(compiledReleases[k])[j]) != [];
        if k > 0 {
          assert rest[k - 1] == compiledReleases[k];
        }
      }
    }
  }

  /** One step of the search for item locations from position `i`. */
  lemma FirstItemLocationsStep(compiledReleases: seq<map<string, Json>>, i: nat)
    requires i < |compiledReleases|
    ensures var here := ItemLocations(TenderItems(compiledReleases[i]));
            FirstItemLocations(compiledReleases[i..]) ==
              if here != [] then Some(here) else FirstItemLocations(compiledReleases[i + 1..])
  {
    assert compiledReleases[i..][0] == compiledReleases[i] && compiledReleases[i..][1..] == compiledReleases[i + 1..];
  }

  lemma {:induction false} ItemLocationsFound(items: seq<Json>)
    ensures ItemLocations(items) != [] <==> exists j :: 0 <= j < |items| && ItemLocation(items[j]) != []
  {
    if items != [] {
      var init := items[..|items| - 1];
      ItemLocationsFound(init);
      assert forall j :: 0 <= j < |init| ==> init[j] == items[j];
    }
  }

  /** The inner loop of `location_from_items`, over one compiled release's
      tender items. */
  method CollectItemLocations(items: seq<Json>) returns (locations: seq<Json>)
    ensures locations == ItemLocations(items)
  {
    locations := [];
    for j := 0 to |items|
      invariant locations == ItemLocations(items[..j])
    {
      var item := items[j];
      assert items[..j + 1][..j] == items[..j];
      var deliveryLocation := Resolve(item, ["deliveryLocation"], Null);
      if Truthy(deliveryLocation) {
        locations := locations + [deliveryLocation];
      }
      var deliveryAddress := Resolve(item, ["deliveryAddress"], Null);
      if Truthy(deliveryAddress) {
        locations := locations + [Obj(map["address" := deliveryAddress])];
      }
    }
    assert items[..|items|] == items;
  }

  /** `location_from_items`: truthy project locations are kept; otherwise the
      project takes the item locations of the first compiled release that
      has any. */
  method LocationFromItems(state: TransformState) returns (success: bool)
    modifies state
    ensures state.compiledReleases == old(state.compiledReleases)
    ensures Truthy(Get(old(state.output), "locations")) ==> success && state.output == old(state.output)
    ensures !Truthy(Get(old(state.output), "locations")) ==>
              var first := FirstItemLocations(state.compiledReleases);
              (success <==> first.Some?) &&
              state.output == if first.Some? then old(state.output)["locations" := Arr(first.value)] else old(state.output)
  {
    if Truthy(Get(state.output, "locations")) {
      return true;
    }
    success := false;
    var compiledReleases := state.compiledReleases;
    var locations: seq<Json> := [];
    var i := 0;
    while i < |compiledReleases|
      invariant 0 <= i <= |compiledReleases|
      invariant state.compiledReleases == compiledReleases
      invariant FirstItemLocations(compiledReleases) == FirstItemLocations(compiledReleases[i..])
      invariant state.output == old(state.output) && !success && locations == []
    {
      var found := CollectItemLocations(TenderItems(compiledReleases[i]));
      FirstItemLocationsStep(compiledReleases, i);
      assert [] + found == found;
      locations := locations + found;
      if |locations| > 0 {
        state.output := state.output["locations" := Arr(locations)];
        success := true;
        return;
      }
      i := i + 1;
    }
    assert compiledReleases[i..] == [];
  }

  /** `planning.budget.amount`: a release's budget, copied whole when it is
      the only release. */
  function BudgetAmount(compiledRelease: map<string, Json>): Json {
    ValueAt(compiledRelease, ["planning", "budget", "amount"])
  }

  /** `planning.budget.amount.amount`, which `budget` casts to float. */
  function BudgetSum(compiledRelease: map<string, Json>): Json {
    ValueAt(compiledRelease, ["planning", "budget", "amount", "amount"])
  }

  /** `planning.budget.amount.currency`. */
  function BudgetCurrency(compiledRelease: map<string, Json>): Json {
    ValueAt(compiledRelease, ["planning", "budget", "amount", "currency"])
  }

  /** The value a Python set holds in place of `value`: `True` equals `1`
      and `False` equals `0`, so they count as one member. */
  function SetKey(value: Json): Json {
    if value.Bool? then Int(if value.b then 1 else 0) else value
  }

  /** `budget_currencies` after the loop of `budget`. */
  function BudgetCurrencies(compiledReleases: seq<map<string, Json>>): set<Json> {
    if compiledReleases == [] then {}
    else
      BudgetCurrencies(compiledReleases[..|compiledReleases| - 1]) +
      {SetKey(BudgetCurrency(compiledReleases[|compiledReleases| - 1]))}
  }

  /** What the loop of `budget` demands of a release: `float()` of its
      amount does not raise `TypeError` (it is a number, a string or a
      boolean), and its currency can be a set member. */
  predicate BudgetSummable(compiledRelease: map<string, Json>) {
    var amount := BudgetSum(compiledRelease);
    (amount.Int? || amount.Str? || amount.Bool?) &&
    !BudgetCurrency(compiledRelease).Arr? && !BudgetCurrency(compiledRelease).Obj?
  }

  predicate BudgetsSummable(compiledReleases: seq<map<string, Json>>) {
    forall k :: 0 <= k < |compiledReleases| ==> BudgetSummable(compiledReleases[k])
  }

  /** A currency is collected exactly when some release has it. */
  lemma {:induction false} BudgetCurrenciesMembers(compiledReleases: seq<map<string, Json>>)
    ensures forall c :: c in BudgetCurrencies(compiledReleases) <==>
              exists k :: 0 <= k < |compiledReleases| && c == SetKey(BudgetCurrency(compiledReleases[k]))
  {
    if compiledReleases != [] {
      var init := compiledReleases[..|compiledReleases| - 1];
      BudgetCurrenciesMembers(init);
      assert forall k :: 0 <= k < |init| ==> init[k] == compiledReleases[k];
    }
  }

  /** The releases share one currency (as a Python set compares them)
      exactly when the collected set has one member. */
  lemma BudgetCurrenciesAgree(compiledReleases: seq<map<string, Json>>)
    requires compiledReleases != []
    ensures |BudgetCurrencies(compiledReleases)| == 1 <==>
              forall k :: 0 <= k < |compiledReleases| ==>
                SetKey(BudgetCurrency(compiledReleases[k])) == SetKey(BudgetCurrency(compiledReleases[0]))
  {
    var currencies := BudgetCurrencies(compiledReleases);
    var first := SetKey(BudgetCurrency(compiledReleases[0]));
    BudgetCurrenciesMembers(compiledReleases);
    assert first in currencies;
    if forall k :: 0 <= k < |compiledReleases| ==> SetKey(BudgetCurrency(compiledReleases[k])) == first {
      assert currencies == {first};
    }
    if |currencies| == 1 {
      assert |currencies - {first}| == 0;
      forall k | 0 <= k < |compiledReleases|
        ensures SetKey(BudgetCurrency(compiledReleases[k])) == first
      {
        assert SetKey(BudgetCurrency(compiledReleases[k])) in currencies;
      }
    }
  }

  /** The budget of several releases: `total` in the given currency. */
  function TotalBudget(total: Json, currency: Json): Json {
    Obj(map["amount" := Obj(map["amount" := total, "currency" := currency])])
  }

  /** `budget`. A single compiled release gives its truthy budget amount as
      it is. Several give `total`, which stands for the float sum of their
      amounts, in the first release's currency, unless their currencies
      differ. */
  method Budget(state: TransformState, total: Json) returns (success: bool)
    modifies state
    requires state.compiledReleases != []
    requires |state.compiledReleases| > 1 ==> BudgetsSummable(state.compiledReleases)
    ensures state.compiledReleases == old(state.compiledReleases)
    ensures |state.compiledReleases| == 1 ==>
              var value := BudgetAmount(state.compiledReleases[0]);
              (success <==> Truthy(value)) &&
              state.output == if Truthy(value) then old(state.output)["budget" := Obj(map["amount" := value])]
                              else old(state.output)
    ensures |state.compiledReleases| > 1 ==>
              (success <==> |BudgetCurrencies(state.compiledReleases)| == 1) &&
              state.output == if success then
                                old(state.output)["budget" := TotalBudget(total, BudgetCurrency(state.compiledReleases[0]))]
                              else old(state.output)
  {
    var compiledReleases := state.compiledReleases;
    if |compiledReleases| == 1 {
      var value := BudgetAmount(compiledReleases[0]);
      if Truthy(value) {
        state.output := state.output["budget" := Obj(map["amount" := value])];
        return true;
      }
      return false;
    }
    var currencies: set<Json> := {};
    for i := 0 to |compiledReleases|
      invariant currencies == BudgetCurrencies(compiledReleases[..i])
    {
      assert compiledReleases[..i + 1][..i] == compiledReleases[..i];
      currencies := currencies + {SetKey(BudgetCurrency(compiledReleases[i]))};
    }
    assert compiledReleases[..|compiledReleases|] == compiledReleases;
    BudgetCurrenciesMembers(compiledReleases);
    assert SetKey(BudgetCurrency(compiledReleases[0])) in currencies;
    if |currencies| > 1 {
      return false;
    }
    // A set keeps the first of equal members, so `next(iter(...))` is the
    // first release's currency.
    state.output := state.output["budget" := TotalBudget(total, BudgetCurrency(compiledReleases[0]))];
    success := true;
  }

  /** The rule shared by `purpose`, `description` and `description_tender`:
      with one compiled release its truthy value at `path` is taken as it
      is; with several, their `<ocid> value` lines are joined. */
  method SingleOrConcat(state: TransformState, path: seq<string>, key: string) returns (success: bool)
    modifies state
    ensures state.compiledReleases == old(state.compiledReleases)
    ensures |state.compiledReleases| == 1 ==>
              var value := ValueAt(state.compiledReleases[0], path);
              (success <==> Truthy(value)) &&
              state.output == if Truthy(value) then old(state.output)[key := value] else old(state.output)
    ensures |state.compiledReleases| != 1 ==>
              (success <==> state.compiledReleases != []) &&
              state.output == if state.compiledReleases != [] then old(state.output)[key := Str(OcidLines(state.compiledReleases, path))]
                              else old(state.output)
  {
    if |state.compiledReleases| == 1 {
      var value := ValueAt(state.compiledReleases[0], path);
      if Truthy(value) {
        state.output := state.output[key := value];
        return true;
      }
    } else {
      var strings := ConcatOcidAndString(state, path);
      if strings != "" {
        state.output := state.output[key := Str(strings)];
        return true;
      }
    }
    return false;
  }

  /** `purpose`: from `planning.rationale`. */
  method Purpose(state: TransformState) returns (success: bool)
    modifies state
    ensures state.compiledReleases == old(state.compiledReleases)
    ensures |state.compiledReleases| == 1 ==>
              var value := ValueAt(state.compiledReleases[0], ["planning", "rationale"]);
              (success <==> Truthy(value)) &&
              state.output == if Truthy(value) then old(state.output)["purpose" := value] else old(state.output)
    ensures |state.compiledReleases| != 1 ==>
              (success <==> state.compiledReleases != []) &&
              state.output == if state.compiledReleases != [] then
                                old(state.output)["purpose" := Str(OcidLines(state.compiledReleases, ["planning", "rationale"]))]
                              else old(state.output)
  {
    success := SingleOrConcat(state, ["planning", "rationale"], "purpose");
  }

  /** `description`: from `planning.project.description`. */
  method Description(state: TransformState) returns (success: bool)
    modifies state
    ensures state.compiledReleases == old(state.compiledReleases)
    ensures |state.compiledReleases| == 1 ==>
              var value := ValueAt(state.compiledReleases[0], ["planning", "project", "description"]);
              (success <==> Truthy(value)) &&
              state.output == if Truthy(value) then old(state.output)["description" := value] else old(state.output)
    ensures |state.compiledReleases| != 1 ==>
              (success <==> state.compiledReleases != []) &&
              state.output == if state.compiledReleases != [] then
                                old(state.output)["description" :=
                                  Str(OcidLines(state.compiledReleases, ["planning", "project", "description"]))]
                              else old(state.output)
  {
    success := SingleOrConcat(state, ["planning", "project", "description"], "description");
  }

  /** `description_tender`: a truthy description is kept; otherwise from
      `tender.description`. */
  method DescriptionTender(state: TransformState) returns (success: bool)
    modifies state
    ensures state.compiledReleases == old(state.compiledReleases)
    ensures Truthy(Get(old(state.output), "description")) ==> success && state.output == old(state.output)
    ensures !Truthy(Get(old(state.output), "description")) && |state.compiledReleases| == 1 ==>
              var value := ValueAt(state.compiledReleases[0], ["tender", "description"]);
              (success <==> Truthy(value)) &&
              state.output == if Truthy(value) then old(state.output)["description" := value] else old(state.output)
    ensures !Truthy(Get(old(state.output), "description")) && |state.compiledReleases| != 1 ==>
              (success <==> state.compiledReleases != []) &&
              state.output == if state.compiledReleases != [] then
                                old(state.output)["description" :=
                                  Str(OcidLines(state.compiledReleases, ["tender", "description"]))]
                              else old(state.output)
  {
    if Truthy(Get(state.output, "description")) {
      return true;
    }
    success := SingleOrConcat(state, ["tender", "description"], "description");
  }
}
