/** The `funding_sources` transform: the source parties of each compiled
    release's budget breakdowns become funders, both in the compiled release
    and in the project; with no funders found the parties that already have
    the `funder` role are copied instead. */
module Oc4idsFunding {
  import opened JsonValues
  import opened Oc4idsState
  import opened Oc4idsCopy

  /** The party with `funder` added to a non-empty roles list, or with its
      roles replaced by `["funder"]` when they are missing, empty or not a
      list. */
  function AsFunder(party: map<string, Json>): (funder: map<string, Json>)
    ensures HasRole(Obj(funder), "funder")
  {
    var roles := AsList(Get(party, "roles"));
    if roles != [] then party["roles" := Arr(roles + [Str("funder")])]
    else party["roles" := Arr([Str("funder")])]
  }

  /** A funder keeps every member of the party but its roles, keeps every
      role the party had, and gains exactly one more role, `funder`. */
  lemma AsFunderKeeps(party: map<string, Json>)
    ensures Updates(party, AsFunder(party), "roles", AsFunder(party)["roles"])
    ensures AsList(Get(AsFunder(party), "roles")) == AsList(Get(party, "roles")) + [Str("funder")]
  {
  }

  /** The source test: `check_type(party, dict).get("id") == party_id`. */
  predicate IsSource(party: Json, partyId: Json) {
    party.Obj? && Get(party.fields, "id") == partyId
  }

  /** The parties after one breakdown: each party whose id is `partyId` is
      now a funder, in place. */
  function MarkSources(parties: seq<Json>, partyId: Json): (marked: seq<Json>)
    ensures |marked| == |parties|
  {
    seq(|parties|, j requires 0 <= j < |parties| =>
      if IsSource(parties[j], partyId) then Obj(AsFunder(parties[j].fields)) else parties[j])
  }

  /** The funders one breakdown appends to the project, in party order. */
  function MarkedSources(parties: seq<Json>, partyId: Json): seq<Json> {
    if parties == [] then []
    else
      var last := parties[|parties| - 1];
      MarkedSources(parties[..|parties| - 1], partyId) + (if IsSource(last, partyId) then [Obj(AsFunder(last.fields))] else [])
  }

  /** Every appended funder has the `funder` role and the breakdown's party
      id. */
  lemma {:induction false} MarkedSourcesAreFunders(parties: seq<Json>, partyId: Json)
    ensures forall x :: x in MarkedSources(parties, partyId) ==> HasRole(x, "funder") && Field(x, "id") == partyId
  {
    if parties != [] {
      MarkedSourcesAreFunders(parties[..|parties| - 1], partyId);
    }
  }

  /** Nothing is appended exactly when no party is a source, and then the
      parties are unchanged. */
  lemma {:induction false} MarkedSourcesNone(parties: seq<Json>, partyId: Json)
    ensures MarkedSources(parties, partyId) == [] <==> forall j :: 0 <= j < |parties| ==> !IsSource(parties[j], partyId)
    ensures MarkedSources(parties, partyId) == [] ==> MarkSources(parties, partyId) == parties
  {
    if parties != [] {
      var init := parties[..|parties| - 1];
      MarkedSourcesNone(init, partyId);
      assert forall j :: 0 <= j < |init| ==> init[j] == parties[j];
    }
  }

  /** One step of the inner loop: the first `j + 1` parties. */
  lemma MarkedSourcesStep(parties: seq<Json>, partyId: Json, j: nat)
    requires j < |parties|
    ensures MarkedSources(parties[..j + 1], partyId) ==
              MarkedSources(parties[..j], partyId) +
              (if IsSource(parties[j], partyId) then [Obj(AsFunder(parties[j].fields))] else [])
  {
    assert parties[..j + 1][..j] == parties[..j];
  }

  /** The parties of a compiled release and the funders appended so far. */
  datatype Funded = Funded(parties: seq<Json>, funders: seq<Json>)

  /** `check_type(resolve_pointer(breakdown, "/sourceParty", None), dict).get("id")`. */
  function BreakdownSource(breakdown: Json): Json {
    Get(AsObject(Resolve(breakdown, ["sourceParty"], Null)), "id")
  }

  /** The breakdowns in turn: each with a truthy source party id marks the
      matching parties, as far as there are parties at all. */
  function FundBreakdowns(parties: seq<Json>, breakdowns: seq<Json>): (funded: Funded)
    ensures |funded.parties| == |parties|
  {
    if breakdowns == [] then Funded(parties, [])
    else
      var before := FundBreakdowns(parties, breakdowns[..|breakdowns| - 1]);
      var partyId := BreakdownSource(breakdowns[|breakdowns| - 1]);
      if before.parties != [] && Truthy(partyId) then
        Funded(MarkSources(before.parties, partyId), before.funders + MarkedSources(before.parties, partyId))
      else before
  }

  /** Every funder has the `funder` role and a truthy id; when no funder is
      found the parties are as they were. */
  lemma {:induction false} FundBreakdownsFunders(parties: seq<Json>, breakdowns: seq<Json>)
    ensures forall x :: x in FundBreakdowns(parties, breakdowns).funders ==> HasRole(x, "funder") && Truthy(Field(x, "id"))
    ensures FundBreakdowns(parties, breakdowns).funders == [] ==> FundBreakdowns(parties, breakdowns).parties == parties
  {
    if breakdowns != [] {
      var init := breakdowns[..|breakdowns| - 1];
      FundBreakdownsFunders(parties, init);
      var before := FundBreakdowns(parties, init);
      var partyId := BreakdownSource(breakdowns[|breakdowns| - 1]);
      if before.parties != [] && Truthy(partyId) {
        MarkedSourcesAreFunders(before.parties, partyId);
        MarkedSourcesNone(before.parties, partyId);
      }
    }
  }

  /** `planning.budget.budgetBreakdown` as a list. */
  function BudgetBreakdowns(compiledRelease: map<string, Json>): seq<Json> {
    AsList(Resolve(Obj(compiledRelease), ["planning", "budget", "budgetBreakdown"], Null))
  }

  function FundRelease(compiledRelease: map<string, Json>): Funded {
    FundBreakdowns(Parties(compiledRelease), BudgetBreakdowns(compiledRelease))
  }

  /** The compiled release with its parties marked. */
  function FundedRelease(compiledRelease: map<string, Json>): map<string, Json> {
    if Get(compiledRelease, "parties").Arr? then compiledRelease["parties" := Arr(FundRelease(compiledRelease).parties)]
    else compiledRelease
  }

  /** Only the parties of a compiled release change, and only when funders
      are found in it. */
  lemma FundedReleaseChanges(compiledRelease: map<string, Json>)
    ensures FundRelease(compiledRelease).funders == [] ==> FundedRelease(compiledRelease) == compiledRelease
    ensures forall key :: key != "parties" ==>
              (key in FundedRelease(compiledRelease) <==> key in compiledRelease) &&
              (key in compiledRelease ==> FundedRelease(compiledRelease)[key] == compiledRelease[key])
  {
    FundBreakdownsFunders(Parties(compiledRelease), BudgetBreakdowns(compiledRelease));
  }

  /** Marking sources turns dicts into dicts only. */
  lemma {:induction false} FundBreakdownsKeepsObjects(parties: seq<Json>, breakdowns: seq<Json>)
    requires forall party :: party in parties ==> party.Obj?
    ensures forall party :: party in FundBreakdowns(parties, breakdowns).parties ==> party.Obj?
  {
    if breakdowns != [] {
      var init := breakdowns[..|breakdowns| - 1];
      FundBreakdownsKeepsObjects(parties, init);
      var before := FundBreakdowns(parties, init);
      var partyId := BreakdownSource(breakdowns[|breakdowns| - 1]);
      if before.parties != [] && Truthy(partyId) {
        var marked := MarkSources(before.parties, partyId);
        forall party | party in marked
          ensures party.Obj?
        {
          var j :| 0 <= j < |marked| && marked[j] == party;
          assert before.parties[j] in before.parties;
        }
      }
    }
  }

  /** A compiled release whose parties are dicts keeps them dicts. */
  lemma FundedReleaseKeepsObjects(compiledRelease: map<string, Json>)
    requires forall party :: party in Parties(compiledRelease) ==> party.Obj?
    ensures forall party :: party in Parties(FundedRelease(compiledRelease)) ==> party.Obj?
  {
    FundBreakdownsKeepsObjects(Parties(compiledRelease), BudgetBreakdowns(compiledRelease));
  }

  /** The funders of all compiled releases, in order. */
  function AllFunders(compiledReleases: seq<map<string, Json>>): seq<Json> {
    if compiledReleases == [] then []
    else AllFunders(compiledReleases[..|compiledReleases| - 1]) + FundRelease(compiledReleases[|compiledReleases| - 1]).funders
  }

  lemma {:induction false} AllFundersNone(compiledReleases: seq<map<string, Json>>)
    ensures AllFunders(compiledReleases) == [] <==>
              forall k :: 0 <= k < |compiledReleases| ==> FundRelease(compiledReleases[k]).funders == []
  {
    if compiledReleases != [] {
      var n := |compiledReleases|;
      var init := compiledReleases[..n - 1];
      var last := FundRelease(compiledReleases[n - 1]).funders;
      AllFundersNone(init);
      assert AllFunders(compiledReleases) == AllFunders(init) + last;
      if AllFunders(compiledReleases) == [] {
        forall k | 0 <= k < n
          ensures FundRelease(compiledReleases[k]).funders == []
        {
          if k < n - 1 {
            assert init[k] == compiledReleases[k];
          }
        }
      } else if AllFunders(init) != [] {
        var k :| 0 <= k < |init| && FundRelease(init[k]).funders != [];
        assert init[k] == compiledReleases[k];
      }
    }
  }

  /** The project's parties before the transform: kept when truthy, else
      reset to an empty list. */
  function ExistingParties(output: map<string, Json>): seq<Json> {
    if Truthy(Get(output, "parties")) then AsList(Get(output, "parties")) else []
  }

  /** The project has no parties after the first compiled release, so the
      parties with the `funder` role are copied. */
  predicate CopiesFunders(output: map<string, Json>, compiledReleases: seq<map<string, Json>>) {
    ExistingParties(output) == [] && compiledReleases != [] && FundRelease(compiledReleases[0]).funders == []
  }

  /** What the funders found are appended to: the parties the project had,
      or, once the first compiled release brought no funders to a project
      without parties, the copies of the `funder` parties. */
  function FundingHead(output: map<string, Json>, compiledReleases: seq<map<string, Json>>, i: nat): seq<Json> {
    if CopiesFunders(output, compiledReleases) && i > 0 then RoleCopies(compiledReleases, "funder", [])
    else ExistingParties(output)
  }

  /** The project's parties after the first `i` compiled releases. */
  function PartiesAfter(output: map<string, Json>, compiledReleases: seq<map<string, Json>>, i: nat): seq<Json>
    requires i <= |compiledReleases|
  {
    FundingHead(output, compiledReleases, i) + AllFunders(compiledReleases[..i])
  }

  /** The inner loop over the parties for one breakdown. */
  method MarkSourcesInPlace(parties: seq<Json>, partyId: Json) returns (marked: seq<Json>, funders: seq<Json>)
    ensures marked == MarkSources(parties, partyId)
    ensures funders == MarkedSources(parties, partyId)
  {
    marked := parties;
    funders := [];
    for j := 0 to |parties|
      invariant |marked| == |parties|
      invariant forall m :: 0 <= m < j ==> marked[m] == MarkSources(parties, partyId)[m]
      invariant forall m :: j <= m < |parties| ==> marked[m] == parties[m]
      invariant funders == MarkedSources(parties[..j], partyId)
    {
      MarkedSourcesStep(parties, partyId, j);
      var party := parties[j];
      if party.Obj? && Get(party.fields, "id") == partyId {
        var funder := Obj(AsFunder(party.fields));
        marked := marked[j := funder];
        funders := funders + [funder];
      }
    }
    assert parties[..|parties|] == parties;
  }

  /** The loop over one compiled release's budget breakdowns. */
  method FundOneRelease(compiledRelease: map<string, Json>) returns (funded: map<string, Json>, funders: seq<Json>)
    ensures funded == FundedRelease(compiledRelease)
    ensures funders == FundRelease(compiledRelease).funders
  {
    var parties := Parties(compiledRelease);
    var breakdowns := BudgetBreakdowns(compiledRelease);
    funders := [];
    for b := 0 to |breakdowns|
      invariant FundBreakdowns(Parties(compiledRelease), breakdowns[..b]) == Funded(parties, funders)
    {
      assert breakdowns[..b + 1][..b] == breakdowns[..b];
      var partyId := BreakdownSource(breakdowns[b]);
      if parties != [] && Truthy(partyId) {
        var marked, found := MarkSourcesInPlace(parties, partyId);
        parties := marked;
        funders := funders + found;
      }
    }
    assert breakdowns[..|breakdowns|] == breakdowns;
    funded := if Get(compiledRelease, "parties").Arr? then compiledRelease["parties" := Arr(parties)] else compiledRelease;
  }

  /** When the project still has no parties after the `i + 1`-th compiled
      release, no release so far had funders, so the compiled releases are
      still the original ones. */
  lemma {:induction false} NoFundersYet(compiledReleases: seq<map<string, Json>>, current: seq<map<string, Json>>, i: nat)
    requires i < |compiledReleases| == |current|
    requires AllFunders(compiledReleases[..i + 1]) == []
    requires forall k :: 0 <= k <= i ==> current[k] == FundedRelease(compiledReleases[k])
    requires forall k :: i < k < |compiledReleases| ==> current[k] == compiledReleases[k]
    ensures current == compiledReleases
  {
    AllFundersNone(compiledReleases[..i + 1]);
    forall k | 0 <= k <= i
      ensures current[k] == compiledReleases[k]
    {
      assert compiledReleases[..i + 1][k] == compiledReleases[k];
      FundedReleaseChanges(compiledReleases[k]);
    }
  }

  lemma {:induction false} AllFundersSnoc(compiledReleases: seq<map<string, Json>>, i: nat)
    requires i < |compiledReleases|
    ensures AllFunders(compiledReleases[..i + 1]) ==
            AllFunders(compiledReleases[..i]) + FundRelease(compiledReleases[i]).funders
  {
    assert compiledReleases[..i + 1][..i] == compiledReleases[..i];
  }

  /** Regrouping the parties list, for `GrownParties`. */
  lemma ConcatAssociative(a: seq<Json>, b: seq<Json>, c: seq<Json>)
    ensures (a + b) + c == a + (b + c)
  {
  }

  /** Appending one release's funders to the parties so far gives the same
      head followed by the funders of one release more. */
  lemma {:induction false} GrownParties(output: map<string, Json>, compiledReleases: seq<map<string, Json>>, i: nat)
    requires i < |compiledReleases|
    ensures PartiesAfter(output, compiledReleases, i) + FundRelease(compiledReleases[i]).funders ==
            FundingHead(output, compiledReleases, i) + AllFunders(compiledReleases[..i + 1])
  {
    AllFundersSnoc(compiledReleases, i);
    var head := FundingHead(output, compiledReleases, i);
    var pre := AllFunders(compiledReleases[..i]);
    var funders := FundRelease(compiledReleases[i]).funders;
    assert PartiesAfter(output, compiledReleases, i) == head + pre;
    ConcatAssociative(head, pre, funders);
  }

  /** No funders so far means none in the first compiled release. */
  lemma {:induction false} NoFirstFunders(compiledReleases: seq<map<string, Json>>, i: nat)
    requires i < |compiledReleases|
    requires AllFunders(compiledReleases[..i + 1]) == []
    ensures FundRelease(compiledReleases[0]).funders == []
  {
    AllFundersNone(compiledReleases[..i + 1]);
    assert compiledReleases[..i + 1][0] == compiledReleases[0];
  }

  /** The head only changes when the parties are empty after a compiled
      release: then the project had none, the first release brought no
      funders, and the head becomes the copies. */
  lemma {:induction false} FundingHeadStep(output: map<string, Json>, compiledReleases: seq<map<string, Json>>, i: nat)
    requires i < |compiledReleases|
    ensures var grown := FundingHead(output, compiledReleases, i) + AllFunders(compiledReleases[..i + 1]);
            (grown != [] ==> FundingHead(output, compiledReleases, i + 1) == FundingHead(output, compiledReleases, i)) &&
            (grown == [] ==> CopiesFunders(output, compiledReleases) &&
                             FundingHead(output, compiledReleases, i + 1) == RoleCopies(compiledReleases, "funder", []))
  {
    var post := AllFunders(compiledReleases[..i + 1]);
    if post == [] {
      NoFirstFunders(compiledReleases, i);
    }
    if i == 0 {
      AllFundersSnoc(compiledReleases, 0);
      assert compiledReleases[..0] == [];
      assert post == FundRelease(compiledReleases[0]).funders;
    }
  }

  /** One compiled release more: its funders are appended, unless the
      parties are still empty, when the copies of the `funder` parties
      take their place. */
  lemma {:induction false} PartiesAfterStep(output: map<string, Json>, compiledReleases: seq<map<string, Json>>, i: nat)
    requires i < |compiledReleases|
    ensures var grown := PartiesAfter(output, compiledReleases, i) + FundRelease(compiledReleases[i]).funders;
            (grown != [] ==> PartiesAfter(output, compiledReleases, i + 1) == grown) &&
            (grown == [] ==> CopiesFunders(output, compiledReleases) && AllFunders(compiledReleases[..i + 1]) == [] &&
                             PartiesAfter(output, compiledReleases, i + 1) == RoleCopies(compiledReleases, "funder", []))
    ensures var grown := PartiesAfter(output, compiledReleases, i) + FundRelease(compiledReleases[i]).funders;
            grown != [] ==>
              ((AllFunders(compiledReleases[..i + 1]) != [] || CopiesFunders(output, compiledReleases)) <==>
               (AllFunders(compiledReleases[..i]) != [] || (CopiesFunders(output, compiledReleases) && i > 0) ||
                FundRelease(compiledReleases[i]).funders != []))
  {
    GrownParties(output, compiledReleases, i);
    FundingHeadStep(output, compiledReleases, i);
    AllFundersSnoc(compiledReleases, i);
    if i == 0 {
      assert compiledReleases[..0] == [];
    }
    var post := AllFunders(compiledReleases[..i + 1]);
    if FundingHead(output, compiledReleases, i) + post == [] {
      assert post == [];
      assert RoleCopies(compiledReleases, "funder", []) + [] == RoleCopies(compiledReleases, "funder", []);
    }
  }

  /** Writing `parties` twice keeps only the second list, for `FundNextRelease`. */
  lemma ReplaceParties(output: map<string, Json>, before: seq<Json>, after: seq<Json>)
    ensures output["parties" := Arr(before)]["parties" := Arr(after)] == output["parties" := Arr(after)]
  {
  }

  /** Copying into an emptied parties list sets the parties to the copies. */
  lemma AppendToNoParties(output: map<string, Json>, copies: seq<Json>)
    ensures AppendParties(output["parties" := Arr([])], copies) == output["parties" := Arr(copies)]
  {
    if copies != [] {
      assert [] + copies == copies;
    }
  }

  /** The state of `funding_sources` after the first `i` compiled releases:
      those are funded, the rest untouched, the project's parties are
      `PartiesAfter` and the success flag says whether a funder was found
      or the funders were copied. */
  ghost predicate FundedUpTo(state: TransformState, original: map<string, Json>,
                             compiledReleases: seq<map<string, Json>>, i: nat, success: bool)
    reads state
  {
    i <= |compiledReleases| &&
    ReleasesFundedUpTo(state.compiledReleases, compiledReleases, i) &&
    state.output == original["parties" := Arr(PartiesAfter(original, compiledReleases, i))] &&
    (success <==> AllFunders(compiledReleases[..i]) != [] || (CopiesFunders(original, compiledReleases) && i > 0))
  }

  /** The first `i` compiled releases are funded, the rest untouched. */
  predicate ReleasesFundedUpTo(current: seq<map<string, Json>>, compiledReleases: seq<map<string, Json>>, i: nat) {
    |current| == |compiledReleases| &&
    (forall k :: 0 <= k < i && k < |current| ==> current[k] == FundedRelease(compiledReleases[k])) &&
    (forall k :: i <= k < |current| ==> current[k] == compiledReleases[k])
  }

  lemma ReleasesFundedStep(current: seq<map<string, Json>>, compiledReleases: seq<map<string, Json>>, i: nat)
    requires i < |compiledReleases|
    requires ReleasesFundedUpTo(current, compiledReleases, i)
    ensures ReleasesFundedUpTo(current[i := FundedRelease(compiledReleases[i])], compiledReleases, i + 1)
  {
  }

  /** One pass of the loop of `funding_sources`: the funders of the next
      compiled release are appended to the project's parties and, when
      those are still empty, the `funder` parties are copied. */
  method FundNextRelease(state: TransformState, ghost original: map<string, Json>,
                         ghost compiledReleases: seq<map<string, Json>>, i: nat, success: bool)
    returns (next: bool)
    modifies state
    requires i < |compiledReleases|
    requires CopiesFunders(original, compiledReleases) ==> PartiesAreObjects(compiledReleases)
    requires FundedUpTo(state, original, compiledReleases, i, success)
    ensures FundedUpTo(state, original, compiledReleases, i + 1, next)
  {
    var funded, funders := FundOneRelease(state.compiledReleases[i]);
    ReleasesFundedStep(state.compiledReleases, compiledReleases, i);
    state.compiledReleases := state.compiledReleases[i := funded];
    var parties := state.output["parties"].items;
    assert parties == PartiesAfter(original, compiledReleases, i);
    PartiesAfterStep(original, compiledReleases, i);
    ReplaceParties(original, parties, parties + funders);
    state.output := state.output["parties" := Arr(parties + funders)];
    next := success || funders != [];
    if |parties + funders| == 0 {
      NoFundersYet(compiledReleases, state.compiledReleases, i);
      AppendToNoParties(original, RoleCopies(compiledReleases, "funder", []));
      var _ := CopyPartyByRole(state, "funder", []);
      next := true;
    } else {
      assert state.output == original["parties" := Arr(PartiesAfter(original, compiledReleases, i + 1))];
    }
  }

  /** `funding_sources`. The project's parties end as the parties it had (or
      the copies of the `funder` parties, when it had none and the first
      compiled release has no funders) followed by every funder found; the
      compiled releases keep their marked parties. The project's parties
      must be falsy or a list, and the compiled releases' parties dicts when
      the copy runs. */
  method FundingSources(state: TransformState) returns (success: bool)
    modifies state
    requires !Truthy(Get(state.output, "parties")) || Get(state.output, "parties").Arr?
    requires CopiesFunders(state.output, state.compiledReleases) ==> PartiesAreObjects(state.compiledReleases)
    ensures |state.compiledReleases| == |old(state.compiledReleases)|
    ensures forall k :: 0 <= k < |state.compiledReleases| ==>
              state.compiledReleases[k] == FundedRelease(old(state.compiledReleases)[k])
    ensures state.output == old(state.output)["parties" :=
              Arr(PartiesAfter(old(state.output), old(state.compiledReleases), |old(state.compiledReleases)|))]
    ensures success <==> AllFunders(old(state.compiledReleases)) != [] ||
                         CopiesFunders(old(state.output), old(state.compiledReleases))
  {
    var compiledReleases := state.compiledReleases;
    ghost var original := state.output;
    if !Truthy(Get(state.output, "parties")) {
      state.output := state.output["parties" := Arr([])];
    }
    assert compiledReleases[..0] == [];
    assert PartiesAfter(original, compiledReleases, 0) == ExistingParties(original);
    assert state.output == original["parties" := Arr(PartiesAfter(original, compiledReleases, 0))];
    success := false;
    var i := 0;
    while i < |compiledReleases|
      invariant 0 <= i <= |compiledReleases|
      invariant FundedUpTo(state, original, compiledReleases, i, success)
    {
      success := FundNextRelease(state, original, compiledReleases, i, success);
      i := i + 1;
    }
    assert compiledReleases[..i] == compiledReleases;
  }
}
