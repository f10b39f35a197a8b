/** How the per-process OC4IDS transforms rewrite one contracting process's
    `summary` from its compiled release. Each rule is a function from the
    compiled release and the old summary to the new summary; the loop over
    the processes that applies them is in `Oc4idsProcesses`. */
module Oc4idsSummaryRules {
  import opened JsonValues
  import opened Strings
  import opened Oc4idsState
  import opened Oc4idsCopy

  /** Stores a truthy value under `summary.tender[key]`; a falsy one leaves
      the summary alone. */
  function SetTenderIfTruthy(summary: map<string, Json>, key: string, value: Json): (after: map<string, Json>)
    ensures Truthy(value) ==> UpdatesTender(summary, after, key, value)
    ensures !Truthy(value) ==> after == summary
    ensures SummaryOk(summary) ==> SummaryOk(after)
  {
    if Truthy(value) then SetTender(summary, key, value) else summary
  }

  /** `procuring_entity`: a truthy `tender.procuringEntity` is copied into
      the summary's tender. */
  function ProcuringEntityStep(compiledRelease: map<string, Json>, summary: map<string, Json>): (after: map<string, Json>)
    ensures var entity := Resolve(Obj(compiledRelease), ["tender", "procuringEntity"], Null);
            (Truthy(entity) ==> UpdatesTender(summary, after, "procuringEntity", entity)) &&
            (!Truthy(entity) ==> after == summary)
  {
    SetTenderIfTruthy(summary, "procuringEntity", Resolve(Obj(compiledRelease), ["tender", "procuringEntity"], Null))
  }

  /** The parties whose roles contain `role`, in order. */
  function PartiesWithRole(parties: seq<Json>, role: string): seq<Json> {
    if parties == [] then []
    else
      var last := parties[|parties| - 1];
      PartiesWithRole(parties[..|parties| - 1], role) + (if HasRole(last, role) then [last] else [])
  }

  /** The parties kept are exactly those with the role. */
  lemma {:induction false} PartiesWithRoleMembers(parties: seq<Json>, role: string, x: Json)
    ensures x in PartiesWithRole(parties, role) <==> x in parties && HasRole(x, role)
  {
    if parties != [] {
      var init := parties[..|parties| - 1];
      PartiesWithRoleMembers(init, role, x);
      assert parties == init + [parties[|parties| - 1]];
    }
  }

  /** Position `j` holds the only party of the list with the role. */
  predicate OnlyHolder(parties: seq<Json>, role: string, j: int) {
    0 <= j < |parties| && HasRole(parties[j], role) &&
    forall i :: 0 <= i < |parties| && i != j ==> !HasRole(parties[i], role)
  }

  /** A party without the role after the only holder keeps it the only one. */
  lemma OnlyHolderSnoc(init: seq<Json>, last: Json, role: string, j: int)
    requires OnlyHolder(init, role, j) && !HasRole(last, role)
    ensures OnlyHolder(init + [last], role, j)
  {
    var parties := init + [last];
    forall i | 0 <= i < |parties| && i != j
      ensures !HasRole(parties[i], role)
    {
      if i < |init| {
        assert parties[i] == init[i];
      }
    }
  }

  /** Exactly one party is kept when exactly one position of the list holds
      a party with the role. */
  lemma {:induction false} PartiesWithRoleSole(parties: seq<Json>, role: string)
    requires |PartiesWithRole(parties, role)| == 1
    ensures exists j :: OnlyHolder(parties, role, j) && parties[j] == PartiesWithRole(parties, role)[0]
  {
    var n := |parties|;
    var init := parties[..n - 1];
    var last := parties[n - 1];
    assert parties == init + [last];
    var kept := PartiesWithRole(parties, role);
    assert kept == PartiesWithRole(init, role) + (if HasRole(last, role) then [last] else []);
    if HasRole(last, role) {
      assert PartiesWithRole(init, role) == [];
      forall i | 0 <= i < n - 1
        ensures !HasRole(parties[i], role)
      {
        assert parties[i] == init[i];
        PartiesWithRoleMembers(init, role, init[i]);
      }
      assert OnlyHolder(parties, role, n - 1) && parties[n - 1] == kept[0];
    } else {
      assert PartiesWithRole(init, role) == kept;
      PartiesWithRoleSole(init, role);
      var j :| OnlyHolder(init, role, j) && init[j] == kept[0];
      OnlyHolderSnoc(init, last, role, j);
      assert parties[j] == init[j];
    }
  }

  /** `{"id": party.get("id"), "name": party.get("name")}`. */
  function EntityRef(party: Json): (ref: Json)
    ensures ref.Obj? && ref.fields.Keys == {"id", "name"}
    ensures ref.fields["id"] == Field(party, "id") && ref.fields["name"] == Field(party, "name")
  {
    Obj(map["id" := Field(party, "id"), "name" := Field(party, "name")])
  }

  /** `administrative_entity`: with exactly one party holding the role, the
      summary's tender refers to it by id and name; with none, or with more
      than one (which the source skips with a warning), nothing changes. */
  function AdministrativeEntityStep(compiledRelease: map<string, Json>, summary: map<string, Json>)
    : (after: map<string, Json>)
    ensures var entities := PartiesWithRole(Parties(compiledRelease), "administrativeEntity");
            (|entities| == 1 ==> UpdatesTender(summary, after, "administrativeEntity", EntityRef(entities[0]))) &&
            (|entities| != 1 ==> after == summary)
  {
    var entities := PartiesWithRole(Parties(compiledRelease), "administrativeEntity");
    if |entities| == 1 then SetTender(summary, "administrativeEntity", EntityRef(entities[0]))
    else summary
  }

  /** `check_type(compiled_release.get("tender"), dict)`. */
  function TenderIn(compiledRelease: map<string, Json>): map<string, Json> {
    AsObject(Get(compiledRelease, "tender"))
  }

  /** `procurement_process`: truthy `procurementMethod` and
      `procurementMethodDetails` of a non-empty tender are copied into the
      summary's tender; a falsy one leaves that field as it was, and every
      other field of the summary and of its tender is kept. */
  function ProcurementProcessStep(compiledRelease: map<string, Json>, summary: map<string, Json>)
    : (after: map<string, Json>)
    ensures SummaryOk(summary) ==> SummaryOk(after)
    ensures var procurementMethod := Get(TenderIn(compiledRelease), "procurementMethod");
            Truthy(procurementMethod) ==>
              "procurementMethod" in TenderOf(after) && TenderOf(after)["procurementMethod"] == procurementMethod
    ensures var details := Get(TenderIn(compiledRelease), "procurementMethodDetails");
            Truthy(details) ==>
              "procurementMethodDetails" in TenderOf(after) && TenderOf(after)["procurementMethodDetails"] == details
    ensures !Truthy(Get(TenderIn(compiledRelease), "procurementMethod")) &&
            !Truthy(Get(TenderIn(compiledRelease), "procurementMethodDetails")) ==>
              after == summary
    ensures forall key :: key !in ProcurementKeys(compiledRelease) ==>
              (key in TenderOf(after) <==> key in TenderOf(summary)) &&
              (key in TenderOf(after) ==> TenderOf(after)[key] == TenderOf(summary)[key])
    ensures forall key :: key != "tender" ==> (key in after <==> key in summary) && (key in after ==> after[key] == summary[key])
  {
    var tender := TenderIn(compiledRelease);
    if tender != map[] then
      var withMethod := SetTenderIfTruthy(summary, "procurementMethod", Get(tender, "procurementMethod"));
      SetTenderIfTruthy(withMethod, "procurementMethodDetails", Get(tender, "procurementMethodDetails"))
    else summary
  }

  /** The tender fields `procurement_process` writes: those of the two
      that are truthy in the compiled release. */
  function ProcurementKeys(compiledRelease: map<string, Json>): set<string> {
    (if Truthy(Get(TenderIn(compiledRelease), "procurementMethod")) then {"procurementMethod"} else {}) +
    (if Truthy(Get(TenderIn(compiledRelease), "procurementMethodDetails")) then {"procurementMethodDetails"} else {})
  }

  /** `number_of_tenderers`: a truthy `numberOfTenderers` of a non-empty
      tender is copied into the summary's tender. */
  function NumberOfTenderersStep(compiledRelease: map<string, Json>, summary: map<string, Json>)
    : (after: map<string, Json>)
    ensures var count := Get(TenderIn(compiledRelease), "numberOfTenderers");
            (Truthy(count) ==> UpdatesTender(summary, after, "numberOfTenderers", count)) &&
            (!Truthy(count) ==> after == summary)
  {
    var tender := TenderIn(compiledRelease);
    if tender != map[] then SetTenderIfTruthy(summary, "numberOfTenderers", Get(tender, "numberOfTenderers"))
    else summary
  }

  /** `contract_title`: the title of the only contract, else of the only
      award, else a truthy tender title; the title is copied even when the
      contract or award has none. */
  function ContractTitleStep(compiledRelease: map<string, Json>, summary: map<string, Json>): (after: map<string, Json>)
  {
    var contracts := AsList(Get(compiledRelease, "contracts"));
    var awards := AsList(GetOr(compiledRelease, "awards", Arr([])));
    var tenderTitle := Resolve(Obj(compiledRelease), ["tender", "title"], Null);
    if |contracts| == 1 then summary["title" := Field(contracts[0], "title")]
    else if |awards| == 1 then summary["title" := Field(awards[0], "title")]
    else if Truthy(tenderTitle) then summary["title" := tenderTitle]
    else summary
  }

  /** The title comes from the first source in the chain contract, award,
      tender that applies; only the summary's title changes, and when no
      source applies nothing does. */
  lemma ContractTitleChain(compiledRelease: map<string, Json>, summary: map<string, Json>)
    ensures var after := ContractTitleStep(compiledRelease, summary);
            var contracts := AsList(Get(compiledRelease, "contracts"));
            var awards := AsList(Get(compiledRelease, "awards"));
            var tenderTitle := Resolve(Obj(compiledRelease), ["tender", "title"], Null);
            (|contracts| == 1 ==> Updates(summary, after, "title", Field(contracts[0], "title"))) &&
            (|contracts| != 1 && |awards| == 1 ==> Updates(summary, after, "title", Field(awards[0], "title"))) &&
            (|contracts| != 1 && |awards| != 1 && Truthy(tenderTitle) ==> Updates(summary, after, "title", tenderTitle)) &&
            (|contracts| != 1 && |awards| != 1 && !Truthy(tenderTitle) ==> after == summary)
  {
    assert AsList(GetOr(compiledRelease, "awards", Arr([]))) == AsList(Get(compiledRelease, "awards"));
  }

  /** `suppliers`: each supplier party, by id and name, in party order. */
  function SupplierRefs(parties: seq<Json>): (refs: seq<Json>)
    ensures |refs| == |PartiesWithRole(parties, "supplier")|
    ensures forall k :: 0 <= k < |refs| ==> refs[k] == EntityRef(PartiesWithRole(parties, "supplier")[k])
  {
    var suppliers := PartiesWithRole(parties, "supplier");
    seq(|suppliers|, k requires 0 <= k < |suppliers| => EntityRef(suppliers[k]))
  }

  /** `suppliers`: the summary lists the compiled release's suppliers when
      there are any. */
  function SuppliersStep(compiledRelease: map<string, Json>, summary: map<string, Json>): (after: map<string, Json>)
    ensures var refs := SupplierRefs(Parties(compiledRelease));
            (refs != [] ==> Updates(summary, after, "suppliers", Arr(refs))) &&
            (refs == [] ==> after == summary)
  {
    var refs := SupplierRefs(Parties(compiledRelease));
    if refs != [] then summary["suppliers" := Arr(refs)] else summary
  }

  /** Every supplier reference names a party with the `supplier` role, and
      every such party is referenced. */
  lemma SupplierRefsComplete(parties: seq<Json>, party: Json)
    requires party in parties && HasRole(party, "supplier")
    ensures EntityRef(party) in SupplierRefs(parties)
  {
    PartiesWithRoleMembers(parties, "supplier", party);
    var k :| 0 <= k < |PartiesWithRole(parties, "supplier")| && PartiesWithRole(parties, "supplier")[k] == party;
    assert SupplierRefs(parties)[k] == EntityRef(party);
  }

  /** The truthy `description` of each element, in order. */
  function Descriptions(elements: seq<Json>): (found: seq<Json>)
    ensures forall k :: 0 <= k < |found| ==> Truthy(found[k])
  {
    if elements == [] then []
    else
      var description := Field(elements[|elements| - 1], "description");
      Descriptions(elements[..|elements| - 1]) + (if Truthy(description) then [description] else [])
  }

  /** The truthy descriptions of the items of each element, in order. */
  function ItemDescriptions(elements: seq<Json>): (found: seq<Json>)
    ensures forall k :: 0 <= k < |found| ==> Truthy(found[k])
  {
    if elements == [] then []
    else ItemDescriptions(elements[..|elements| - 1]) + Descriptions(AsList(Field(elements[|elements| - 1], "items")))
  }

  /** The description `contract_process_description` picks: the only truthy
      contract description, the only contract item description, the only
      award description, the only award item description, a truthy tender
      description, the only tender item description, in that order. */
  function ProcessDescription(compiledRelease: map<string, Json>): (found: Json)
    ensures found == Null || Truthy(found)
    ensures var contracts := AsList(Get(compiledRelease, "contracts"));
            var awards := AsList(Get(compiledRelease, "awards"));
            var tender := TenderIn(compiledRelease);
            found != Null ==>
              found in Descriptions(contracts) || found in ItemDescriptions(contracts) ||
              found in Descriptions(awards) || found in ItemDescriptions(awards) ||
              found == Get(tender, "description") || found in Descriptions(AsList(Get(tender, "items")))
  {
    var contracts := AsList(Get(compiledRelease, "contracts"));
    var awards := AsList(Get(compiledRelease, "awards"));
    var tender := TenderIn(compiledRelease);
    var tenderItems := Descriptions(AsList(Get(tender, "items")));
    if |Descriptions(contracts)| == 1 then Descriptions(contracts)[0]
    else if |ItemDescriptions(contracts)| == 1 then ItemDescriptions(contracts)[0]
    else if |Descriptions(awards)| == 1 then Descriptions(awards)[0]
    else if |ItemDescriptions(awards)| == 1 then ItemDescriptions(awards)[0]
    else if Truthy(Get(tender, "description")) then Get(tender, "description")
    else if |tenderItems| == 1 then tenderItems[0]
    else Null
  }

  /** `contract_process_description`: a description found is stored in the
      summary; otherwise nothing changes. */
  function DescriptionStep(compiledRelease: map<string, Json>, summary: map<string, Json>): (after: map<string, Json>)
    ensures var found := ProcessDescription(compiledRelease);
            (Truthy(found) ==> Updates(summary, after, "description", found)) &&
            (!Truthy(found) ==> after == summary)
  {
    var found := ProcessDescription(compiledRelease);
    if Truthy(found) then summary["description" := found] else summary
  }

  /** A description is taken only from a list that holds exactly one: a
      contract with a truthy description makes every later source count
      only when it is the sole such contract. */
  lemma SoleContractDescription(compiledRelease: map<string, Json>, contract: Json)
    requires AsList(Get(compiledRelease, "contracts")) == [contract]
    requires Truthy(Field(contract, "description"))
    ensures ProcessDescription(compiledRelease) == Field(contract, "description")
  {
    assert [contract][..0] == [];
  }

  /** Without contracts and awards, a truthy tender description is the
      one picked, whatever the tender's items say. */
  lemma TenderDescriptionFallback(compiledRelease: map<string, Json>)
    requires AsList(Get(compiledRelease, "contracts")) == [] && AsList(Get(compiledRelease, "awards")) == []
    requires Truthy(Get(TenderIn(compiledRelease), "description"))
    ensures ProcessDescription(compiledRelease) == Get(TenderIn(compiledRelease), "description")
  {
    assert Descriptions([]) == [] && ItemDescriptions([]) == [];
  }

  /** Two contracts with descriptions are ambiguous: when neither has
      items and there are no awards, the tender's description is picked
      instead of either. */
  lemma TwoContractDescriptionsFallThrough(compiledRelease: map<string, Json>, first: Json, second: Json)
    requires AsList(Get(compiledRelease, "contracts")) == [first, second]
    requires Truthy(Field(first, "description")) && Truthy(Field(second, "description"))
    requires AsList(Field(first, "items")) == [] && AsList(Field(second, "items")) == []
    requires AsList(Get(compiledRelease, "awards")) == []
    requires Truthy(Get(TenderIn(compiledRelease), "description"))
    ensures ProcessDescription(compiledRelease) == Get(TenderIn(compiledRelease), "description")
  {
    var contracts := [first, second];
    var none: seq<Json> := [];
    assert contracts[..1] == [first] && [first][..0] == none;
    assert Descriptions(none) == [] && ItemDescriptions(none) == [];
    assert Descriptions(contracts) == [Field(first, "description"), Field(second, "description")];
    assert ItemDescriptions([first]) == [];
    assert ItemDescriptions(contracts) == [];
  }

  /** Python's `min` on strings. */
  function MinString(xs: seq<string>): string
    requires xs != []
  {
    if |xs| == 1 then xs[0]
    else
      var m := MinString(xs[..|xs| - 1]);
      if Less(xs[|xs| - 1], m) then xs[|xs| - 1] else m
  }

  /** Python's `max` on strings. */
  function MaxString(xs: seq<string>): string
    requires xs != []
  {
    if |xs| == 1 then xs[0]
    else
      var m := MaxString(xs[..|xs| - 1]);
      if Less(m, xs[|xs| - 1]) then xs[|xs| - 1] else m
  }

  /** The minimum is one of the strings and no string is before it. */
  lemma {:induction false} MinStringIsLeast(xs: seq<string>)
    requires xs != []
    ensures MinString(xs) in xs
    ensures forall x :: x in xs ==> LessEq(MinString(xs), x)
  {
    if |xs| > 1 {
      var init := xs[..|xs| - 1];
      var last := xs[|xs| - 1];
      MinStringIsLeast(init);
      var m := MinString(init);
      assert xs == init + [last];
      forall x | x in xs
        ensures LessEq(MinString(xs), x)
      {
        if Less(last, m) {
          if x in init && x != m {
            LessTransitive(last, m, x);
          }
        } else if x == last && last != m {
          LessTotal(last, m);
        }
      }
    }
  }

  /** The maximum is one of the strings and no string is after it. */
  lemma {:induction false} MaxStringIsGreatest(xs: seq<string>)
    requires xs != []
    ensures MaxString(xs) in xs
    ensures forall x :: x in xs ==> LessEq(x, MaxString(xs))
  {
    if |xs| > 1 {
      var init := xs[..|xs| - 1];
      var last := xs[|xs| - 1];
      MaxStringIsGreatest(init);
      var m := MaxString(init);
      assert xs == init + [last];
      forall x | x in xs
        ensures LessEq(x, MaxString(xs))
      {
        if Less(m, last) {
          if x in init && x != m {
            LessTransitive(x, m, last);
          }
        } else if x == last && last != m {
          LessTotal(last, m);
        }
      }
    }
  }

  /** `check_type(award.get("contractPeriod"), dict)`. */
  function AwardPeriod(award: Json): map<string, Json> {
    AsObject(Field(award, "contractPeriod"))
  }

  /** The non-empty string start dates of the awards' contract periods. */
  function StartDates(awards: seq<Json>): (dates: seq<string>)
    ensures forall k :: 0 <= k < |dates| ==> dates[k] != ""
  {
    if awards == [] then []
    else
      var start := AsString(Get(AwardPeriod(awards[|awards| - 1]), "startDate"));
      StartDates(awards[..|awards| - 1]) + (if start != "" then [start] else [])
  }

  /** The non-empty string end dates of the awards' contract periods. */
  function EndDates(awards: seq<Json>): (dates: seq<string>)
    ensures forall k :: 0 <= k < |dates| ==> dates[k] != ""
  {
    if awards == [] then []
    else
      var end := AsString(Get(AwardPeriod(awards[|awards| - 1]), "endDate"));
      EndDates(awards[..|awards| - 1]) + (if end != "" then [end] else [])
  }

  /** The `end_dates` list as the source builds it: for each award with an
      end date, its start date. */
  function EndDatesAsWritten(awards: seq<Json>): (dates: seq<string>)
    ensures |dates| == |EndDates(awards)|
  {
    if awards == [] then []
    else
      var period := AwardPeriod(awards[|awards| - 1]);
      var start := AsString(Get(period, "startDate"));
      var end := AsString(Get(period, "endDate"));
      EndDatesAsWritten(awards[..|awards| - 1]) + (if end != "" then [start] else [])
  }

  /** `{"startDate": start, "endDate": end}`. */
  function Period(start: string, end: string): Json {
    Obj(map["startDate" := Str(start), "endDate" := Str(end)])
  }

  /** `contract_period` with the `end_dates` the source builds. */
  function ContractPeriodAsWrittenStep(compiledRelease: map<string, Json>, summary: map<string, Json>)
    : (after: map<string, Json>)
  {
    var awards := AsList(Get(compiledRelease, "awards"));
    var starts := StartDates(awards);
    var ends := EndDatesAsWritten(awards);
    var tenderPeriod := Get(TenderIn(compiledRelease), "contractPeriod");
    if starts != [] && ends != [] then summary["contractPeriod" := Period(MinString(starts), MaxString(ends))]
    else if Truthy(tenderPeriod) then summary["contractPeriod" := tenderPeriod]
    else summary
  }

  /** `contract_period` as intended: the earliest award start date and the
      latest award end date, or else a truthy tender contract period. */
  function ContractPeriodStep(compiledRelease: map<string, Json>, summary: map<string, Json>): (after: map<string, Json>)
  {
    var awards := AsList(Get(compiledRelease, "awards"));
    var starts := StartDates(awards);
    var ends := EndDates(awards);
    var tenderPeriod := Get(TenderIn(compiledRelease), "contractPeriod");
    if starts != [] && ends != [] then summary["contractPeriod" := Period(MinString(starts), MaxString(ends))]
    else if Truthy(tenderPeriod) then summary["contractPeriod" := tenderPeriod]
    else summary
  }

  /** With award dates on both ends, the contract period runs from a start
      date no award precedes to an end date no award exceeds, both taken
      from the awards; only the summary's contract period changes. */
  lemma ContractPeriodSpans(compiledRelease: map<string, Json>, summary: map<string, Json>)
    requires var awards := AsList(Get(compiledRelease, "awards"));
             StartDates(awards) != [] && EndDates(awards) != []
    ensures var awards := AsList(Get(compiledRelease, "awards"));
            var after := ContractPeriodStep(compiledRelease, summary);
            exists start, end ::
              Updates(summary, after, "contractPeriod", Period(start, end)) &&
              start in StartDates(awards) && (forall s :: s in StartDates(awards) ==> LessEq(start, s)) &&
              end in EndDates(awards) && (forall e :: e in EndDates(awards) ==> LessEq(e, end))
  {
    var awards := AsList(Get(compiledRelease, "awards"));
    MinStringIsLeast(StartDates(awards));
    MaxStringIsGreatest(EndDates(awards));
    var start, end := MinString(StartDates(awards)), MaxString(EndDates(awards));
    assert Updates(summary, ContractPeriodStep(compiledRelease, summary), "contractPeriod", Period(start, end));
  }

  /** Without award dates on both ends a truthy tender contract period is
      taken as it is. */
  lemma ContractPeriodFromTender(compiledRelease: map<string, Json>, summary: map<string, Json>)
    requires var awards := AsList(Get(compiledRelease, "awards"));
             StartDates(awards) == [] || EndDates(awards) == []
    ensures var tenderPeriod := Get(TenderIn(compiledRelease), "contractPeriod");
            var after := ContractPeriodStep(compiledRelease, summary);
            (Truthy(tenderPeriod) ==> Updates(summary, after, "contractPeriod", tenderPeriod)) &&
            (!Truthy(tenderPeriod) ==> after == summary)
  {
  }

  /** The awards of the `contract_period` test: two awards whose periods
      end in 3000. */
  function TwoAwardsRelease(): map<string, Json> {
    map["awards" := Arr([
      Obj(map["contractPeriod" := Period("2000-01-01", "3000-02-01")]),
      Obj(map["contractPeriod" := Period("1999-01-01", "3000-01-01")])])]
  }

  /** The date lists the source and the intended version build for those
      awards. */
  lemma TwoAwardsDates()
    ensures StartDates(AsList(Get(TwoAwardsRelease(), "awards"))) == ["2000-01-01", "1999-01-01"]
    ensures EndDatesAsWritten(AsList(Get(TwoAwardsRelease(), "awards"))) == ["2000-01-01", "1999-01-01"]
    ensures EndDates(AsList(Get(TwoAwardsRelease(), "awards"))) == ["3000-02-01", "3000-01-01"]
  {
    var awards := AsList(Get(TwoAwardsRelease(), "awards"));
    assert awards[..1][..0] == [] && awards[..|awards| - 1] == awards[..1];
    assert AwardPeriod(awards[0]) == AsObject(Period("2000-01-01", "3000-02-01"));
    assert AwardPeriod(awards[1]) == AsObject(Period("1999-01-01", "3000-01-01"));
  }

  lemma TwoAwardsOrder()
    ensures MinString(["2000-01-01", "1999-01-01"]) == "1999-01-01"
    ensures MaxString(["2000-01-01", "1999-01-01"]) == "2000-01-01"
    ensures MaxString(["3000-02-01", "3000-01-01"]) == "3000-02-01"
  {
    assert ["2000-01-01", "1999-01-01"][..1] == ["2000-01-01"];
    assert ["3000-02-01", "3000-01-01"][..1] == ["3000-02-01"];
    LessAtFirstDifference("1999-01-01", "2000-01-01", 0);
    LessAtFirstDifference("3000-02-01", "3000-01-01", 6);
  }

  /** As written, the combined period of those awards ends on 2000-01-01,
      the later start date, a thousand years before either award ends; as
      intended it ends on 3000-02-01. */
  lemma ContractPeriodAsWrittenEndsAtStart()
    ensures ContractPeriodAsWrittenStep(TwoAwardsRelease(), map[])["contractPeriod"] ==
              Period("1999-01-01", "2000-01-01")
    ensures ContractPeriodStep(TwoAwardsRelease(), map[])["contractPeriod"] ==
              Period("1999-01-01", "3000-02-01")
  {
    TwoAwardsDates();
    TwoAwardsOrder();
  }
}
