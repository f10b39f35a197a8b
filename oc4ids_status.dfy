/** The `contract_status` transform: each contracting process is classified
    as pre-award, active or closed from its compiled release and the current
    time, which is an ISO 8601 string compared as text. */
module Oc4idsStatus {
  import opened Outcomes
  import opened JsonValues
  import opened Strings

  /** A tender status that rules the process out of pre-award. */
  predicate ClosedTenderStatus(status: Json) {
    status == Str("cancelled") || status == Str("unsuccessful") || status == Str("withdrawn")
  }

  function TenderOfRelease(compiledRelease: map<string, Json>): map<string, Json> {
    AsObject(Get(compiledRelease, "tender"))
  }

  function ContractsOf(compiledRelease: map<string, Json>): seq<Json> {
    AsList(Get(compiledRelease, "contracts"))
  }

  function AwardsOf(compiledRelease: map<string, Json>): seq<Json> {
    AsList(Get(compiledRelease, "awards"))
  }

  /** The source calls `.get` on every contract and award. */
  predicate ContractsAndAwardsAreObjects(compiledRelease: map<string, Json>) {
    (forall k :: 0 <= k < |ContractsOf(compiledRelease)| ==> ContractsOf(compiledRelease)[k].Obj?) &&
    AwardsAreObjects(compiledRelease)
  }

  predicate AwardsAreObjects(compiledRelease: map<string, Json>) {
    forall k :: 0 <= k < |AwardsOf(compiledRelease)| ==> AwardsOf(compiledRelease)[k].Obj?
  }

  /** The tender's contract period when the tender is non-empty, then each
      contract's period, then each award's contract period; anything that
      is not a dict counts as an empty period. */
  function ContractPeriods(compiledRelease: map<string, Json>): (periods: seq<map<string, Json>>)
    ensures |periods| == (if TenderOfRelease(compiledRelease) != map[] then 1 else 0) +
                         |ContractsOf(compiledRelease)| + |AwardsOf(compiledRelease)|
  {
    var tender := TenderOfRelease(compiledRelease);
    var contracts := ContractsOf(compiledRelease);
    var awards := AwardsOf(compiledRelease);
    (if tender != map[] then [AsObject(Get(tender, "contractPeriod"))] else []) +
    seq(|contracts|, k requires 0 <= k < |contracts| => AsObject(Field(contracts[k], "period"))) +
    seq(|awards|, k requires 0 <= k < |awards| => AsObject(Field(awards[k], "contractPeriod")))
  }

  /** `period.get("endDate", "9999-12-31")` as a string. */
  function EndDate(period: map<string, Json>): string {
    AsString(GetOr(period, "endDate", Str("9999-12-31")))
  }

  predicate AllHaveStatus(elements: seq<Json>, status: string) {
    forall k :: 0 <= k < |elements| ==> Field(elements[k], "status") == Str(status)
  }

  predicate AllHaveEitherStatus(elements: seq<Json>, first: string, second: string) {
    forall k :: 0 <= k < |elements| ==>
      Field(elements[k], "status") == Str(first) || Field(elements[k], "status") == Str(second)
  }

  /** Every award is dated after `now`. */
  predicate AllAwardsAfter(awards: seq<Json>, now: string) {
    forall k :: 0 <= k < |awards| ==> Less(now, AsString(Field(awards[k], "date")))
  }

  /** Some non-empty period started before `now` and ends after it. */
  predicate SomePeriodRunning(periods: seq<map<string, Json>>, now: string) {
    exists k :: 0 <= k < |periods| && periods[k] != map[] &&
      Less(AsString(Get(periods[k], "startDate")), now) && Less(now, EndDate(periods[k]))
  }

  /** Every period ends before `now`. */
  predicate AllPeriodsEnded(periods: seq<map<string, Json>>, now: string) {
    forall k :: 0 <= k < |periods| ==> Less(EndDate(periods[k]), now)
  }

  /** The pre-award test: an open tender with nothing awarded or contracted,
      with only pending awards and contracts, or with every award and the
      award period still to come. */
  predicate PreAward(compiledRelease: map<string, Json>, now: string) {
    var tender := TenderOfRelease(compiledRelease);
    var contracts := ContractsOf(compiledRelease);
    var awards := AwardsOf(compiledRelease);
    tender != map[] && !ClosedTenderStatus(Get(tender, "status")) &&
    ((!Truthy(Get(compiledRelease, "awards")) && !Truthy(Get(compiledRelease, "contracts"))) ||
     (AllHaveStatus(contracts, "pending") && AllHaveStatus(awards, "pending")) ||
     (AllAwardsAfter(awards, now) &&
      Less(now, AsString(Resolve(Obj(tender), ["awardPeriod", "startDate"], Str(""))))))
  }

  /** The active test: an active contract, or a contract period running now. */
  predicate Active(compiledRelease: map<string, Json>, now: string) {
    (exists k :: 0 <= k < |ContractsOf(compiledRelease)| && Field(ContractsOf(compiledRelease)[k], "status") == Str("active")) ||
    SomePeriodRunning(ContractPeriods(compiledRelease), now)
  }

  /** The closed test: a closed tender, only cancelled or withdrawn awards,
      only cancelled or terminated contracts, or every period over. */
  predicate Closed(compiledRelease: map<string, Json>, now: string) {
    var awards := AwardsOf(compiledRelease);
    var contracts := ContractsOf(compiledRelease);
    ClosedTenderStatus(Get(TenderOfRelease(compiledRelease), "status")) ||
    (awards != [] && AllHaveEitherStatus(awards, "cancelled", "withdrawn")) ||
    (contracts != [] && AllHaveEitherStatus(contracts, "cancelled", "terminated")) ||
    AllPeriodsEnded(ContractPeriods(compiledRelease), now)
  }

  /** The status the transform records, if any: the tests are tried in the
      order pre-award, active, closed, and the first that holds wins. So
      only a non-empty tender that is not cancelled, unsuccessful or
      withdrawn can be pre-award, and such a closed tender always ends
      active or closed; an open tender with no awards and no contracts is
      pre-award whatever the time; with a closed tender an active contract
      makes the process active; a release with neither tender, awards nor
      contracts has no periods, all of which have vacuously ended, so it is
      closed; and a process is left without a status only when its tender is
      not closed and some period has not ended. */
  function ContractStatus(compiledRelease: map<string, Json>, now: string): (status: Option<string>)
    ensures status.Some? ==> status.value in {"pre-award", "active", "closed"}
    ensures status == Some("pre-award") ==>
              TenderOfRelease(compiledRelease) != map[] &&
              !ClosedTenderStatus(Get(TenderOfRelease(compiledRelease), "status"))
    ensures ClosedTenderStatus(Get(TenderOfRelease(compiledRelease), "status")) ==>
              status == Some("active") || status == Some("closed")
    ensures TenderOfRelease(compiledRelease) != map[] &&
            !ClosedTenderStatus(Get(TenderOfRelease(compiledRelease), "status")) &&
            "awards" !in compiledRelease && "contracts" !in compiledRelease ==>
              status == Some("pre-award")
    ensures ClosedTenderStatus(Get(TenderOfRelease(compiledRelease), "status")) &&
            (exists k :: 0 <= k < |ContractsOf(compiledRelease)| &&
                         Field(ContractsOf(compiledRelease)[k], "status") == Str("active")) ==>
              status == Some("active")
    ensures "tender" !in compiledRelease && "awards" !in compiledRelease && "contracts" !in compiledRelease ==>
              status == Some("closed")
    ensures status.None? ==>
              !ClosedTenderStatus(Get(TenderOfRelease(compiledRelease), "status")) &&
              exists k :: 0 <= k < |ContractPeriods(compiledRelease)| &&
                          !Less(EndDate(ContractPeriods(compiledRelease)[k]), now)
  {
    assert "tender" !in compiledRelease && "awards" !in compiledRelease && "contracts" !in compiledRelease ==>
             ContractPeriods(compiledRelease) == [];
    if PreAward(compiledRelease, now) then Some("pre-award")
    else if Active(compiledRelease, now) then Some("active")
    else if Closed(compiledRelease, now) then Some("closed")
    else None
  }

  /** The summary after `contract_status`: the status, when there is one. */
  function StatusStep(compiledRelease: map<string, Json>, summary: map<string, Json>, now: string)
    : (after: map<string, Json>)
    ensures ContractStatus(compiledRelease, now).Some? ==>
              after == summary["status" := Str(ContractStatus(compiledRelease, now).value)]
    ensures ContractStatus(compiledRelease, now).None? ==> after == summary
  {
    match ContractStatus(compiledRelease, now)
    case Some(status) => summary["status" := Str(status)]
    case None => summary
  }
}
