/** The state every OC4IDS transform reads and updates: the releases, the
    releases grouped by ocid, one compiled release per record and the project
    being built. */
module Oc4idsState {
  import opened JsonValues

  /** `check_type(release.get("ocid"), str)`. */
  function OcidOf(release: map<string, Json>): string {
    AsString(Get(release, "ocid"))
  }

  /** The releases whose ocid is `ocid`, in input order. */
  function ReleasesWithOcid(releases: seq<map<string, Json>>, ocid: string): (group: seq<map<string, Json>>)
    ensures |group| <= |releases|
    ensures forall k :: 0 <= k < |group| ==> OcidOf(group[k]) == ocid
  {
    if releases == [] then []
    else
      var last := releases[|releases| - 1];
      ReleasesWithOcid(releases[..|releases| - 1], ocid) + (if OcidOf(last) == ocid then [last] else [])
  }

  /** A group holds every release with that ocid, and nothing else. */
  lemma {:induction false} ReleasesWithOcidMembers(releases: seq<map<string, Json>>, ocid: string, r: map<string, Json>)
    ensures r in ReleasesWithOcid(releases, ocid) <==> r in releases && OcidOf(r) == ocid
  {
    if releases != [] {
      var init := releases[..|releases| - 1];
      ReleasesWithOcidMembers(init, ocid, r);
      assert releases == init + [releases[|releases| - 1]];
    }
  }

  /** A group is empty exactly when no release has that ocid. */
  lemma ReleasesWithOcidEmpty(releases: seq<map<string, Json>>, ocid: string)
    ensures ReleasesWithOcid(releases, ocid) == [] <==> forall k :: 0 <= k < |releases| ==> OcidOf(releases[k]) != ocid
  {
    if ReleasesWithOcid(releases, ocid) == [] {
      forall k | 0 <= k < |releases|
        ensures OcidOf(releases[k]) != ocid
      {
        ReleasesWithOcidMembers(releases, ocid, releases[k]);
      }
    } else {
      var r := ReleasesWithOcid(releases, ocid)[0];
      ReleasesWithOcidMembers(releases, ocid, r);
    }
  }

  /** `release.get("url")` is truthy: the release is linked rather than embedded. */
  predicate IsLinked(release: Json) {
    Truthy(Field(release, "url"))
  }

  /** The record releases kept as `releases`. */
  function LinkedReleases(releases: seq<Json>): seq<Json> {
    if releases == [] then []
    else
      var last := releases[|releases| - 1];
      LinkedReleases(releases[..|releases| - 1]) + (if IsLinked(last) then [last] else [])
  }

  /** The record releases kept as `embeddedReleases`. */
  function EmbeddedReleases(releases: seq<Json>): seq<Json> {
    if releases == [] then []
    else
      var last := releases[|releases| - 1];
      EmbeddedReleases(releases[..|releases| - 1]) + (if IsLinked(last) then [] else [last])
  }

  /** Linked releases all have a truthy `url`; embedded ones all lack one. */
  lemma {:induction false} LinkedEmbeddedKinds(releases: seq<Json>)
    ensures forall k :: 0 <= k < |LinkedReleases(releases)| ==> IsLinked(LinkedReleases(releases)[k])
    ensures forall k :: 0 <= k < |EmbeddedReleases(releases)| ==> !IsLinked(EmbeddedReleases(releases)[k])
  {
    if releases != [] {
      var init := releases[..|releases| - 1];
      var last := releases[|releases| - 1];
      LinkedEmbeddedKinds(init);
      var linked, embedded := LinkedReleases(init), EmbeddedReleases(init);
      var extendedLinked, extendedEmbedded := LinkedReleases(releases), EmbeddedReleases(releases);
      forall k | 0 <= k < |extendedLinked|
        ensures IsLinked(extendedLinked[k])
      {
        if k < |linked| { assert extendedLinked[k] == linked[k]; }
      }
      forall k | 0 <= k < |extendedEmbedded|
        ensures !IsLinked(extendedEmbedded[k])
      {
        if k < |embedded| { assert extendedEmbedded[k] == embedded[k]; }
      }
    }
  }

  /** Linked and embedded releases partition the record's releases: every
      release lands in exactly one of them, each keeps the input order, and
      each holds only releases of its kind. */
  lemma {:induction false} LinkedEmbeddedPartition(releases: seq<Json>)
    ensures |LinkedReleases(releases)| + |EmbeddedReleases(releases)| == |releases|
    ensures multiset(LinkedReleases(releases)) + multiset(EmbeddedReleases(releases)) == multiset(releases)
    ensures forall k :: 0 <= k < |LinkedReleases(releases)| ==> IsLinked(LinkedReleases(releases)[k])
    ensures forall k :: 0 <= k < |EmbeddedReleases(releases)| ==> !IsLinked(EmbeddedReleases(releases)[k])
  {
    LinkedEmbeddedKinds(releases);
    if releases != [] {
      var init := releases[..|releases| - 1];
      var last := releases[|releases| - 1];
      LinkedEmbeddedPartition(init);
      assert releases == init + [last];
      assert multiset(releases) == multiset(init) + multiset{last};
      var linked, embedded := LinkedReleases(init), EmbeddedReleases(init);
      if IsLinked(last) {
        assert LinkedReleases(releases) == linked + [last];
        assert EmbeddedReleases(releases) == embedded;
      } else {
        assert LinkedReleases(releases) == linked;
        assert EmbeddedReleases(releases) == embedded + [last];
      }
    }
  }

  /** The `records` entries the constructor can read: each record's
      releases are dicts, since it calls `release.get("url")` on them. */
  predicate RecordReleasesAreObjects(record: map<string, Json>) {
    forall r :: r in AsList(Get(record, "releases")) ==> r.Obj?
  }

  /** The compiled release of a record, with its releases split by `url`. */
  function CompiledRelease(record: map<string, Json>): (compiled: map<string, Json>)
    ensures "releases" in compiled && "embeddedReleases" in compiled
    ensures forall key :: key != "releases" && key != "embeddedReleases" ==>
              (key in compiled <==> key in AsObject(Get(record, "compiledRelease"))) &&
              (key in compiled ==> compiled[key] == AsObject(Get(record, "compiledRelease"))[key])
  {
    var recordReleases := AsList(Get(record, "releases"));
    AsObject(Get(record, "compiledRelease"))
      ["releases" := Arr(LinkedReleases(recordReleases))]
      ["embeddedReleases" := Arr(EmbeddedReleases(recordReleases))]
  }

  /** One more release extends its own group and leaves the others alone. */
  lemma GroupStep(releases: seq<map<string, Json>>, i: nat)
    requires i < |releases|
    ensures ReleasesWithOcid(releases[..i + 1], OcidOf(releases[i])) ==
              ReleasesWithOcid(releases[..i], OcidOf(releases[i])) + [releases[i]]
    ensures forall o :: o != OcidOf(releases[i]) ==>
              ReleasesWithOcid(releases[..i + 1], o) == ReleasesWithOcid(releases[..i], o)
  {
    assert releases[..i + 1][..i] == releases[..i];
  }

  /** The `releases_by_ocid` loop of `InitialTransformState`: releases
      with a non-empty string ocid are appended to their group. */
  method GroupByOcid(releases: seq<map<string, Json>>) returns (byOcid: map<string, seq<map<string, Json>>>)
    ensures forall o :: o in byOcid <==> o != "" && ReleasesWithOcid(releases, o) != []
    ensures forall o :: o in byOcid ==> byOcid[o] == ReleasesWithOcid(releases, o)
  {
    byOcid := map[];
    for i := 0 to |releases|
      invariant forall o :: o in byOcid <==> o != "" && ReleasesWithOcid(releases[..i], o) != []
      invariant forall o :: o in byOcid ==> byOcid[o] == ReleasesWithOcid(releases[..i], o)
    {
      var ocid := OcidOf(releases[i]);
      GroupStep(releases, i);
      if ocid != "" {
        var group := if ocid in byOcid then byOcid[ocid] else [];
        byOcid := byOcid[ocid := group + [releases[i]]];
      }
    }
    assert releases[..|releases|] == releases;
  }

  /** The `records` loop of `InitialTransformState`. */
  method CompileRecords(records: seq<map<string, Json>>) returns (compiled: seq<map<string, Json>>)
    ensures |compiled| == |records|
    ensures forall k :: 0 <= k < |records| ==> compiled[k] == CompiledRelease(records[k])
  {
    compiled := [];
    for i := 0 to |records|
      invariant |compiled| == i
      invariant forall k :: 0 <= k < i ==> compiled[k] == CompiledRelease(records[k])
    {
      var record := records[i];
      var compiledRelease := AsObject(Get(record, "compiledRelease"));
      var recordReleases := AsList(Get(record, "releases"));
      var linked := LinkedReleases(recordReleases);
      var embedded := EmbeddedReleases(recordReleases);
      compiledRelease := compiledRelease["releases" := Arr(linked)];
      compiledRelease := compiledRelease["embeddedReleases" := Arr(embedded)];
      compiled := compiled + [compiledRelease];
    }
  }

  /** `InitialTransformState` and the `output` the transforms fill in. */
  class TransformState {
    const releases: seq<map<string, Json>>
    const releasesByOcid: map<string, seq<map<string, Json>>>
    /** The project id; the empty string stands for `None`. */
    const projectId: string
    var compiledReleases: seq<map<string, Json>>
    var output: map<string, Json>

    /** Groups the releases by ocid, takes each record's compiled release
        with its releases split into linked and embedded ones, and gives the
        project its id when the template has none. An empty `output` stands
        for `None`. */
    constructor (releases: seq<map<string, Json>>, projectId: string,
                 records: seq<map<string, Json>>, output: map<string, Json>)
      requires records != []
      requires forall k :: 0 <= k < |records| ==> RecordReleasesAreObjects(records[k])
      ensures this.releases == releases && this.projectId == projectId
      ensures forall o :: o in releasesByOcid <==> o != "" && ReleasesWithOcid(releases, o) != []
      ensures forall o :: o in releasesByOcid ==> releasesByOcid[o] == ReleasesWithOcid(releases, o)
      ensures |compiledReleases| == |records|
      ensures forall k :: 0 <= k < |records| ==> compiledReleases[k] == CompiledRelease(records[k])
      ensures this.output == if projectId != "" && "id" !in output then output["id" := Str(projectId)] else output
    {
      var byOcid := GroupByOcid(releases);
      var compiled := CompileRecords(records);
      this.releases := releases;
      this.releasesByOcid := byOcid;
      this.projectId := projectId;
      this.compiledReleases := compiled;
      this.output := output;
      if projectId != "" && "id" !in output {
        this.output := output["id" := Str(projectId)];
      }
    }
  }

  /** The summary of a contracting process as the transforms keep it: its
      `tender`, when present, is a dict. */
  predicate SummaryOk(summary: map<string, Json>) {
    "tender" in summary ==> summary["tender"].Obj?
  }

  predicate ProcessOk(process: Json) {
    process.Obj? && "summary" in process.fields && process.fields["summary"].Obj? &&
    SummaryOk(process.fields["summary"].fields)
  }

  /** `output["contractingProcesses"]` holds one well-formed process per
      compiled release, as `contracting_process_setup` leaves it. */
  predicate ProcessesReady(output: map<string, Json>, count: nat) {
    "contractingProcesses" in output && output["contractingProcesses"].Arr? &&
    |output["contractingProcesses"].items| == count &&
    forall k :: 0 <= k < count ==> ProcessOk(output["contractingProcesses"].items[k])
  }

  function SummaryOf(process: Json): map<string, Json>
    requires ProcessOk(process)
  {
    process.fields["summary"].fields
  }

  /** `summary.get("tender", {})`, which the transforms only ever set to a dict. */
  function TenderOf(summary: map<string, Json>): map<string, Json> {
    AsObject(Get(summary, "tender"))
  }

  /** `after` is `before` with `key` set to `value` and nothing else changed. */
  ghost predicate Updates(before: map<string, Json>, after: map<string, Json>, key: string, value: Json) {
    key in after && after[key] == value &&
    forall other :: other != key ==>
      (other in after <==> other in before) && (other in after ==> after[other] == before[other])
  }

  /** `after` is `before` with `summary.tender[key]` set to `value` and nothing
      else changed. */
  ghost predicate UpdatesTender(before: map<string, Json>, after: map<string, Json>, key: string, value: Json) {
    "tender" in after && after["tender"].Obj? &&
    Updates(before, after, "tender", after["tender"]) &&
    Updates(TenderOf(before), after["tender"].fields, key, value)
  }

  /** Sets `summary.tender[key]`, creating the tender when needed. */
  function SetTender(summary: map<string, Json>, key: string, value: Json): (after: map<string, Json>)
    ensures UpdatesTender(summary, after, key, value)
    ensures SummaryOk(after)
  {
    summary["tender" := Obj(TenderOf(summary)[key := value])]
  }
}
