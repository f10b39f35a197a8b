/** The `combine-release-packages` command: the releases of all input release
    packages are collected into one package, whose metadata is taken from the
    packages read last. */
module CombineReleasePackages {
  import opened Outcomes
  import opened JsonValues

  datatype CombineError =
    /** `package['uri']` on a value that is not a dict. */
    | NotAPackage
    /** A `KeyError`: on the package for `uri`, `publishedDate`, `publisher`
        or `releases`, or on the output for `extensions`. */
    | MissingKey(key: string)
    /** `list.extend` raises `TypeError`: `releases` is not a list, a
        string or a dict. */
    | ReleasesNotIterable

  const OptionalFields: seq<string> := ["license", "publicationPolicy", "version"]

  /** The error the command stops with on this package, if any, in the
      order in which the source reads the keys. */
  function PackageError(package: Json): Option<CombineError> {
    if !package.Obj? then Some(NotAPackage)
    else if "uri" !in package.fields then Some(MissingKey("uri"))
    else if "publishedDate" !in package.fields then Some(MissingKey("publishedDate"))
    else if "publisher" !in package.fields then Some(MissingKey("publisher"))
    else if "extensions" in package.fields then Some(MissingKey("extensions"))
    else if "releases" !in package.fields then Some(MissingKey("releases"))
    else if !Iterable(package.fields["releases"]) then Some(ReleasesNotIterable)
    else None
  }

  /** The releases of all packages, in input order, as `list.extend` adds
      them: a list's items, a string's characters, a dict's keys. */
  function AllReleases(packages: seq<Json>): seq<Json> {
    if packages == [] then []
    else AllReleases(packages[..|packages| - 1]) + Extension(Field(packages[|packages| - 1], "releases"))
  }

  /** The value of `key` in the last package that has it. */
  function LastValue(packages: seq<Json>, key: string): Option<Json> {
    if packages == [] then None
    else if key in AsObject(packages[|packages| - 1]) then Some(AsObject(packages[|packages| - 1])[key])
    else LastValue(packages[..|packages| - 1], key)
  }

  /** A key is carried over exactly when some package has it, and then from
      the last package that has it. */
  lemma {:induction false} LastValueFound(packages: seq<Json>, key: string)
    ensures LastValue(packages, key).Some? <==> exists k :: 0 <= k < |packages| && key in AsObject(packages[k])
    ensures LastValue(packages, key).Some? ==>
              exists k :: 0 <= k < |packages| && key in AsObject(packages[k]) &&
                LastValue(packages, key).value == AsObject(packages[k])[key] &&
                forall j :: k < j < |packages| ==> key !in AsObject(packages[j])
  {
    if packages != [] {
      var n := |packages|;
      var init := packages[..n - 1];
      LastValueFound(init, key);
      assert forall k :: 0 <= k < n - 1 ==> packages[k] == init[k];
      if key !in AsObject(packages[n - 1]) && LastValue(init, key).Some? {
        var k :| 0 <= k < |init| && key in AsObject(init[k]) &&
                 LastValue(init, key).value == AsObject(init[k])[key] &&
                 forall j :: k < j < |init| ==> key !in AsObject(init[j]);
        assert packages[k] == init[k];
      }
    }
  }

  predicate CarriedFrom(output: map<string, Json>, packages: seq<Json>, fields: seq<string>) {
    forall f :: f in fields ==>
      (f in output <==> LastValue(packages, f).Some?) &&
      (f in output ==> output[f] == LastValue(packages, f).value)
  }

  predicate OptionalFieldsCarried(output: map<string, Json>, packages: seq<Json>) {
    CarriedFrom(output, packages, OptionalFields)
  }

  const AllowedKeys: set<string> :=
    {"releases", "uri", "publishedDate", "publisher", "license", "publicationPolicy", "version"}

  predicate MetadataFrom(output: map<string, Json>, last: Json) {
    last.Obj? &&
    "uri" in last.fields && "uri" in output && output["uri"] == last.fields["uri"] &&
    "publishedDate" in last.fields && "publishedDate" in output &&
    output["publishedDate"] == last.fields["publishedDate"] &&
    "publisher" in last.fields && "publisher" in output && output["publisher"] == last.fields["publisher"]
  }

  /** What the output dict holds after the packages `seen` were read. */
  predicate Accumulated(output: map<string, Json>, seen: seq<Json>) {
    "releases" in output && output["releases"] == Arr(AllReleases(seen)) &&
    (seen == [] ==> output == map["releases" := Arr([])]) &&
    (seen != [] ==> MetadataFrom(output, seen[|seen| - 1])) &&
    OptionalFieldsCarried(output, seen) &&
    output.Keys <= AllowedKeys
  }

  /** After one more package, a field comes from that package if it has it. */
  lemma LastValueStep(seen: seq<Json>, package: Json, f: string)
    requires package.Obj?
    ensures LastValue(seen + [package], f) ==
              if f in package.fields then Some(package.fields[f]) else LastValue(seen, f)
  {
    assert (seen + [package])[..|seen|] == seen;
  }

  /** The inner loop over `license`, `publicationPolicy` and `version`:
      each field the package has overwrites the one carried so far. */
  method CarryOptionalFields(output: map<string, Json>, package: Json, ghost seen: seq<Json>)
    returns (next: map<string, Json>)
    requires package.Obj?
    requires CarriedFrom(output, seen, OptionalFields)
    ensures CarriedFrom(next, seen + [package], OptionalFields)
    ensures forall key :: key !in OptionalFields ==> (key in next <==> key in output)
    ensures forall key :: key !in OptionalFields && key in output ==> next[key] == output[key]
    ensures next.Keys <= output.Keys + {"license", "publicationPolicy", "version"}
  {
    next := output;
    for n := 0 to |OptionalFields|
      invariant CarriedFrom(next, seen + [package], OptionalFields[..n])
      invariant CarriedFrom(next, seen, OptionalFields[n..])
      invariant forall key :: key !in OptionalFields ==> (key in next <==> key in output)
      invariant forall key :: key !in OptionalFields && key in output ==> next[key] == output[key]
      invariant next.Keys <= output.Keys + {"license", "publicationPolicy", "version"}
    {
      var field := OptionalFields[n];
      assert OptionalFields[n..] == [field] + OptionalFields[n + 1..];
      assert OptionalFields[..n + 1] == OptionalFields[..n] + [field];
      LastValueStep(seen, package, field);
      if field in package.fields {
        next := next[field := package.fields[field]];
      }
    }
    assert OptionalFields[..|OptionalFields|] == OptionalFields;
  }

  lemma MetadataNotOptional()
    ensures "uri" !in OptionalFields && "publishedDate" !in OptionalFields
    ensures "publisher" !in OptionalFields && "releases" !in OptionalFields
  {
  }

  /** The body of the loop of `Command.handle` for one well-formed package. */
  method AddPackage(output: map<string, Json>, packages: seq<Json>, i: nat)
    returns (next: map<string, Json>)
    requires i < |packages|
    requires Accumulated(output, packages[..i])
    requires PackageError(packages[i]).None?
    ensures Accumulated(next, packages[..i + 1])
  {
    ghost var seen := packages[..i];
    var package := packages[i];
    assert packages[..i + 1] == seen + [package];
    var fields := package.fields;
    next := output["uri" := fields["uri"]];
    next := next["publishedDate" := fields["publishedDate"]];
    next := next["publisher" := fields["publisher"]];
    assert CarriedFrom(next, seen, OptionalFields) by {
      MetadataNotOptional();
    }
    ghost var metadata := next;
    next := CarryOptionalFields(next, package, seen);
    assert MetadataFrom(next, package) by {
      MetadataNotOptional();
      assert next["uri"] == metadata["uri"];
      assert next["publishedDate"] == metadata["publishedDate"];
      assert next["publisher"] == metadata["publisher"];
    }
    next := next["releases" := Arr(output["releases"].items + Extension(fields["releases"]))];
    ghost var after := seen + [package];
    assert after[..|after| - 1] == seen && after[|after| - 1] == package;
    assert AllReleases(after) == AllReleases(seen) + Extension(fields["releases"]);
    assert CarriedFrom(next, after, OptionalFields) by {
      MetadataNotOptional();
    }
    assert next.Keys <= AllowedKeys;
  }

  predicate FirstErrorAt(packages: seq<Json>, k: int, error: CombineError) {
    0 <= k < |packages| && PackageError(packages[k]) == Some(error) &&
    forall j :: 0 <= j < k ==> PackageError(packages[j]).None?
  }

  /** `error` is the error of the first package that has one. */
  ghost predicate FirstError(packages: seq<Json>, error: CombineError) {
    exists k :: FirstErrorAt(packages, k, error)
  }

  /** `Command.handle` after the packages are read. On success, `releases`
      is every package's releases in order; `uri`, `publishedDate` and
      `publisher` are the last package's; `license`, `publicationPolicy`
      and `version` appear iff some package has them, with the last such
      value; with no packages the output is `{"releases": []}`. A package
      that is not a dict, lacks a required key, has `extensions` or has
      `releases` that `extend` cannot iterate stops the command with the
      error of the first such package. */
  method Combine(packages: seq<Json>) returns (r: Result<map<string, Json>, CombineError>)
    ensures r.Ok? <==> forall k :: 0 <= k < |packages| ==> PackageError(packages[k]).None?
    ensures r.Err? ==> FirstError(packages, r.error)
    ensures r.Ok? ==> "releases" in r.value && r.value["releases"] == Arr(AllReleases(packages))
    ensures r.Ok? && packages == [] ==> r.value == map["releases" := Arr([])]
    ensures r.Ok? && packages != [] ==> MetadataFrom(r.value, packages[|packages| - 1])
    ensures r.Ok? ==> OptionalFieldsCarried(r.value, packages)
    ensures r.Ok? ==> r.value.Keys <= AllowedKeys
  {
    var output: map<string, Json> := map["releases" := Arr([])];
    var i := 0;
    while i < |packages|
      invariant 0 <= i <= |packages|
      invariant forall k :: 0 <= k < i ==> PackageError(packages[k]).None?
      invariant Accumulated(output, packages[..i])
    {
      var package := packages[i];
      var failure := PackageError(package);
      if failure.Some? {
        assert FirstErrorAt(packages, i, failure.value);
        return Err(failure.value);
      }
      output := AddPackage(output, packages, i);
      i := i + 1;
    }
    assert Accumulated(output, packages) by {
      assert packages[..i] == packages;
    }
    return Ok(output);
  }
}
