/** The behaviour shared by the OCDS command-line commands: where items are
    found, how array items are flattened, how package metadata options are
    read and which JSON formatting options are passed on. */
module CommandBase {
  import opened Outcomes
  import opened JsonValues

  /** `OCDSCommand.prefix`: `root_path or ''`, where `rootPath` is `None`
      when the option is not given. */
  function Prefix(rootPath: Option<string>): (p: string)
    ensures rootPath.Some? && rootPath.value != "" ==> p == rootPath.value
    ensures rootPath.None? || rootPath.value == "" ==> p == ""
  {
    match rootPath
    case Some(path) => path
    case None => ""
  }

  /** What one input item contributes to `OCDSCommand.items`. */
  function Expand(item: Json): seq<Json> {
    if item.Arr? then item.items else [item]
  }

  /** `OCDSCommand.items` over the items read from the input: each array
      item gives its entries, in order, and any other item is given once. */
  function Flatten(items: seq<Json>): seq<Json> {
    if items == [] then [] else Expand(items[0]) + Flatten(items[1..])
  }

  /** Flattening works item by item: the output for a concatenation is the
      concatenation of the outputs. */
  lemma {:induction false} FlattenAppend(a: seq<Json>, b: seq<Json>)
    ensures Flatten(a + b) == Flatten(a) + Flatten(b)
  {
    if a == [] {
      assert a + b == b;
    } else {
      assert (a + b)[0] == a[0] && (a + b)[1..] == a[1..] + b;
      FlattenAppend(a[1..], b);
    }
  }

  /** Input without array items passes through unchanged. */
  lemma {:induction false} FlattenWithoutArrays(items: seq<Json>)
    requires forall k :: 0 <= k < |items| ==> !items[k].Arr?
    ensures Flatten(items) == items
  {
    if items != [] {
      FlattenWithoutArrays(items[1..]);
      assert items == [items[0]] + items[1..];
    }
  }

  /** The output is as long as the non-array items plus all entries of the
      array items; each output value is a non-array input item or an entry
      of an array input item. */
  lemma {:induction false} FlattenMembers(items: seq<Json>, x: Json)
    ensures x in Flatten(items) <==>
              (exists k :: 0 <= k < |items| && !items[k].Arr? && items[k] == x) ||
              (exists k :: 0 <= k < |items| && items[k].Arr? && x in items[k].items)
  {
    if items != [] {
      FlattenMembers(items[1..], x);
      assert forall k :: 0 < k < |items| ==> items[k] == items[1..][k - 1];
      if (exists k :: 0 <= k < |items[1..]| && !items[1..][k].Arr? && items[1..][k] == x) {
        var k :| 0 <= k < |items[1..]| && !items[1..][k].Arr? && items[1..][k] == x;
        assert items[k + 1] == x;
      }
      if (exists k :: 0 <= k < |items[1..]| && items[1..][k].Arr? && x in items[1..][k].items) {
        var k :| 0 <= k < |items[1..]| && items[1..][k].Arr? && x in items[1..][k].items;
        assert items[k + 1] == items[1..][k];
      }
    }
  }

  /** The command-line options that set package metadata. */
  datatype PackageArguments = PackageArguments(
    uri: string,
    publishedDate: string,
    publisherName: string,
    publisherUri: string,
    publisherScheme: string,
    publisherUid: string,
    fake: bool)

  /** The metadata dict built by `parse_package_arguments`; `publisher` is an
      ordered dict, kept as its list of entries. */
  datatype PackageMetadata = PackageMetadata(
    uri: string,
    publisher: seq<(string, string)>,
    publishedDate: string)

  const PublisherOptionNames: seq<string> :=
    ["publisher_name", "publisher_uri", "publisher_scheme", "publisher_uid"]

  /** `getattr(self.args, key)` for a publisher option name. */
  function PublisherOption(args: PackageArguments, key: string): string {
    if key == "publisher_name" then args.publisherName
    else if key == "publisher_uri" then args.publisherUri
    else if key == "publisher_scheme" then args.publisherScheme
    else if key == "publisher_uid" then args.publisherUid
    else ""
  }

  /** The publisher entries as the option descriptions promise them: a key
      for each non-empty option, in the order name, uri, scheme, uid. */
  function NonEmptyEntries(entries: seq<(string, string)>): seq<(string, string)> {
    if entries == [] then []
    else (if entries[0].1 != "" then [entries[0]] else []) + NonEmptyEntries(entries[1..])
  }

  function PublisherEntries(args: PackageArguments): seq<(string, string)> {
    NonEmptyEntries([("name", args.publisherName), ("uri", args.publisherUri),
                     ("scheme", args.publisherScheme), ("uid", args.publisherUid)])
  }

  /** `OCDSCommand.parse_package_arguments`. With `fake`, an empty uri or
      published date is replaced by a placeholder; non-empty values and,
      without `fake`, all values are kept as given. */
  method ParsePackageArguments(args: PackageArguments) returns (metadata: PackageMetadata)
    ensures metadata.uri == (if args.fake && args.uri == "" then "placeholder:" else args.uri)
    ensures metadata.publishedDate ==
              (if args.fake && args.publishedDate == "" then "9999-01-01T00:00:00Z" else args.publishedDate)
    ensures metadata.publisher == PublisherEntries(args)
  {
    metadata := PackageMetadata(args.uri, [], args.publishedDate);

    if args.fake {
      if metadata.uri == "" {
        metadata := metadata.(uri := "placeholder:");
      }
      if metadata.publishedDate == "" {
        metadata := metadata.(publishedDate := "9999-01-01T00:00:00Z");
      }
    }

    ghost var wanted := [("name", args.publisherName), ("uri", args.publisherUri),
                         ("scheme", args.publisherScheme), ("uid", args.publisherUid)];
    for n := 0 to |PublisherOptionNames|
      invariant metadata.uri == (if args.fake && args.uri == "" then "placeholder:" else args.uri)
      invariant metadata.publishedDate ==
                  (if args.fake && args.publishedDate == "" then "9999-01-01T00:00:00Z" else args.publishedDate)
      invariant metadata.publisher == NonEmptyEntries(wanted[..n])
    {
      var key := PublisherOptionNames[n];
      var value := PublisherOption(args, key);
      assert (key[10..], value) == wanted[n];
      NonEmptyEntriesAppend(wanted[..n], wanted[n]);
      assert wanted[..n + 1] == wanted[..n] + [wanted[n]];
      if value != "" {
        metadata := metadata.(publisher := metadata.publisher + [(key[10..], value)]);
      }
    }
    assert wanted[..4] == wanted;
  }

  lemma {:induction false} NonEmptyEntriesAppend(entries: seq<(string, string)>, e: (string, string))
    ensures NonEmptyEntries(entries + [e]) == NonEmptyEntries(entries) + (if e.1 != "" then [e] else [])
  {
    if entries == [] {
      assert [] + [e] == [e];
    } else {
      assert (entries + [e])[1..] == entries[1..] + [e];
      NonEmptyEntriesAppend(entries[1..], e);
    }
  }

  /** The keyword arguments `print` passes to the JSON encoder. */
  method PrintOptions(pretty: bool, ascii: bool) returns (kwargs: map<string, Json>)
    ensures "indent" in kwargs <==> pretty
    ensures pretty ==> kwargs["indent"] == Int(2)
    ensures "ensure_ascii" in kwargs <==> ascii
    ensures ascii ==> kwargs["ensure_ascii"] == Bool(true)
    ensures kwargs.Keys <= {"indent", "ensure_ascii"}
  {
    kwargs := map[];
    if pretty {
      kwargs := kwargs["indent" := Int(2)];
    }
    if ascii {
      kwargs := kwargs["ensure_ascii" := Bool(true)];
    }
  }
}
