/** One row of the mapping sheet: the columns `_make_row` derives from a
    schema field and the schema that describes it. */
module MappingRows {
  import opened Outcomes
  import opened JsonValues
  import opened Strings
  import opened MarkdownLinks

  /** A CSV row, keyed by column name. */
  type Row = map<string, Json>

  /** A field of the schema as the schema walker yields it: the components of
      its path, whether its parent lists it as required, the deprecation it
      inherits, its own schema, the schema a `$ref` points to (when it has
      one) and whether it lies under `definitions`. */
  datatype SchemaField = SchemaField(
    pathComponents: seq<string>,
    required: bool,
    deprecated: map<string, Json>,
    schema: map<string, Json>,
    reference: Option<map<string, Json>>,
    inDefinition: bool)

  /** `field.path` with `field.sep = '/'`. */
  function PathOf(components: seq<string>): string {
    Join(components, "/")
  }

  /** `x in xs` for a list and `xs.remove(x)` on a copy: the first `x` is
      dropped and the rest keep their order. */
  function RemoveFirst<T(==)>(xs: seq<T>, x: T): (r: seq<T>)
    ensures x !in xs ==> r == xs
    ensures x in xs ==> |r| == |xs| - 1 && multiset(r) == multiset(xs) - multiset{x}
  {
    if xs == [] then []
    else
      assert xs == [xs[0]] + xs[1..];
      if xs[0] == x then xs[1..]
      else [xs[0]] + RemoveFirst(xs[1..], x)
  }

  /** The first `x` goes and nothing else moves: `RemoveFirst` cuts the list
      at the first occurrence. */
  lemma {:induction false} RemoveFirstCuts<T>(xs: seq<T>, x: T, i: nat)
    requires i < |xs| && xs[i] == x && x !in xs[..i]
    ensures RemoveFirst(xs, x) == xs[..i] + xs[i + 1..]
  {
    if i > 0 {
      assert xs[0] in xs[..i];
      assert xs[1..][..i - 1] == xs[..i][1..];
      RemoveFirstCuts(xs[1..], x, i - 1);
      assert xs[..i] == [xs[0]] + xs[1..][..i - 1];
      assert xs[i + 1..] == xs[1..][i..];
    }
  }

  predicate AllStrings(items: seq<Json>) {
    forall k :: 0 <= k < |items| ==> items[k].Str?
  }

  /** The strings of a list of JSON strings. */
  function StringsOf(items: seq<Json>): (r: seq<string>)
    requires AllStrings(items)
    ensures |r| == |items|
    ensures forall k :: 0 <= k < |items| ==> items[k] == Str(r[k])
  {
    if items == [] then []
    else [items[0].s] + StringsOf(items[1..])
  }

  /** A `type` the row can be built from: one name or a list of names. */
  predicate TypeOk(t: Json) {
    t.Str? || (t.Arr? && AllStrings(t.items))
  }

  /** `[schema['type']]` for a string, `list(schema['type'])` for a list. */
  function TypeNames(t: Json): (names: seq<string>)
    requires TypeOk(t)
    ensures t.Str? ==> names == [t.s]
    ensures t.Arr? ==> |names| == |t.items| && forall k :: 0 <= k < |names| ==> t.items[k] == Str(names[k])
  {
    if t.Str? then [t.s] else StringsOf(t.items)
  }

  /** An `enum` whose values can be joined once the first `None` is dropped. */
  predicate EnumOk(e: Json) {
    e.Arr? && AllStrings(RemoveFirst(e.items, Null))
  }

  /** The values an `enum` lists: its strings, without the first `None`. */
  function EnumParts(e: Json): (parts: seq<string>)
    requires EnumOk(e)
    ensures |parts| == |RemoveFirst(e.items, Null)|
  {
    StringsOf(RemoveFirst(e.items, Null))
  }

  /** Every string of the enum is listed, and nothing else is. */
  lemma EnumPartsListed(e: Json, v: string)
    requires EnumOk(e)
    ensures v in EnumParts(e) <==> Str(v) in e.items
  {
    var rest := RemoveFirst(e.items, Null);
    if Null in e.items {
      assert multiset(rest) == multiset(e.items) - multiset{Null};
      assert Str(v) in rest <==> Str(v) in multiset(rest);
      assert Str(v) in e.items <==> Str(v) in multiset(e.items);
    }
    if v in EnumParts(e) {
      var k :| 0 <= k < |EnumParts(e)| && EnumParts(e)[k] == v;
      assert rest[k] == Str(v);
    }
    if Str(v) in rest {
      var k :| 0 <= k < |rest| && rest[k] == Str(v);
      assert EnumParts(e)[k] == v;
    }
  }

  /** What `_make_row` needs of a schema to finish without an exception:
      string descriptions, type names and patterns, joinable enums, and
      dicts for `items` and `deprecated`. */
  predicate SchemaOk(schema: map<string, Json>) {
    ("description" in schema ==> schema["description"].Str?) &&
    ("type" in schema ==> TypeOk(schema["type"])) &&
    ("format" !in schema && "pattern" in schema ==> schema["pattern"].Str?) &&
    ("format" !in schema && "pattern" !in schema && "enum" in schema ==> EnumOk(schema["enum"])) &&
    ("items" in schema ==> schema["items"].Obj?) &&
    (("format" !in schema && "pattern" !in schema && "enum" !in schema && "items" in schema &&
      "enum" in schema["items"].fields) ==> EnumOk(schema["items"].fields["enum"])) &&
    ("deprecated" in schema ==> schema["deprecated"].Obj?)
  }

  /** The `type` names left once the first `"null"` is dropped. */
  function TypeList(schema: map<string, Json>): seq<string>
    requires "type" in schema && TypeOk(schema["type"])
  {
    RemoveFirst(TypeNames(schema["type"]), "null")
  }

  /** The `type` column. */
  function TypeColumn(schema: map<string, Json>): string
    requires "type" in schema ==> TypeOk(schema["type"])
  {
    if "type" in schema then Join(TypeList(schema), ", ") else "unknown"
  }

  /** The `required` flag of `_make_row`: the field's own flag or, with
      `infer_required`, a nullable-free type naming a string or an integer. */
  function Required(field: SchemaField, schema: map<string, Json>, inferRequired: bool): bool
    requires "type" in schema ==> TypeOk(schema["type"])
  {
    var inferred :=
      "type" in schema && "null" !in TypeNames(schema["type"]) && inferRequired &&
      ("string" in TypeNames(schema["type"]) || "integer" in TypeNames(schema["type"]));
    inferred || field.required
  }

  /** The `range` column. */
  function RangeColumn(field: SchemaField, schema: map<string, Json>, inferRequired: bool): (range: string)
    requires "type" in schema ==> TypeOk(schema["type"])
    ensures range in {"0..1", "0..n", "1..1", "1..n"}
    ensures range[0] == '1' <==>
              field.required ||
              (inferRequired && "type" in schema &&
               var names := TypeNames(schema["type"]);
               "null" !in names && ("string" in names || "integer" in names))
  {
    RangeOf(Required(field, schema, inferRequired), TypeColumn(schema) == "array")
  }

  /** `'{}..{}'.format(min_range, max_range)`: four characters, `1` or `0`
      first and `n` or `1` last. */
  function RangeOf(required: bool, many: bool): (range: string)
    ensures range == [if required then '1' else '0', '.', '.', if many then 'n' else '1']
  {
    var low := if required then "1" else "0";
    var high := if many then "n" else "1";
    assert low + ".." + high == [low[0], '.', '.', high[0]];
    low + ".." + high
  }

  /** The `values` column: the format, else the pattern, else the enum,
      else the enum of the items, else nothing. */
  function ValuesColumn(schema: map<string, Json>): (values: Json)
    requires SchemaOk(schema)
  {
    if "format" in schema then schema["format"]
    else if "pattern" in schema then Str("Pattern: " + schema["pattern"].s)
    else if "enum" in schema then Str("Enum: " + Join(EnumParts(schema["enum"]), ", "))
    else if "items" in schema && "enum" in schema["items"].fields then
      Str("Enum: " + Join(EnumParts(schema["items"].fields["enum"]), ", "))
    else Str("")
  }

  /** The columns every row starts with: path, title (the last path
      component and `*` when the schema has none), the inherited
      deprecation and the section (the first component of a nested path). */
  function HeadColumns(field: SchemaField, schema: map<string, Json>): (row: Row)
    requires |field.pathComponents| > 0
    ensures row.Keys == {"path", "title", "deprecated", "section"}
    ensures row["path"] == Str(PathOf(field.pathComponents))
  {
    var components := field.pathComponents;
    map[
      "path" := Str(PathOf(components)),
      "title" := GetOr(schema, "title", Str(components[|components| - 1] + "*")),
      "deprecated" := Get(field.deprecated, "deprecatedVersion"),
      "section" := Str(if |components| > 1 then components[0] else "")]
  }

  /** The `description` and `links` columns, when the schema has a
      description. */
  function WithDescription(row: Row, schema: map<string, Json>): (r: Row)
    requires SchemaOk(schema)
    ensures r.Keys == row.Keys + (if "description" in schema then {"description", "links"} else {})
    ensures "path" in row ==> r["path"] == row["path"]
  {
    if "description" in schema then
      var description := schema["description"].s;
      row["description" := Str(DescriptionColumn(description))]["links" := Str(LinksColumn(description))]
    else row
  }

  /** The `type`, `range` and `values` columns. */
  function WithTypeColumns(row: Row, field: SchemaField, schema: map<string, Json>, inferRequired: bool): (r: Row)
    requires SchemaOk(schema)
    ensures r.Keys == row.Keys + {"type", "range", "values"}
    ensures "path" in row ==> r["path"] == row["path"]
  {
    row["type" := Str(TypeColumn(schema))]
       ["range" := Str(RangeColumn(field, schema, inferRequired))]
       ["values" := ValuesColumn(schema)]
  }

  /** The schema's own deprecation, which replaces the inherited one. */
  function WithDeprecation(row: Row, schema: map<string, Json>): (r: Row)
    requires SchemaOk(schema)
    ensures r.Keys == row.Keys + (if "deprecated" in schema then {"deprecated", "deprecationNotes"} else {})
    ensures "path" in row ==> r["path"] == row["path"]
  {
    if "deprecated" in schema then
      var deprecation := schema["deprecated"].fields;
      row["deprecated" := GetOr(deprecation, "deprecatedVersion", Str(""))]
         ["deprecationNotes" := GetOr(deprecation, "description", Str(""))]
    else row
  }

  /** The row `_make_row` builds for a field from `schema` (the field's own
      schema or the one its `$ref` points to). */
  function RowOf(field: SchemaField, schema: map<string, Json>, inferRequired: bool): (row: Row)
    requires |field.pathComponents| > 0 && SchemaOk(schema)
    ensures "path" in row && row["path"] == Str(PathOf(field.pathComponents))
    ensures row.Keys == {"path", "title", "deprecated", "section", "type", "range", "values"} +
                        (if "description" in schema then {"description", "links"} else {}) +
                        (if "deprecated" in schema then {"deprecationNotes"} else {})
  {
    var head := HeadColumns(field, schema);
    var described := WithDescription(head, schema);
    var typed := WithTypeColumns(described, field, schema, inferRequired);
    WithDeprecation(typed, schema)
  }

  /** The `type` list with its first `null` removed, the `required` flag it
      implies and the `range` that follows. */
  method TypeAndRange(field: SchemaField, schema: map<string, Json>, inferRequired: bool)
    returns (typeColumn: string, range: string)
    requires "type" in schema ==> TypeOk(schema["type"])
    ensures typeColumn == TypeColumn(schema)
    ensures range == RangeColumn(field, schema, inferRequired)
  {
    var required := false;
    if "type" in schema {
      var names := TypeNames(schema["type"]);
      if "null" in names {
        names := RemoveFirst(names, "null");
      } else if inferRequired {
        required := "string" in names || "integer" in names;
      }
      typeColumn := Join(names, ", ");
    } else {
      typeColumn := "unknown";
    }

    if field.required {
      required := true;
    }
    var minRange := if required then "1" else "0";
    var maxRange := if typeColumn == "array" then "n" else "1";
    range := minRange + ".." + maxRange;
  }

  /** `_make_row`, key by key. */
  method MakeRow(field: SchemaField, schema: map<string, Json>, inferRequired: bool) returns (row: Row)
    requires |field.pathComponents| > 0 && SchemaOk(schema)
    ensures row == RowOf(field, schema, inferRequired)
  {
    var components := field.pathComponents;
    row := map[
      "path" := Str(PathOf(components)),
      "title" := GetOr(schema, "title", Str(components[|components| - 1] + "*")),
      "deprecated" := Get(field.deprecated, "deprecatedVersion")];
    if |components| > 1 {
      row := row["section" := Str(components[0])];
    } else {
      row := row["section" := Str("")];
    }
    assert row == HeadColumns(field, schema);

    if "description" in schema {
      var description := schema["description"].s;
      var links := Distinct(FindLinks(description));
      var stripped := StripLinks(description, links);
      row := row["description" := Str(stripped)];
      row := row["links" := Str(Join(Urls(links), ", "))];
    }
    assert row == WithDescription(HeadColumns(field, schema), schema);
    ghost var described := row;

    var typeColumn, range := TypeAndRange(field, schema, inferRequired);
    row := row["type" := Str(typeColumn)];
    row := row["range" := Str(range)];

    row := row["values" := ValuesColumn(schema)];
    assert row == described["type" := Str(typeColumn)]["range" := Str(range)]["values" := ValuesColumn(schema)];
    assert row == WithTypeColumns(described, field, schema, inferRequired);

    if "deprecated" in schema {
      var deprecation := schema["deprecated"].fields;
      row := row["deprecated" := GetOr(deprecation, "deprecatedVersion", Str(""))];
      row := row["deprecationNotes" := GetOr(deprecation, "description", Str(""))];
    }
  }

  /** A joined list reads `array` only when it is the single name `array`. */
  lemma JoinIsArray(parts: seq<string>)
    ensures Join(parts, ", ") == "array" <==> parts == ["array"]
  {
    if |parts| >= 2 {
      var joined := Join(parts, ", ");
      assert joined == parts[0] + ", " + Join(parts[1..], ", ");
      assert joined[|parts[0]|] == ',';
      assert ',' !in "array";
    }
  }

  /** The range ends in `n` exactly when the type, without `null`, is the
      one name `array`. */
  lemma RangeMaximum(field: SchemaField, schema: map<string, Json>, inferRequired: bool)
    requires "type" in schema ==> TypeOk(schema["type"])
    ensures RangeColumn(field, schema, inferRequired)[3] == 'n' <==>
              "type" in schema && RemoveFirst(TypeNames(schema["type"]), "null") == ["array"]
  {
    if "type" in schema {
      JoinIsArray(TypeList(schema));
    }
  }

  /** The `type` column lists the type names in order with the first
      `null` cut out; without `null` it lists them all. */
  lemma TypeColumnWithoutNull(schema: map<string, Json>, i: nat)
    requires "type" in schema && TypeOk(schema["type"])
    requires var names := TypeNames(schema["type"]);
             i <= |names| && "null" !in names[..i] && (i < |names| ==> names[i] == "null")
    ensures var names := TypeNames(schema["type"]);
            TypeColumn(schema) == Join(if i < |names| then names[..i] + names[i + 1..] else names, ", ")
  {
    var names := TypeNames(schema["type"]);
    if i < |names| {
      RemoveFirstCuts(names, "null", i);
    } else {
      assert names[..i] == names;
    }
  }
}
