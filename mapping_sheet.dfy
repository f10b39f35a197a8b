/** `mapping_sheet`: one row per schema field (plus header rows for `$ref`
    fields and arrays of objects), each inheriting its extension from its
    parent path, optionally sorted by a column. */
module MappingSheet {
  import opened Outcomes
  import opened JsonValues
  import opened MappingRows
  import opened RowSort

  /** The rows so far and the last row added under each path. */
  datatype Sheet = Sheet(rows: seq<Row>, byPath: map<seq<string>, Row>)

  /** The row registered for the parent path, or an empty row. */
  function ParentRow(byPath: map<seq<string>, Row>, components: seq<string>): Row
    requires |components| > 0
  {
    var parent := components[..|components| - 1];
    if parent in byPath then byPath[parent] else map[]
  }

  /** The `extension` column: the schema's `extension_field` value when the
      schema has one, else the parent's extension, else none. Other columns
      are left alone. */
  function WithExtension(row: Row, schema: map<string, Json>, extensionField: Option<string>, parent: Row): (r: Row)
    ensures extensionField.Some? && extensionField.value in schema ==>
              r == row["extension" := schema[extensionField.value]]
    ensures !(extensionField.Some? && extensionField.value in schema) && "extension" in parent ==>
              r == row["extension" := parent["extension"]]
    ensures !(extensionField.Some? && extensionField.value in schema) && "extension" !in parent ==> r == row
  {
    if extensionField.Some? && extensionField.value in schema then row["extension" := schema[extensionField.value]]
    else if "extension" in parent then row["extension" := parent["extension"]]
    else row
  }

  /** `_add_row` once the row is made: the row gets its extension, is
      appended and is registered under the field's path. */
  function Added(sheet: Sheet, components: seq<string>, row: Row, schema: map<string, Json>,
                 extensionField: Option<string>): Sheet
    requires |components| > 0
  {
    var r := WithExtension(row, schema, extensionField, ParentRow(sheet.byPath, components));
    Sheet(sheet.rows + [r], sheet.byPath[components := r])
  }

  /** The field's own schema, with the `extension_field` value of the schema
      its `$ref` points to copied in. */
  function PropSchema(field: SchemaField, extensionField: Option<string>): map<string, Json> {
    match field.reference
    case Some(reference) =>
      if extensionField.Some? && extensionField.value in reference then
        field.schema[extensionField.value := reference[extensionField.value]]
      else field.schema
    case None => field.schema
  }

  /** The schema a `$ref` points to, with the field's `type` when it has
      none of its own. */
  function ReferenceSchema(field: SchemaField, extensionField: Option<string>): map<string, Json>
    requires field.reference.Some?
  {
    var reference := field.reference.value;
    var prop := PropSchema(field, extensionField);
    if "type" !in reference && "type" in prop then reference["type" := prop["type"]] else reference
  }

  /** An array whose items are titled objects gets a header row. */
  predicate HasItemsHeader(prop: map<string, Json>) {
    "items" in prop && prop["items"].Obj? &&
    "properties" in prop["items"].fields && "title" in prop["items"].fields
  }

  /** The header row of an array of objects. */
  function ItemsHeader(field: SchemaField, items: map<string, Json>): (row: Row)
    requires "title" in items && "type" in items
    ensures "path" in row && row["path"] == Str(PathOf(field.pathComponents))
  {
    map["path" := Str(PathOf(field.pathComponents)),
        "title" := items["title"],
        "description" := GetOr(items, "description", Str("")),
        "type" := items["type"]]
  }

  /** What the loop needs of a field to finish without an exception. */
  predicate FieldOk(field: SchemaField, extensionField: Option<string>) {
    field.inDefinition ||
    (|field.pathComponents| > 0 &&
     SchemaOk(PropSchema(field, extensionField)) &&
     (field.reference.Some? ==> SchemaOk(ReferenceSchema(field, extensionField))) &&
     (HasItemsHeader(PropSchema(field, extensionField)) ==>
        "type" in PropSchema(field, extensionField)["items"].fields))
  }

  /** One pass of the loop over the fields: a field under `definitions` is
      skipped; a `$ref` field gets a row from the schema it points to; every
      other field gets its own row; an array of titled objects gets a header
      row after it. */
  function Step(sheet: Sheet, field: SchemaField, inferRequired: bool, extensionField: Option<string>): Sheet
    requires FieldOk(field, extensionField)
  {
    if field.inDefinition then sheet
    else
      var own := WithOwnRow(sheet, field, inferRequired, extensionField);
      var prop := PropSchema(field, extensionField);
      if HasItemsHeader(prop) then
        var items := prop["items"].fields;
        Added(own, field.pathComponents, ItemsHeader(field, items), items, extensionField)
      else own
  }

  /** The sheet after a field's `$ref` row, when it has a `$ref`. */
  function WithReferenceRow(sheet: Sheet, field: SchemaField, inferRequired: bool, extensionField: Option<string>): Sheet
    requires FieldOk(field, extensionField) && !field.inDefinition
  {
    if field.reference.Some? then
      var reference := ReferenceSchema(field, extensionField);
      Added(sheet, field.pathComponents, RowOf(field, reference, inferRequired), reference, extensionField)
    else sheet
  }

  /** The sheet after a field's own row. */
  function WithOwnRow(sheet: Sheet, field: SchemaField, inferRequired: bool, extensionField: Option<string>): Sheet
    requires FieldOk(field, extensionField) && !field.inDefinition
  {
    var prop := PropSchema(field, extensionField);
    Added(WithReferenceRow(sheet, field, inferRequired, extensionField), field.pathComponents,
          RowOf(field, prop, inferRequired), prop, extensionField)
  }

  /** The rows of the fields, in order, before any sorting. */
  function Build(fields: seq<SchemaField>, inferRequired: bool, extensionField: Option<string>): Sheet
    requires forall k :: 0 <= k < |fields| ==> FieldOk(fields[k], extensionField)
  {
    if fields == [] then Sheet([], map[])
    else
      var init := fields[..|fields| - 1];
      Step(Build(init, inferRequired, extensionField), fields[|fields| - 1], inferRequired, extensionField)
  }

  /** A row added without an extension of its own, for a schema with no
      `extension_field` value, takes its parent's extension, if any. Adding
      a row leaves the rows before it and its own parent's entry alone. */
  lemma AddedInheritsExtension(sheet: Sheet, components: seq<string>, row: Row, schema: map<string, Json>,
                               extensionField: Option<string>)
    requires |components| > 0 && "extension" !in row
    requires !(extensionField.Some? && extensionField.value in schema)
    ensures var parent := ParentRow(sheet.byPath, components);
            var after := Added(sheet, components, row, schema, extensionField);
            |after.rows| == |sheet.rows| + 1 && after.rows[..|sheet.rows|] == sheet.rows &&
            ParentRow(after.byPath, components) == parent &&
            ("extension" in after.rows[|sheet.rows|] <==> "extension" in parent) &&
            ("extension" in parent ==> after.rows[|sheet.rows|]["extension"] == parent["extension"])
  {
    assert |components[..|components| - 1]| < |components|;
    var after := Added(sheet, components, row, schema, extensionField);
    assert after.rows[..|sheet.rows|] == sheet.rows;
  }

  /** Adding a row registers it under its own path, which is not its
      parent's, and keeps the rows before it. */
  lemma AddedKeepsParent(sheet: Sheet, components: seq<string>, row: Row, schema: map<string, Json>,
                         extensionField: Option<string>)
    requires |components| > 0
    ensures var after := Added(sheet, components, row, schema, extensionField);
            |after.rows| == |sheet.rows| + 1 && after.rows[..|sheet.rows|] == sheet.rows &&
            ParentRow(after.byPath, components) == ParentRow(sheet.byPath, components)
  {
    assert |components[..|components| - 1]| < |components|;
    var after := Added(sheet, components, row, schema, extensionField);
    assert after.rows[..|sheet.rows|] == sheet.rows;
  }

  /** A field's `$ref` row, if any, leaves the parent path's entry alone. */
  lemma ReferenceRowKeepsParent(sheet: Sheet, field: SchemaField, inferRequired: bool,
                                extensionField: Option<string>)
    requires FieldOk(field, extensionField) && !field.inDefinition
    ensures var referenced := WithReferenceRow(sheet, field, inferRequired, extensionField);
            |referenced.rows| == |sheet.rows| + (if field.reference.Some? then 1 else 0) &&
            ParentRow(referenced.byPath, field.pathComponents) == ParentRow(sheet.byPath, field.pathComponents)
  {
    if field.reference.Some? {
      var reference := ReferenceSchema(field, extensionField);
      AddedKeepsParent(sheet, field.pathComponents, RowOf(field, reference, inferRequired), reference, extensionField);
    }
  }

  /** A field's own row, when its schema has no `extension_field` value,
      takes the extension of the row registered under its parent path
      before the field, if any. */
  lemma OwnRowInheritsExtension(sheet: Sheet, field: SchemaField, inferRequired: bool,
                                extensionField: Option<string>)
    requires FieldOk(field, extensionField) && !field.inDefinition
    requires !(extensionField.Some? && extensionField.value in PropSchema(field, extensionField))
    ensures var parent := ParentRow(sheet.byPath, field.pathComponents);
            var at := |sheet.rows| + (if field.reference.Some? then 1 else 0);
            var own := WithOwnRow(sheet, field, inferRequired, extensionField);
            |own.rows| == at + 1 &&
            ("extension" in own.rows[at] <==> "extension" in parent) &&
            ("extension" in parent ==> own.rows[at]["extension"] == parent["extension"])
  {
    ReferenceRowKeepsParent(sheet, field, inferRequired, extensionField);
    var prop := PropSchema(field, extensionField);
    AddedInheritsExtension(WithReferenceRow(sheet, field, inferRequired, extensionField), field.pathComponents,
                           RowOf(field, prop, inferRequired), prop, extensionField);
  }

  /** A field's own row, when its schema has no `extension_field` value,
      has an extension exactly when the row registered under its parent
      path before the field has one, and then the same one. A header row
      added after it does not change it. */
  lemma StepInheritsExtension(sheet: Sheet, field: SchemaField, inferRequired: bool, extensionField: Option<string>)
    requires FieldOk(field, extensionField) && !field.inDefinition
    requires !(extensionField.Some? && extensionField.value in PropSchema(field, extensionField))
    ensures var parent := ParentRow(sheet.byPath, field.pathComponents);
            var at := |sheet.rows| + (if field.reference.Some? then 1 else 0);
            var rows := Step(sheet, field, inferRequired, extensionField).rows;
            at < |rows| &&
            ("extension" in rows[at] <==> "extension" in parent) &&
            ("extension" in parent ==> rows[at]["extension"] == parent["extension"])
  {
    OwnRowInheritsExtension(sheet, field, inferRequired, extensionField);
    var own := WithOwnRow(sheet, field, inferRequired, extensionField);
    var prop := PropSchema(field, extensionField);
    if HasItemsHeader(prop) {
      var items := prop["items"].fields;
      AddedKeepsParent(own, field.pathComponents, ItemsHeader(field, items), items, extensionField);
      var rows := Added(own, field.pathComponents, ItemsHeader(field, items), items, extensionField).rows;
      assert rows[|own.rows| - 1] == rows[..|own.rows|][|own.rows| - 1];
    }
  }

  /** The same over the field loop: the last field's own row inherits the
      extension of the row last registered under its parent path by the
      fields before it. */
  lemma BuildInheritsExtension(fields: seq<SchemaField>, inferRequired: bool, extensionField: Option<string>)
    requires forall k :: 0 <= k < |fields| ==> FieldOk(fields[k], extensionField)
    requires fields != [] && !fields[|fields| - 1].inDefinition
    requires !(extensionField.Some? && extensionField.value in PropSchema(fields[|fields| - 1], extensionField))
    ensures var field := fields[|fields| - 1];
            var before := Build(fields[..|fields| - 1], inferRequired, extensionField);
            FieldOk(field, extensionField) &&
            var parent := ParentRow(before.byPath, field.pathComponents);
            var at := |before.rows| + (if field.reference.Some? then 1 else 0);
            var rows := Build(fields, inferRequired, extensionField).rows;
            at < |rows| &&
            ("extension" in rows[at] <==> "extension" in parent) &&
            ("extension" in parent ==> rows[at]["extension"] == parent["extension"])
  {
    var field := fields[|fields| - 1];
    assert FieldOk(field, extensionField);
    StepInheritsExtension(Build(fields[..|fields| - 1], inferRequired, extensionField), field, inferRequired,
                          extensionField);
  }

  /** The rows a field contributes. */
  function RowCount(field: SchemaField, extensionField: Option<string>): nat {
    if field.inDefinition then 0
    else 1 + (if field.reference.Some? then 1 else 0) +
         (if HasItemsHeader(PropSchema(field, extensionField)) then 1 else 0)
  }

  function TotalRows(fields: seq<SchemaField>, extensionField: Option<string>): nat {
    if fields == [] then 0
    else TotalRows(fields[..|fields| - 1], extensionField) + RowCount(fields[|fields| - 1], extensionField)
  }

  /** A field under `definitions` gives no row; any other gives one, one
      more for a `$ref` and one more for an array of titled objects. */
  lemma {:induction false} BuildCount(fields: seq<SchemaField>, inferRequired: bool, extensionField: Option<string>)
    requires forall k :: 0 <= k < |fields| ==> FieldOk(fields[k], extensionField)
    ensures |Build(fields, inferRequired, extensionField).rows| == TotalRows(fields, extensionField)
  {
    if fields != [] {
      BuildCount(fields[..|fields| - 1], inferRequired, extensionField);
    }
  }

  /** `after` is `before` followed by rows whose `path` is `path`. */
  predicate ExtendsWithPath(before: seq<Row>, after: seq<Row>, path: Json) {
    |before| <= |after| && after[..|before|] == before &&
    forall k :: |before| <= k < |after| ==> "path" in after[k] && after[k]["path"] == path
  }

  lemma ExtendsTransitive(a: seq<Row>, b: seq<Row>, c: seq<Row>, path: Json)
    requires ExtendsWithPath(a, b, path) && ExtendsWithPath(b, c, path)
    ensures ExtendsWithPath(a, c, path)
  {
    assert c[..|a|] == c[..|b|][..|a|];
    forall k | |a| <= k < |c|
      ensures "path" in c[k] && c[k]["path"] == path
    {
      if k < |b| {
        assert c[k] == c[..|b|][k];
      }
    }
  }

  /** Adding a row keeps the rows before it and the row's path. */
  lemma AddedKeepsPath(sheet: Sheet, components: seq<string>, row: Row, schema: map<string, Json>,
                       extensionField: Option<string>)
    requires |components| > 0 && "path" in row
    ensures ExtendsWithPath(sheet.rows, Added(sheet, components, row, schema, extensionField).rows, row["path"])
  {
    var added := Added(sheet, components, row, schema, extensionField).rows;
    assert added[..|sheet.rows|] == sheet.rows;
  }

  /** A pass over one field keeps the rows so far and adds rows that carry
      the field's path. */
  lemma StepPaths(sheet: Sheet, field: SchemaField, inferRequired: bool, extensionField: Option<string>)
    requires FieldOk(field, extensionField) && !field.inDefinition
    ensures ExtendsWithPath(sheet.rows, Step(sheet, field, inferRequired, extensionField).rows,
                            Str(PathOf(field.pathComponents)))
  {
    var path := Str(PathOf(field.pathComponents));
    var components := field.pathComponents;
    var prop := PropSchema(field, extensionField);
    var referenced := sheet;
    if field.reference.Some? {
      var reference := ReferenceSchema(field, extensionField);
      AddedKeepsPath(sheet, components, RowOf(field, reference, inferRequired), reference, extensionField);
      referenced := Added(sheet, components, RowOf(field, reference, inferRequired), reference, extensionField);
    } else {
      assert sheet.rows[..|sheet.rows|] == sheet.rows;
    }
    AddedKeepsPath(referenced, components, RowOf(field, prop, inferRequired), prop, extensionField);
    var own := Added(referenced, components, RowOf(field, prop, inferRequired), prop, extensionField);
    ExtendsTransitive(sheet.rows, referenced.rows, own.rows, path);
    if HasItemsHeader(prop) {
      var items := prop["items"].fields;
      AddedKeepsPath(own, components, ItemsHeader(field, items), items, extensionField);
      ExtendsTransitive(sheet.rows, own.rows, Added(own, components, ItemsHeader(field, items), items, extensionField).rows, path);
    }
  }

  /** The paths of the fields outside `definitions`. */
  function FieldPaths(fields: seq<SchemaField>): set<Json> {
    set i | 0 <= i < |fields| && !fields[i].inDefinition :: Str(PathOf(fields[i].pathComponents))
  }

  /** Every row carries the path of a field outside `definitions`. */
  lemma {:induction false} BuildPaths(fields: seq<SchemaField>, inferRequired: bool, extensionField: Option<string>)
    requires forall k :: 0 <= k < |fields| ==> FieldOk(fields[k], extensionField)
    ensures var rows := Build(fields, inferRequired, extensionField).rows;
            forall k :: 0 <= k < |rows| ==> "path" in rows[k] && rows[k]["path"] in FieldPaths(fields)
  {
    if fields != [] {
      var init := fields[..|fields| - 1];
      var field := fields[|fields| - 1];
      BuildPaths(init, inferRequired, extensionField);
      var sheet := Build(init, inferRequired, extensionField);
      assert forall k :: 0 <= k < |sheet.rows| ==>
               "path" in Build(init, inferRequired, extensionField).rows[k] &&
               Build(init, inferRequired, extensionField).rows[k]["path"] in FieldPaths(init);
      var rows := Build(fields, inferRequired, extensionField).rows;
      assert FieldPaths(init) <= FieldPaths(fields) by {
        forall i | 0 <= i < |init| && !init[i].inDefinition
          ensures Str(PathOf(init[i].pathComponents)) in FieldPaths(fields)
        {
          assert fields[i] == init[i];
        }
      }
      if field.inDefinition {
        assert rows == sheet.rows;
      } else {
        StepPaths(sheet, field, inferRequired, extensionField);
        assert Str(PathOf(field.pathComponents)) in FieldPaths(fields) by {
          assert fields[|fields| - 1] == field;
        }
        assert rows == Step(sheet, field, inferRequired, extensionField).rows;
        forall k | 0 <= k < |rows|
          ensures "path" in rows[k] && rows[k]["path"] in FieldPaths(fields)
        {
          if k < |sheet.rows| {
            assert rows[k] == rows[..|sheet.rows|][k] == sheet.rows[k];
            assert "path" in sheet.rows[k] && sheet.rows[k]["path"] in FieldPaths(init);
          } else {
            assert rows[k]["path"] == Str(PathOf(field.pathComponents));
          }
        }
      }
    }
  }

  /** The message of `MissingColumnError`. */
  function MissingColumn(column: string): string {
    "the column '" + column + "' doesn't exist \U{2013} did you make a typo?"
  }

  predicate HasColumn(rows: seq<Row>, column: string) {
    forall k :: 0 <= k < |rows| ==> column in rows[k]
  }

  /** `if order_by: rows.sort(key=lambda row: row[order_by])`, with the
      `KeyError` turned into `MissingColumnError`. An empty `order_by`
      stands for `None` as well. */
  function OrderRows(rows: seq<Row>, orderBy: string): (r: Result<seq<Row>, string>)
    requires orderBy != "" && HasColumn(rows, orderBy) ==> StringColumn(rows, orderBy)
    ensures orderBy == "" ==> r == Ok(rows)
    ensures r.Err? <==> orderBy != "" && exists k :: 0 <= k < |rows| && orderBy !in rows[k]
    ensures r.Err? ==> r.error == MissingColumn(orderBy)
    ensures r.Ok? && orderBy != "" ==> SortedBy(r.value, orderBy) && multiset(r.value) == multiset(rows)
  {
    if orderBy == "" then Ok(rows)
    else if !HasColumn(rows, orderBy) then Err(MissingColumn(orderBy))
    else
      SortBySorted(rows, orderBy);
      Ok(SortBy(rows, orderBy))
  }

  /** The `rows` list and `rows_by_path` dict that `mapping_sheet` fills. */
  class SheetBuilder {
    const inferRequired: bool
    const extensionField: Option<string>
    var rows: seq<Row>
    var rowsByPath: map<seq<string>, Row>

    function Current(): Sheet
      reads this
    {
      Sheet(rows, rowsByPath)
    }

    constructor (inferRequired: bool, extensionField: Option<string>)
      ensures this.inferRequired == inferRequired && this.extensionField == extensionField
      ensures rows == [] && rowsByPath == map[]
    {
      this.inferRequired := inferRequired;
      this.extensionField := extensionField;
      rows := [];
      rowsByPath := map[];
    }

    /** `_add_row`: makes the row unless one is given, sets its extension,
        appends it and registers it under the field's path. */
    method AddRow(field: SchemaField, schema: map<string, Json>, given: Row)
      modifies this
      requires |field.pathComponents| > 0
      requires given == map[] ==> SchemaOk(schema)
      ensures Current() ==
                Added(old(Current()), field.pathComponents,
                      if given != map[] then given else RowOf(field, schema, inferRequired),
                      schema, extensionField)
    {
      var components := field.pathComponents;
      var parent := components[..|components| - 1];
      var parentRow := if parent in rowsByPath then rowsByPath[parent] else map[];
      var row := given;
      if row == map[] {
        row := MakeRow(field, schema, inferRequired);
      }
      if extensionField.Some? && extensionField.value in schema {
        row := row["extension" := schema[extensionField.value]];
      } else if "extension" in parentRow {
        row := row["extension" := parentRow["extension"]];
      }
      rows := rows + [row];
      rowsByPath := rowsByPath[components := row];
    }

    /** The body of the loop over the fields. */
    method AddField(field: SchemaField)
      modifies this
      requires FieldOk(field, extensionField)
      ensures Current() == Step(old(Current()), field, inferRequired, extensionField)
    {
      if field.inDefinition {
        return;
      }
      var prop := PropSchema(field, extensionField);
      if field.reference.Some? {
        AddRow(field, ReferenceSchema(field, extensionField), map[]);
      }
      AddRow(field, prop, map[]);
      if HasItemsHeader(prop) {
        var items := prop["items"].fields;
        AddRow(field, items, ItemsHeader(field, items));
      }
    }
  }

  /** The loop of `mapping_sheet` over the fields. */
  method BuildRows(fields: seq<SchemaField>, inferRequired: bool, extensionField: Option<string>)
    returns (rows: seq<Row>)
    requires forall k :: 0 <= k < |fields| ==> FieldOk(fields[k], extensionField)
    ensures rows == Build(fields, inferRequired, extensionField).rows
  {
    var builder := new SheetBuilder(inferRequired, extensionField);
    for i := 0 to |fields|
      invariant builder.inferRequired == inferRequired && builder.extensionField == extensionField
      invariant builder.Current() == Build(fields[..i], inferRequired, extensionField)
    {
      assert fields[..i + 1][..i] == fields[..i];
      builder.AddField(fields[i]);
    }
    assert fields[..|fields|] == fields;
    rows := builder.rows;
  }

  /** `mapping_sheet` up to the CSV writer: the rows, or the error for a
      missing sort column. */
  method BuildMappingSheet(fields: seq<SchemaField>, orderBy: string, inferRequired: bool,
                           extensionField: Option<string>) returns (result: Result<seq<Row>, string>)
    requires forall k :: 0 <= k < |fields| ==> FieldOk(fields[k], extensionField)
    requires var rows := Build(fields, inferRequired, extensionField).rows;
             orderBy != "" && HasColumn(rows, orderBy) ==> StringColumn(rows, orderBy)
    ensures result == OrderRows(Build(fields, inferRequired, extensionField).rows, orderBy)
  {
    var rows := BuildRows(fields, inferRequired, extensionField);
    if orderBy != "" {
      if !HasColumn(rows, orderBy) {
        return Err(MissingColumn(orderBy));
      }
      rows := SortBy(rows, orderBy);
    }
    result := Ok(rows);
  }
}
