/** Optional values and results that carry an error in place of an exception. */
module Outcomes {
  datatype Option<+T> = None | Some(value: T)

  datatype Result<+T, +E> = Ok(value: T) | Err(error: E)
}

/** Decoded JSON documents and the Python idioms the command-line tools use on
    them: truthiness, `dict.get`, `check_type` and `jsonpointer.resolve_pointer`. */
module JsonValues {
  import Strings

  /** A decoded JSON value. Numbers are integers only; the key order of an
      object is not kept. */
  datatype Json =
    | Null
    | Bool(b: bool)
    | Int(i: int)
    | Str(s: string)
    | Arr(items: seq<Json>)
    | Obj(fields: map<string, Json>)

  /** Python truthiness: `None`, `False`, `0` and empty strings, lists and
      dicts are false, everything else is true. */
  predicate Truthy(j: Json) {
    match j
    case Null => false
    case Bool(b) => b
    case Int(i) => i != 0
    case Str(s) => s != ""
    case Arr(items) => items != []
    case Obj(fields) => fields != map[]
  }

  /** `check_type(item, list)`: the list itself, or an empty list in its place. */
  function AsList(j: Json): seq<Json> {
    if j.Arr? then j.items else []
  }

  /** `check_type(item, dict)`: the dict itself, or an empty dict in its place. */
  function AsObject(j: Json): map<string, Json> {
    if j.Obj? then j.fields else map[]
  }

  /** `check_type(item, str)`: the string itself, or an empty string in its place. */
  function AsString(j: Json): string {
    if j.Str? then j.s else ""
  }

  /** The values `list.extend` accepts: a list, a string or a dict; any
      other value makes it raise `TypeError`. */
  predicate Iterable(value: Json) {
    value.Arr? || value.Str? || value.Obj?
  }

  /** What `list.extend(value)` adds: a list's items, each character of a
      string as a one-character string, or the keys of a dict. Objects here
      do not keep their key order, so the keys come in ascending order. */
  function Extension(value: Json): seq<Json> {
    if value.Arr? then value.items
    else if value.Str? then seq(|value.s|, k requires 0 <= k < |value.s| => Str([value.s[k]]))
    else if value.Obj? then
      var keys := Strings.SortedKeys(value.fields.Keys);
      seq(|keys|, k requires 0 <= k < |keys| => Str(keys[k]))
    else []
  }

  /** `extend` adds a list's items as they are, a string's characters one by
      one, and each key of a dict once; it adds something exactly when the
      value is truthy. */
  lemma ExtensionAdds(value: Json)
    ensures value.Arr? ==> Extension(value) == value.items
    ensures value.Str? ==> (|Extension(value)| == |value.s| &&
              forall k :: 0 <= k < |value.s| ==> Extension(value)[k] == Str([value.s[k]]))
    ensures value.Obj? ==> (|Extension(value)| == |value.fields| &&
              forall k :: 0 <= k < |value.fields| ==> Extension(value)[k].Str? && Extension(value)[k].s in value.fields)
    ensures value.Obj? ==> forall key :: key in value.fields ==> Str(key) in Extension(value)
    ensures Iterable(value) ==> (Extension(value) != [] <==> Truthy(value))
  {
    if value.Obj? {
      var keys := Strings.SortedKeys(value.fields.Keys);
      var added := Extension(value);
      forall key | key in value.fields
        ensures Str(key) in added
      {
        var k :| 0 <= k < |keys| && keys[k] == key;
        assert added[k] == Str(key);
      }
    }
  }

  /** `d.get(key)` on a dict: the value, or `None` when the key is absent. */
  function Get(d: map<string, Json>, key: string): Json {
    if key in d then d[key] else Null
  }

  /** `d.get(key, default)`. */
  function GetOr(d: map<string, Json>, key: string, default: Json): Json {
    if key in d then d[key] else default
  }

  /** `x.get(key)` for an element that the source has checked to be a dict;
      on anything else it reads `None`. */
  function Field(j: Json, key: string): Json {
    Get(AsObject(j), key)
  }

  /** `resolve_pointer(doc, "/" + "/".join(path), default)`: walks the named
      members of nested objects; a missing member or a value that is not an
      object on the way gives the default. */
  function Resolve(doc: Json, path: seq<string>, default: Json): (r: Json)
    ensures path == [] ==> r == doc
    ensures r != default && path != [] ==> doc.Obj? && path[0] in doc.fields
    decreases path
  {
    if path == [] then doc
    else if doc.Obj? && path[0] in doc.fields then Resolve(doc.fields[path[0]], path[1..], default)
    else default
  }

  /** Resolving a longer path is resolving its last step from the value of
      the shorter one. */
  lemma {:induction false} ResolveSnoc(doc: Json, path: seq<string>, key: string, default: Json)
    requires Resolve(doc, path, Null).Obj?
    ensures Resolve(doc, path + [key], default) == GetOr(Resolve(doc, path, Null).fields, key, default)
    decreases path
  {
    if path != [] {
      assert (path + [key])[0] == path[0];
      assert (path + [key])[1..] == path[1..] + [key];
      ResolveSnoc(doc.fields[path[0]], path[1..], key, default);
    }
  }

  /** Whether a dict value is present and is a list (or absent), so that the
      source's `append`/`extend` on it cannot fail. */
  predicate ListOrAbsent(d: map<string, Json>, key: string) {
    key !in d || d[key].Arr?
  }
}
