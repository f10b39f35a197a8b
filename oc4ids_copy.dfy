/** The helpers the OC4IDS transforms share: copying parties by role and
    documents by type from the compiled releases into the project, and
    listing one string per compiled release. */
module Oc4idsCopy {
  import opened JsonValues
  import opened Oc4idsState

  /** `check_type(compiled_release.get("parties"), list)`. */
  function Parties(compiledRelease: map<string, Json>): seq<Json> {
    AsList(Get(compiledRelease, "parties"))
  }

  /** `role in check_type(party.get("roles"), list)`. */
  predicate HasRole(party: Json, role: string) {
    Str(role) in AsList(Field(party, "roles"))
  }

  /** The transforms call `party.get` on every party, so every party of
      every compiled release must be a dict. */
  predicate PartiesAreObjects(compiledReleases: seq<map<string, Json>>) {
    forall k, party :: 0 <= k < |compiledReleases| && party in Parties(compiledReleases[k]) ==> party.Obj?
  }

  /** Role names as JSON strings. */
  function StrList(names: seq<string>): (list: seq<Json>)
    ensures |list| == |names|
    ensures forall k :: 0 <= k < |names| ==> list[k] == Str(names[k])
  {
    if names == [] then [] else [Str(names[0])] + StrList(names[1..])
  }

  /** The deep copy of a matching party that goes into the project: its roles
      are extended by `newRoles` when there are any; nothing else differs. */
  function PartyCopy(party: Json, newRoles: seq<string>): Json {
    if newRoles == [] then Obj(AsObject(party))
    else Obj(AsObject(party)["roles" := Arr(AsList(Field(party, "roles")) + StrList(newRoles))])
  }

  /** A copy is the party itself when no roles are added; otherwise only its
      roles differ, extended by `newRoles`, so the copy keeps the role it was
      chosen for and has every new role. */
  lemma PartyCopyRoles(party: Json, role: string, newRoles: seq<string>)
    requires party.Obj? && HasRole(party, role)
    ensures newRoles == [] ==> PartyCopy(party, newRoles) == party
    ensures newRoles != [] ==>
              Updates(party.fields, PartyCopy(party, newRoles).fields, "roles",
                      Arr(AsList(Field(party, "roles")) + StrList(newRoles)))
    ensures HasRole(PartyCopy(party, newRoles), role)
    ensures forall r :: r in newRoles ==> HasRole(PartyCopy(party, newRoles), r)
  {
    var roles := AsList(Field(PartyCopy(party, newRoles), "roles"));
    forall r | r in newRoles
      ensures HasRole(PartyCopy(party, newRoles), r)
    {
      if newRoles != [] {
        var k :| 0 <= k < |newRoles| && newRoles[k] == r;
        assert roles[|AsList(Field(party, "roles"))| + k] == Str(r);
      }
    }
  }

  /** The copies made from one compiled release's parties, in party order. */
  function RoleCopiesIn(parties: seq<Json>, role: string, newRoles: seq<string>): seq<Json> {
    if parties == [] then []
    else
      var last := parties[|parties| - 1];
      RoleCopiesIn(parties[..|parties| - 1], role, newRoles) +
        (if HasRole(last, role) then [PartyCopy(last, newRoles)] else [])
  }

  /** The copies `copy_party_by_role` appends, in compiled-release then party order. */
  function RoleCopies(compiledReleases: seq<map<string, Json>>, role: string, newRoles: seq<string>): seq<Json> {
    if compiledReleases == [] then []
    else
      RoleCopies(compiledReleases[..|compiledReleases| - 1], role, newRoles) +
        RoleCopiesIn(Parties(compiledReleases[|compiledReleases| - 1]), role, newRoles)
  }

  /** Extending the parties read by one party extends the copies by its copy. */
  lemma RoleCopiesInSnoc(parties: seq<Json>, j: int, role: string, newRoles: seq<string>)
    requires 0 <= j < |parties|
    ensures RoleCopiesIn(parties[..j + 1], role, newRoles) ==
              RoleCopiesIn(parties[..j], role, newRoles) +
                (if HasRole(parties[j], role) then [PartyCopy(parties[j], newRoles)] else [])
  {
    assert parties[..j + 1][..j] == parties[..j];
  }

  /** Extending the compiled releases read by one extends the copies by its parties' copies. */
  lemma RoleCopiesSnoc(compiledReleases: seq<map<string, Json>>, i: int, role: string, newRoles: seq<string>)
    requires 0 <= i < |compiledReleases|
    ensures RoleCopies(compiledReleases[..i + 1], role, newRoles) ==
              RoleCopies(compiledReleases[..i], role, newRoles) +
                RoleCopiesIn(Parties(compiledReleases[i]), role, newRoles)
  {
    assert compiledReleases[..i + 1][..i] == compiledReleases[..i];
  }

  /** The copies from one party list are exactly the copies of its parties
      that have the role. */
  lemma {:induction false} RoleCopiesInMembers(parties: seq<Json>, role: string, newRoles: seq<string>, x: Json)
    ensures x in RoleCopiesIn(parties, role, newRoles) <==>
              exists j :: 0 <= j < |parties| && HasRole(parties[j], role) && x == PartyCopy(parties[j], newRoles)
  {
    if parties != [] {
      var n := |parties|;
      var init := parties[..n - 1];
      var tail := if HasRole(parties[n - 1], role) then [PartyCopy(parties[n - 1], newRoles)] else [];
      RoleCopiesInMembers(init, role, newRoles, x);
      assert RoleCopiesIn(parties, role, newRoles) == RoleCopiesIn(init, role, newRoles) + tail;
      if x in RoleCopiesIn(init, role, newRoles) {
        var j :| 0 <= j < |init| && HasRole(init[j], role) && x == PartyCopy(init[j], newRoles);
        assert init[j] == parties[j];
      } else if x in tail {
        assert HasRole(parties[n - 1], role) && x == PartyCopy(parties[n - 1], newRoles);
      } else {
        forall j | 0 <= j < n && HasRole(parties[j], role)
          ensures x != PartyCopy(parties[j], newRoles)
        {
          if j < n - 1 { assert init[j] == parties[j]; }
        }
      }
    }
  }

  /** `x` is the copy of party `j` of compiled release `k`, which has the role. */
  predicate CopiedFrom(compiledReleases: seq<map<string, Json>>, k: int, j: int, role: string,
                       newRoles: seq<string>, x: Json) {
    0 <= k < |compiledReleases| && 0 <= j < |Parties(compiledReleases[k])| &&
    HasRole(Parties(compiledReleases[k])[j], role) && x == PartyCopy(Parties(compiledReleases[k])[j], newRoles)
  }

  /** Every copy in the project comes from a party with the role. */
  lemma {:induction false} RoleCopiesSound(compiledReleases: seq<map<string, Json>>, role: string,
                                           newRoles: seq<string>, x: Json)
    requires x in RoleCopies(compiledReleases, role, newRoles)
    ensures exists k, j :: CopiedFrom(compiledReleases, k, j, role, newRoles, x)
  {
    var n := |compiledReleases|;
    var init := compiledReleases[..n - 1];
    var last := Parties(compiledReleases[n - 1]);
    if x in RoleCopies(init, role, newRoles) {
      RoleCopiesSound(init, role, newRoles, x);
      var k, j :| CopiedFrom(init, k, j, role, newRoles, x);
      assert init[k] == compiledReleases[k];
      assert CopiedFrom(compiledReleases, k, j, role, newRoles, x);
    } else {
      RoleCopiesInMembers(last, role, newRoles, x);
      var j :| 0 <= j < |last| && HasRole(last[j], role) && x == PartyCopy(last[j], newRoles);
      assert CopiedFrom(compiledReleases, n - 1, j, role, newRoles, x);
    }
  }

  /** Every party with the role, in any compiled release, is copied. */
  lemma {:induction false} RoleCopiesComplete(compiledReleases: seq<map<string, Json>>, role: string,
                                              newRoles: seq<string>, k: int, j: int)
    requires 0 <= k < |compiledReleases| && 0 <= j < |Parties(compiledReleases[k])|
    requires HasRole(Parties(compiledReleases[k])[j], role)
    ensures PartyCopy(Parties(compiledReleases[k])[j], newRoles) in RoleCopies(compiledReleases, role, newRoles)
  {
    var n := |compiledReleases|;
    var init := compiledReleases[..n - 1];
    var x := PartyCopy(Parties(compiledReleases[k])[j], newRoles);
    var tail := RoleCopiesIn(Parties(compiledReleases[n - 1]), role, newRoles);
    assert RoleCopies(compiledReleases, role, newRoles) == RoleCopies(init, role, newRoles) + tail;
    if k < n - 1 {
      assert init[k] == compiledReleases[k];
      RoleCopiesComplete(init, role, newRoles, k, j);
      assert x in RoleCopies(init, role, newRoles);
    } else {
      RoleCopiesInMembers(Parties(compiledReleases[n - 1]), role, newRoles, x);
      assert x in tail;
    }
  }

  /** `copy_party_by_role` succeeds exactly when some party has the role. */
  lemma RoleCopiesFound(compiledReleases: seq<map<string, Json>>, role: string, newRoles: seq<string>)
    ensures RoleCopies(compiledReleases, role, newRoles) != [] <==>
              exists k, j :: 0 <= k < |compiledReleases| && 0 <= j < |Parties(compiledReleases[k])| &&
                HasRole(Parties(compiledReleases[k])[j], role)
  {
    var copies := RoleCopies(compiledReleases, role, newRoles);
    if copies != [] {
      RoleCopiesSound(compiledReleases, role, newRoles, copies[0]);
      var k, j :| CopiedFrom(compiledReleases, k, j, role, newRoles, copies[0]);
    } else if exists k, j :: 0 <= k < |compiledReleases| && 0 <= j < |Parties(compiledReleases[k])| &&
                HasRole(Parties(compiledReleases[k])[j], role) {
      var k, j :| 0 <= k < |compiledReleases| && 0 <= j < |Parties(compiledReleases[k])| &&
                  HasRole(Parties(compiledReleases[k])[j], role);
      RoleCopiesComplete(compiledReleases, role, newRoles, k, j);
    }
  }

  /** The project after the copies are appended to its `parties`, which is
      created when absent; with no copies the project is unchanged. */
  function AppendParties(output: map<string, Json>, copies: seq<Json>): map<string, Json> {
    if copies == [] then output
    else output["parties" := Arr(AsList(Get(output, "parties")) + copies)]
  }

  /** Appending copies changes the project's `parties` only, and leaves the
      copies at its end. */
  lemma AppendPartiesUpdates(output: map<string, Json>, copies: seq<Json>)
    ensures copies == [] ==> AppendParties(output, copies) == output
    ensures copies != [] ==>
              Updates(output, AppendParties(output, copies), "parties", Arr(AsList(Get(output, "parties")) + copies))
    ensures var parties := AsList(Get(AppendParties(output, copies), "parties"));
            |parties| >= |copies| && parties[|parties| - |copies|..] == copies
  {
  }

  /** Appending one more copy is appending it to the parties so far. */
  lemma AppendPartiesSnoc(output: map<string, Json>, copies: seq<Json>, copy: Json)
    ensures AppendParties(output, copies + [copy]) ==
              AppendParties(output, copies)["parties" := Arr(AsList(Get(AppendParties(output, copies), "parties")) + [copy])]
  {
    if copies != [] {
      assert AsList(Get(output, "parties")) + (copies + [copy]) == (AsList(Get(output, "parties")) + copies) + [copy];
    } else {
      assert copies + [copy] == [copy];
    }
  }

  /** One party of the inner loop: with the role, its copy is appended to the
      project's parties; without it, the project stays as it is. */
  lemma CopyPartyStep(original: map<string, Json>, copied: seq<Json>, parties: seq<Json>, j: int,
                      role: string, newRoles: seq<string>)
    requires 0 <= j < |parties|
    ensures var before := AppendParties(original, copied + RoleCopiesIn(parties[..j], role, newRoles));
            AppendParties(original, copied + RoleCopiesIn(parties[..j + 1], role, newRoles)) ==
              if HasRole(parties[j], role)
              then before["parties" := Arr(AsList(Get(before, "parties")) + [PartyCopy(parties[j], newRoles)])]
              else before
    ensures RoleCopiesIn(parties[..j + 1], role, newRoles) != [] <==>
              RoleCopiesIn(parties[..j], role, newRoles) != [] || HasRole(parties[j], role)
  {
    var before := copied + RoleCopiesIn(parties[..j], role, newRoles);
    RoleCopiesInSnoc(parties, j, role, newRoles);
    if HasRole(parties[j], role) {
      var copy := PartyCopy(parties[j], newRoles);
      assert copied + RoleCopiesIn(parties[..j + 1], role, newRoles) == before + [copy];
      AppendPartiesSnoc(original, before, copy);
    } else {
      assert copied + RoleCopiesIn(parties[..j + 1], role, newRoles) == before;
    }
  }

  /** The inner loop of `copy_party_by_role`, over one compiled release's
      parties: each party with the role is copied onto the project's parties. */
  method CopyFromParties(state: TransformState, parties: seq<Json>, role: string, newRoles: seq<string>,
                         ghost original: map<string, Json>, ghost copied: seq<Json>)
    returns (found: bool)
    modifies state
    requires state.output == AppendParties(original, copied)
    ensures state.compiledReleases == old(state.compiledReleases)
    ensures state.output == AppendParties(original, copied + RoleCopiesIn(parties, role, newRoles))
    ensures found <==> RoleCopiesIn(parties, role, newRoles) != []
  {
    found := false;
    assert copied + RoleCopiesIn(parties[..0], role, newRoles) == copied;
    for j := 0 to |parties|
      invariant state.compiledReleases == old(state.compiledReleases)
      invariant state.output == AppendParties(original, copied + RoleCopiesIn(parties[..j], role, newRoles))
      invariant found <==> RoleCopiesIn(parties[..j], role, newRoles) != []
    {
      var party := parties[j];
      CopyPartyStep(original, copied, parties, j, role, newRoles);
      if Str(role) in AsList(Field(party, "roles")) {
        var outputParties := AsList(Get(state.output, "parties"));
        var copy := PartyCopy(party, newRoles);
        state.output := state.output["parties" := Arr(outputParties + [copy])];
        found := true;
      }
    }
    assert parties[..|parties|] == parties;
  }

  /** `copy_party_by_role`: every party, in every compiled release, whose
      roles contain `role` is deep-copied into the project's parties, its
      roles extended by `newRoles`; the result says whether any was. The
      project's `parties` must be a list or absent once a party is copied. */
  method CopyPartyByRole(state: TransformState, role: string, newRoles: seq<string>) returns (success: bool)
    modifies state
    requires PartiesAreObjects(state.compiledReleases)
    requires ListOrAbsent(state.output, "parties") || RoleCopies(state.compiledReleases, role, newRoles) == []
    ensures state.compiledReleases == old(state.compiledReleases)
    ensures state.output == AppendParties(old(state.output), RoleCopies(state.compiledReleases, role, newRoles))
    ensures success <==> RoleCopies(state.compiledReleases, role, newRoles) != []
  {
    ghost var original := state.output;
    var compiledReleases := state.compiledReleases;
    success := false;
    for i := 0 to |compiledReleases|
      invariant state.compiledReleases == compiledReleases
      invariant state.output == AppendParties(original, RoleCopies(compiledReleases[..i], role, newRoles))
      invariant success <==> RoleCopies(compiledReleases[..i], role, newRoles) != []
    {
      var parties := Parties(compiledReleases[i]);
      RoleCopiesSnoc(compiledReleases, i, role, newRoles);
      var found := CopyFromParties(state, parties, role, newRoles, original, RoleCopies(compiledReleases[..i], role, newRoles));
      success := success || found;
    }
    assert compiledReleases[..|compiledReleases|] == compiledReleases;
  }

  /** `resolve_pointer(compiled_release, "/planning/documents", [])` as a list. */
  function Documents(compiledRelease: map<string, Json>): seq<Json> {
    AsList(Resolve(Obj(compiledRelease), ["planning", "documents"], Arr([])))
  }

  /** The documents of one list whose `documentType` is `documentType`, each
      read as a dict. */
  function DocumentsOfType(documents: seq<Json>, documentType: string): (found: seq<Json>)
    ensures forall d :: d in found ==> d.Obj? && Field(d, "documentType") == Str(documentType)
  {
    if documents == [] then []
    else
      var last := AsObject(documents[|documents| - 1]);
      DocumentsOfType(documents[..|documents| - 1], documentType) +
        (if Get(last, "documentType") == Str(documentType) then [Obj(last)] else [])
  }

  /** The documents `copy_document_by_type` appends, in compiled-release order. */
  function TypedDocuments(compiledReleases: seq<map<string, Json>>, documentType: string): (found: seq<Json>)
    ensures forall d :: d in found ==> d.Obj? && Field(d, "documentType") == Str(documentType)
  {
    if compiledReleases == [] then []
    else
      TypedDocuments(compiledReleases[..|compiledReleases| - 1], documentType) +
        DocumentsOfType(Documents(compiledReleases[|compiledReleases| - 1]), documentType)
  }

  /** Reading one more document extends the documents found by it when it has the type. */
  lemma DocumentsOfTypeSnoc(documents: seq<Json>, j: int, documentType: string)
    requires 0 <= j < |documents|
    ensures DocumentsOfType(documents[..j + 1], documentType) ==
              DocumentsOfType(documents[..j], documentType) +
                (if Get(AsObject(documents[j]), "documentType") == Str(documentType)
                 then [Obj(AsObject(documents[j]))] else [])
  {
    assert documents[..j + 1][..j] == documents[..j];
  }

  /** Reading one more compiled release extends the documents found by its own. */
  lemma TypedDocumentsSnoc(compiledReleases: seq<map<string, Json>>, i: int, documentType: string)
    requires 0 <= i < |compiledReleases|
    ensures TypedDocuments(compiledReleases[..i + 1], documentType) ==
              TypedDocuments(compiledReleases[..i], documentType) +
                DocumentsOfType(Documents(compiledReleases[i]), documentType)
  {
    assert compiledReleases[..i + 1][..i] == compiledReleases[..i];
  }

  /** Some entry of the list has the document type. */
  predicate HasDocumentOfType(documents: seq<Json>, documentType: string) {
    exists j :: 0 <= j < |documents| && Field(documents[j], "documentType") == Str(documentType)
  }

  /** A document list yields a document exactly when one of its entries is a
      dict of that type. */
  lemma {:induction false} DocumentsOfTypeFound(documents: seq<Json>, documentType: string)
    ensures DocumentsOfType(documents, documentType) != [] <==> HasDocumentOfType(documents, documentType)
  {
    if documents != [] {
      var init := documents[..|documents| - 1];
      DocumentsOfTypeFound(init, documentType);
      assert forall j :: 0 <= j < |init| ==> init[j] == documents[j];
    }
  }

  /** `copy_document_by_type` succeeds exactly when some compiled release
      has a planning document of that type. */
  lemma {:induction false} TypedDocumentsFound(compiledReleases: seq<map<string, Json>>, documentType: string)
    ensures TypedDocuments(compiledReleases, documentType) != [] <==>
              exists k :: 0 <= k < |compiledReleases| && HasDocumentOfType(Documents(compiledReleases[k]), documentType)
  {
    if compiledReleases != [] {
      var n := |compiledReleases|;
      var init := compiledReleases[..n - 1];
      var last := Documents(compiledReleases[n - 1]);
      TypedDocumentsFound(init, documentType);
      DocumentsOfTypeFound(last, documentType);
      assert TypedDocuments(compiledReleases, documentType) ==
               TypedDocuments(init, documentType) + DocumentsOfType(last, documentType);
      if TypedDocuments(init, documentType) != [] {
        var k :| 0 <= k < n - 1 && HasDocumentOfType(Documents(init[k]), documentType);
        assert init[k] == compiledReleases[k];
      } else if DocumentsOfType(last, documentType) == [] {
        forall k | 0 <= k < n
          ensures !HasDocumentOfType(Documents(compiledReleases[k]), documentType)
        {
          if k < n - 1 { assert init[k] == compiledReleases[k]; }
        }
      }
    }
  }

  /** The project after `copy_document_by_type`: a falsy `documents` is first
      replaced by an empty list, then the documents found are appended. */
  function AddDocuments(output: map<string, Json>, found: seq<Json>): map<string, Json> {
    var base := if Truthy(Get(output, "documents")) then output else output["documents" := Arr([])];
    ExtendDocuments(base, found)
  }

  /** `base` with the documents found appended to its `documents`. */
  function ExtendDocuments(base: map<string, Json>, found: seq<Json>): map<string, Json>
    requires "documents" in base
  {
    if found == [] then base
    else base["documents" := Arr(AsList(base["documents"]) + found)]
  }

  /** One document of the inner loop: with the type, it is appended to the
      project's documents; without it, the project stays as it is. */
  lemma CopyDocumentStep(base: map<string, Json>, found: seq<Json>, documents: seq<Json>, j: int,
                         documentType: string)
    requires "documents" in base && 0 <= j < |documents|
    ensures var before := ExtendDocuments(base, found + DocumentsOfType(documents[..j], documentType));
            var document := AsObject(documents[j]);
            ExtendDocuments(base, found + DocumentsOfType(documents[..j + 1], documentType)) ==
              if Get(document, "documentType") == Str(documentType)
              then before["documents" := Arr(AsList(before["documents"]) + [Obj(document)])]
              else before
    ensures DocumentsOfType(documents[..j + 1], documentType) != [] <==>
              DocumentsOfType(documents[..j], documentType) != [] ||
              Get(AsObject(documents[j]), "documentType") == Str(documentType)
  {
    var before := found + DocumentsOfType(documents[..j], documentType);
    var document := AsObject(documents[j]);
    DocumentsOfTypeSnoc(documents, j, documentType);
    if Get(document, "documentType") == Str(documentType) {
      assert found + DocumentsOfType(documents[..j + 1], documentType) == before + [Obj(document)];
      var listed := AsList(base["documents"]);
      if before != [] {
        assert AsList(ExtendDocuments(base, before)["documents"]) == listed + before;
        assert listed + (before + [Obj(document)]) == (listed + before) + [Obj(document)];
      } else {
        assert before + [Obj(document)] == [Obj(document)];
      }
    } else {
      assert found + DocumentsOfType(documents[..j + 1], documentType) == before;
    }
  }

  /** `copy_document_by_type` changes the project's `documents` only: a falsy
      value becomes the documents found, a list is extended by them. */
  lemma AddDocumentsUpdates(output: map<string, Json>, found: seq<Json>)
    ensures !Truthy(Get(output, "documents")) ==> Updates(output, AddDocuments(output, found), "documents", Arr(found))
    ensures Truthy(Get(output, "documents")) && found == [] ==> AddDocuments(output, found) == output
    ensures Truthy(Get(output, "documents")) && found != [] ==>
              Updates(output, AddDocuments(output, found), "documents", Arr(AsList(output["documents"]) + found))
  {
  }

  /** The inner loop of `copy_document_by_type`, over one compiled
      release's planning documents. */
  method CopyFromDocuments(state: TransformState, documents: seq<Json>, documentType: string,
                           ghost base: map<string, Json>, ghost found: seq<Json>)
    returns (any: bool)
    modifies state
    requires "documents" in base
    requires state.output == ExtendDocuments(base, found)
    ensures state.compiledReleases == old(state.compiledReleases)
    ensures state.output == ExtendDocuments(base, found + DocumentsOfType(documents, documentType))
    ensures any <==> DocumentsOfType(documents, documentType) != []
  {
    any := false;
    assert found + DocumentsOfType(documents[..0], documentType) == found;
    for j := 0 to |documents|
      invariant state.compiledReleases == old(state.compiledReleases)
      invariant state.output == ExtendDocuments(base, found + DocumentsOfType(documents[..j], documentType))
      invariant any <==> DocumentsOfType(documents[..j], documentType) != []
    {
      var document := AsObject(documents[j]);
      CopyDocumentStep(base, found, documents, j, documentType);
      if Str(documentType) == Get(document, "documentType") {
        var outputDocuments := AsList(state.output["documents"]);
        state.output := state.output["documents" := Arr(outputDocuments + [Obj(document)])];
        any := true;
      }
    }
    assert documents[..|documents|] == documents;
  }

  /** `copy_document_by_type`: every planning document of the given type,
      in every compiled release, is appended to the project's documents; the
      result says whether any was. A truthy `documents` that is not a list
      cannot take a document. */
  method CopyDocumentByType(state: TransformState, documentType: string) returns (success: bool)
    modifies state
    requires var documents := Get(state.output, "documents");
             !Truthy(documents) || documents.Arr? || TypedDocuments(state.compiledReleases, documentType) == []
    ensures state.compiledReleases == old(state.compiledReleases)
    ensures state.output == AddDocuments(old(state.output), TypedDocuments(state.compiledReleases, documentType))
    ensures success <==> TypedDocuments(state.compiledReleases, documentType) != []
  {
    var compiledReleases := state.compiledReleases;
    if !Truthy(Get(state.output, "documents")) {
      state.output := state.output["documents" := Arr([])];
    }
    ghost var base := state.output;
    success := false;
    for i := 0 to |compiledReleases|
      invariant state.compiledReleases == compiledReleases
      invariant state.output == ExtendDocuments(base, TypedDocuments(compiledReleases[..i], documentType))
      invariant success <==> TypedDocuments(compiledReleases[..i], documentType) != []
    {
      var documents := Documents(compiledReleases[i]);
      TypedDocumentsSnoc(compiledReleases, i, documentType);
      var any := CopyFromDocuments(state, documents, documentType, base, TypedDocuments(compiledReleases[..i], documentType));
      success := success || any;
    }
    assert compiledReleases[..|compiledReleases|] == compiledReleases;
  }

  /** One line of `concat_ocid_and_string`: `"<{ocid}> {string}\n"`, where a
      value that is not a string reads as the empty string. */
  function OcidLine(compiledRelease: map<string, Json>, path: seq<string>): string {
    "<" + AsString(Get(compiledRelease, "ocid")) + "> " + AsString(Resolve(Obj(compiledRelease), path, Null)) + "\n"
  }

  function OcidLines(compiledReleases: seq<map<string, Json>>, path: seq<string>): string {
    if compiledReleases == [] then ""
    else OcidLines(compiledReleases[..|compiledReleases| - 1], path) + OcidLine(compiledReleases[|compiledReleases| - 1], path)
  }

  /** The lines are empty exactly when there are no compiled releases: every
      compiled release contributes at least `"<> \n"`. */
  lemma {:induction false} OcidLinesEmpty(compiledReleases: seq<map<string, Json>>, path: seq<string>)
    ensures OcidLines(compiledReleases, path) == "" <==> compiledReleases == []
    ensures |OcidLines(compiledReleases, path)| >= 4 * |compiledReleases|
  {
    if compiledReleases != [] {
      OcidLinesEmpty(compiledReleases[..|compiledReleases| - 1], path);
    }
  }

  /** `concat_ocid_and_string`: one line per compiled release, in order. */
  method ConcatOcidAndString(state: TransformState, path: seq<string>) returns (strings: string)
    ensures strings == OcidLines(state.compiledReleases, path)
    ensures strings == "" <==> state.compiledReleases == []
  {
    var compiledReleases := state.compiledReleases;
    strings := "";
    for i := 0 to |compiledReleases|
      invariant strings == OcidLines(compiledReleases[..i], path)
    {
      var compiledRelease := compiledReleases[i];
      var ocid := AsString(Get(compiledRelease, "ocid"));
      var aString := AsString(Resolve(Obj(compiledRelease), path, Null));
      assert compiledReleases[..i + 1][..i] == compiledReleases[..i];
      strings := strings + ("<" + ocid + "> " + aString + "\n");
    }
    assert compiledReleases[..|compiledReleases|] == compiledReleases;
    OcidLinesEmpty(compiledReleases, path);
  }
}
