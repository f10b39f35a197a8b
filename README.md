# ocdskit core in Dafny

A model of the core of ocdskit, the command-line toolkit for Open Contracting
Data Standard (OCDS) data, with proofs about the model. It covers four parts:

- **OC4IDS transforms** (`ocdskit/oc4ids_transforms.py`). These turn the
  releases and records of contracting processes into one Open Contracting for
  Infrastructure Data Standard project. The transform state is a class whose
  `output` and compiled releases are changed in place. Each transform is a
  method on that state, proved against a specification function. The pipeline
  selects transforms by configuration and runs them in the transform list's
  order. It is proved to keep the project well formed: one contracting process
  per record, each identified by its ocid, and the project id kept.
- **Mapping sheet** (`ocdskit/mapping_sheet.py`). This builds one CSV row per
  schema field, with the path, title, description without Markdown links,
  links, type, range, values, deprecation and extension columns. It can sort
  the rows by a column, stably, in Python's string order.
- **Package commands** (`ocdskit/cli/commands/`):
  - `combine-release-packages` collects the releases of many packages;
  - `split-record-packages` cuts a package's records into chunks;
  - `upgrade` reads a `from:to` version argument;
  - the shared command base handles the item prefix, array flattening,
    package metadata options and JSON print options.
- **Python semantics** these parts rely on:
  - JSON values (`JsonValues`);
  - truthiness and `dict.get`;
  - `resolve_pointer` with a default;
  - string ordering, `join`, `split` and `replace` (`Strings`).

Modules, one per file:

| module | file |
|---|---|
| `Outcomes`, `JsonValues` | `json.dfy` |
| `Strings` | `strings.dfy` |
| `CommandBase` | `command_base.dfy` |
| `CombineReleasePackages` | `combine_release_packages.dfy` |
| `Chunking`, `SplitRecordPackages` | `split_record_packages.dfy` |
| `UpgradeCommand` | `upgrade.dfy` |
| `Oc4idsState` | `oc4ids_state.dfy` |
| `Oc4idsCopy` | `oc4ids_copy.dfy` |
| `Oc4idsProject` | `oc4ids_project.dfy` |
| `Oc4idsSummaryRules` | `oc4ids_rules.dfy` |
| `Oc4idsStatus` | `oc4ids_status.dfy` |
| `Oc4idsProcesses` | `oc4ids_processes.dfy` |
| `Oc4idsFunding` | `oc4ids_funding.dfy` |
| `Oc4idsPipeline` | `oc4ids_pipeline.dfy` |
| `MarkdownLinks` | `markdown_links.dfy` |
| `MappingRows` | `mapping_rows.dfy` |
| `RowSort` | `row_sort.dfy` |
| `MappingSheet` | `mapping_sheet.dfy` |

## Model

| member | source | states |
|---|---|---|
| JsonValues.Resolve | ocdskit/oc4ids_transforms.py:131 | `resolve_pointer` with a default: the empty pointer gives the document itself. A result other than the default means the first key exists in an object. |
| JsonValues.ResolveSnoc | ocdskit/oc4ids_transforms.py:309 | Resolving a longer pointer is looking its last key up, with the default, in what the shorter pointer resolves to. |
| Strings.LessIrreflexive | ocdskit/cli/commands/upgrade.py:17 | No string is less than itself under Python's `<` on strings. |
| Strings.LessTransitive | ocdskit/cli/commands/upgrade.py:17 | Python's `<` on strings is transitive. |
| Strings.LessTotal | ocdskit/mapping_sheet.py:83 | Any two different strings are ordered one way or the other, so a sort key of strings is totally ordered. |
| Strings.LessAsymmetric | ocdskit/cli/commands/upgrade.py:17 | `a < b` and `b < a` never both hold. |
| Strings.LessAtFirstDifference | ocdskit/oc4ids_transforms.py:715-716 | Two strings that agree up to a position and differ there are ordered by their characters at that position, as `min` and `max` on date strings compare them. |
| Strings.LessEqTransitive | ocdskit/mapping_sheet.py:83 | `<=` on strings is transitive. |
| Strings.LessEqLess | ocdskit/mapping_sheet.py:83 | `a <= b < c` implies `a < c`. |
| Strings.JoinTwo | ocdskit/mapping_sheet.py:128 | `sep.join([a, b])` is `a + sep + b`. |
| Strings.Split | ocdskit/cli/commands/upgrade.py:16 | `str.split` on one character gives at least one piece, and no piece holds the separator. |
| Strings.JoinSplit | ocdskit/cli/commands/upgrade.py:16 | Joining the pieces of a split with the separator gives back the string. |
| Strings.SplitAtOne | ocdskit/cli/commands/upgrade.py:16 | A string with exactly one colon splits into its two sides. |
| Strings.SplitNone | ocdskit/cli/commands/upgrade.py:16 | A string without the separator splits into itself alone. |
| Strings.ReplaceAbsentChar | ocdskit/cli/commands/upgrade.py:23 | Replacing a character that does not occur changes nothing. |
| Strings.ReplaceOneChar | ocdskit/cli/commands/upgrade.py:25 | Replacing a character that occurs once changes that occurrence only. |
| Strings.ReplaceCharConcat | ocdskit/cli/commands/upgrade.py:23 | Replacing a one-character pattern distributes over concatenation. |
| Strings.ReplaceCharKeepsOut | ocdskit/cli/commands/upgrade.py:23 | A character in neither the string nor the replacement is not in the result. |
| Strings.ReplaceDeletes | ocdskit/cli/commands/upgrade.py:23 | Replacing a character by `''` removes every occurrence and never lengthens the string. |
| Strings.ReplaceSkips | ocdskit/mapping_sheet.py:127 | A prefix without the pattern's first character is kept as it is. |
| Strings.ReplaceHead | ocdskit/mapping_sheet.py:127 | An occurrence at the start is replaced and the scan goes on after it. |
| Strings.ReplaceAbsent | ocdskit/mapping_sheet.py:127 | A string without the pattern's first character is left alone. |
| Strings.ReplaceMiss | ocdskit/mapping_sheet.py:127 | Where the pattern does not start, the first character is kept and the scan moves one character on. |
| CommandBase.Prefix | ocdskit/cli/commands/base.py:86-87 | The item prefix is the root path when one is given and non-empty, and `''` otherwise. |
| CommandBase.FlattenAppend | ocdskit/cli/commands/base.py:89-98 | Flattening works item by item: the items of a concatenated input are the concatenated items. |
| CommandBase.FlattenWithoutArrays | ocdskit/cli/commands/base.py:89-98 | Input without array items is yielded unchanged. |
| CommandBase.FlattenMembers | ocdskit/cli/commands/base.py:89-98 | A value is yielded if and only if it is a non-array input item or an entry of an array input item. |
| CommandBase.NonEmptyEntriesAppend | ocdskit/cli/commands/base.py:136-139 | One more publisher option adds its entry exactly when its value is non-empty. |
| CommandBase.ParsePackageArguments | ocdskit/cli/commands/base.py:120-141 | With `fake`, an empty uri or published date becomes the placeholder. Other values are kept as given. The publisher holds name, uri, scheme and uid, in that order, for the non-empty options only. |
| CommandBase.PrintOptions | ocdskit/cli/commands/base.py:68-79 | `indent` is 2 exactly when `pretty` is set. `ensure_ascii` is true exactly when `ascii` is set. No other option is passed. |
| CombineReleasePackages.LastValueFound | ocdskit/cli/commands/combine_release_packages.py:25-27 | An optional field is carried over if and only if some package has it, and then from the last package that has it. |
| CombineReleasePackages.LastValueStep | ocdskit/cli/commands/combine_release_packages.py:25-27 | After one more package, a field comes from that package if it has the field, and is unchanged otherwise. |
| CombineReleasePackages.CarryOptionalFields | ocdskit/cli/commands/combine_release_packages.py:25-27 | `license`, `publicationPolicy` and `version` come from the last package that has them. All other keys are untouched. |
| CombineReleasePackages.AddPackage | ocdskit/cli/commands/combine_release_packages.py:15-29 | One package keeps the invariant: releases are all releases so far in order, the metadata is the last package's, and optional fields are as carried. |
| CombineReleasePackages.Combine | ocdskit/cli/commands/combine_release_packages.py:11-31 | Success if and only if every package is well formed. Otherwise the error is the first bad package's, in the order the keys are read: not a dict, a missing key, `extensions` (a `KeyError` on the output), or `releases` that `extend` cannot iterate. On success the releases are everything `extend` added, package by package in order: a list's items, a string's characters, a dict's keys. `uri`, `publishedDate` and `publisher` are the last package's. Optional fields appear if and only if some package has them. No input gives `{"releases": []}`. |
| Chunking.SliceLoop | ocdskit/cli/commands/split_record_packages.py:22-23 | The loop over `range(0, len(records), size)` takes exactly the chunks, in order. |
| Chunking.ChunksConcat | ocdskit/cli/commands/split_record_packages.py:22-23 | The chunks, read in order, are exactly the package's records. |
| Chunking.ChunksSizes | ocdskit/cli/commands/split_record_packages.py:22-23 | Every chunk is non-empty and holds at most `size` records. All but the last hold exactly `size`. |
| Chunking.ChunksCount | ocdskit/cli/commands/split_record_packages.py:22 | The number of chunks is the number of records divided by `size`, rounded up. |
| SplitRecordPackages.SplitPackage | ocdskit/cli/commands/split_record_packages.py:12-25 | Errors, in the source's order: a non-dict package, missing `records`, `records` without a length (not a list, string or dict), a zero size. A negative size emits nothing. A dict `records` emits nothing when empty and fails on slicing otherwise. A list or a string emits one package per chunk: the input package without `packages`, with `records` set to that chunk (a list, or a substring). |
| UpgradeCommand.PlanOfPair | ocdskit/cli/commands/upgrade.py:13-25 | For `from:to`: the direction is `up` if and only if `from < to`. The function name is `upgrade_` plus both sides without dots, joined by `_`. When no such function exists, the error names the direction and both versions. |
| UpgradeCommand.MethodNameOfPair | ocdskit/cli/commands/upgrade.py:23 | The derived name drops the dots of each side and joins the sides with `_`. |
| UpgradeCommand.EqualVersionsGoDown | ocdskit/cli/commands/upgrade.py:17-20 | Equal versions are a downgrade. |
| UpgradeCommand.NoColonFails | ocdskit/cli/commands/upgrade.py:16 | An argument without a colon fails to unpack. |
| UpgradeCommand.ExampleMethodName | tests/commands/test_compile.py:109 | `1.0:1.1` names `upgrade_10_11`. |
| Oc4idsState.ReleasesWithOcid | ocdskit/oc4ids_transforms.py:68-72 | A group is no longer than the releases and holds only releases with its ocid. |
| Oc4idsState.ReleasesWithOcidMembers | ocdskit/oc4ids_transforms.py:68-72 | A release is in a group if and only if it is an input release with that ocid. |
| Oc4idsState.ReleasesWithOcidEmpty | ocdskit/oc4ids_transforms.py:68-72 | A group is empty exactly when no release has that ocid. |
| Oc4idsState.GroupStep | ocdskit/oc4ids_transforms.py:72 | One more release extends its own group and leaves every other group alone. |
| Oc4idsState.LinkedEmbeddedPartition | ocdskit/oc4ids_transforms.py:85-87 | Linked and embedded releases partition the record's releases: together a permutation of them, each in input order, each of its own kind only. |
| Oc4idsState.CompiledRelease | ocdskit/oc4ids_transforms.py:82-92 | The compiled release gains `releases` and `embeddedReleases`. Every other key is the record's compiled release's. |
| Oc4idsState.GroupByOcid | ocdskit/oc4ids_transforms.py:68-72 | `releases_by_ocid` has a key exactly for each non-empty ocid of some release. Each key's value is that ocid's group, in order. |
| Oc4idsState.CompileRecords | ocdskit/oc4ids_transforms.py:81-94 | One compiled release per record, in order. |
| Oc4idsState.TransformState.constructor | ocdskit/oc4ids_transforms.py:65-97 | The state holds the releases and their ocid groups, one compiled release per record, and the output template. The project id is set only when given and the template has no `id`. |
| Oc4idsState.SetTender | ocdskit/oc4ids_transforms.py:242-244 | Only `summary.tender[key]` changes, and the tender stays a dict. |
| Oc4idsCopy.StrList | ocdskit/oc4ids_transforms.py:115 | The new roles, in order, as JSON strings. |
| Oc4idsCopy.PartyCopyRoles | ocdskit/oc4ids_transforms.py:112-116 | Without new roles the copy equals the party. Otherwise only its roles differ, extended by the new roles. It keeps the role it was chosen for. |
| Oc4idsCopy.RoleCopiesInMembers | ocdskit/oc4ids_transforms.py:107-117 | The copies from one party list are exactly the copies of its parties with the role. |
| Oc4idsCopy.RoleCopiesSound | ocdskit/oc4ids_transforms.py:100-120 | Every copied party comes from some compiled release's party with the role. |
| Oc4idsCopy.RoleCopiesComplete | ocdskit/oc4ids_transforms.py:100-120 | Every party with the role, in every compiled release, is copied. |
| Oc4idsCopy.RoleCopiesFound | ocdskit/oc4ids_transforms.py:100-120 | Something is copied if and only if some party has the role. |
| Oc4idsCopy.AppendPartiesUpdates | ocdskit/oc4ids_transforms.py:109-117 | Appending copies changes `parties` only, and leaves the copies at its end. No copies change nothing. |
| Oc4idsCopy.AppendPartiesSnoc | ocdskit/oc4ids_transforms.py:117 | Appending one more copy appends it to the parties so far. |
| Oc4idsCopy.CopyFromParties | ocdskit/oc4ids_transforms.py:107-118 | The inner loop appends the copies of one release's parties with the role, and reports whether there were any. |
| Oc4idsCopy.CopyPartyByRole | ocdskit/oc4ids_transforms.py:100-120 | The project's parties gain every party with the role from every compiled release, in order, with the new roles added. Success if and only if any was copied. |
| Oc4idsCopy.DocumentsOfType | ocdskit/oc4ids_transforms.py:131-136 | Every document found is a dict of the requested `documentType`. |
| Oc4idsCopy.TypedDocuments | ocdskit/oc4ids_transforms.py:130-136 | Every document found in any compiled release is a dict of the requested type. |
| Oc4idsCopy.DocumentsOfTypeFound | ocdskit/oc4ids_transforms.py:131-136 | A document list yields a document if and only if one entry has that type. |
| Oc4idsCopy.TypedDocumentsFound | ocdskit/oc4ids_transforms.py:123-137 | Documents are found if and only if some compiled release has a planning document of that type. |
| Oc4idsCopy.AddDocumentsUpdates | ocdskit/oc4ids_transforms.py:127-135 | Only `documents` changes: a falsy value becomes the documents found, and a list is extended by them. |
| Oc4idsCopy.CopyFromDocuments | ocdskit/oc4ids_transforms.py:132-136 | The inner loop appends one release's documents of the type, and reports whether there were any. |
| Oc4idsCopy.CopyDocumentByType | ocdskit/oc4ids_transforms.py:123-137 | The project's documents gain every planning document of the type, in order. Success if and only if any was found. |
| Oc4idsCopy.OcidLinesEmpty | ocdskit/oc4ids_transforms.py:140-151 | The joined lines are empty exactly when there are no compiled releases, since each contributes at least four characters. |
| Oc4idsCopy.ConcatOcidAndString | ocdskit/oc4ids_transforms.py:140-151 | One `<ocid> value` line per compiled release, in order. Empty exactly when there are no compiled releases. |
| Oc4idsProject.FirstTruthyIsFirst | ocdskit/oc4ids_transforms.py:164-169 | A value is found if and only if some compiled release has a truthy value at the pointer. It is the value of the first such release. |
| Oc4idsProject.CopyFirstTruthy | ocdskit/oc4ids_transforms.py:162-194 | The first truthy value is stored under the key and the search stops. Success if and only if there was one. Nothing else changes. |
| Oc4idsProject.Sector | ocdskit/oc4ids_transforms.py:162-170 | The project's sector is the first truthy `planning.project.sector`. |
| Oc4idsProject.AdditionalClassifications | ocdskit/oc4ids_transforms.py:173-183 | The project's classifications are the first truthy `planning.project.additionalClassifications`. |
| Oc4idsProject.Title | ocdskit/oc4ids_transforms.py:186-194 | The project's title is the first truthy `planning.project.title`. |
| Oc4idsProject.TitleFromTender | ocdskit/oc4ids_transforms.py:197-208 | A truthy title is kept and reports success. Otherwise the title is the first truthy `tender.title`. |
| JsonValues.ExtensionAdds | ocdskit/oc4ids_transforms.py:388 | `list.extend` adds a list's items as they are, a string's characters one by one, and each key of a dict once. It adds something exactly when the value is truthy. |
| Oc4idsProject.AllLocationsFound | ocdskit/oc4ids_transforms.py:382-394 | Locations are collected if and only if some compiled release has truthy project locations, be they a list, a string or a dict. |
| Oc4idsProject.Location | ocdskit/oc4ids_transforms.py:382-394 | Every release's truthy locations are collected in order, as `extend` adds them. The transform succeeds exactly when some release has truthy locations. The project gets them when there are any, and is unchanged otherwise. |
| Oc4idsProject.ItemLocation | ocdskit/oc4ids_transforms.py:409-415 | An item contributes at most two locations: its delivery location and its wrapped delivery address. |
| Oc4idsProject.ItemLocationsFound | ocdskit/oc4ids_transforms.py:407-415 | A release's items yield locations if and only if some item has a truthy delivery location or address. |
| Oc4idsProject.FirstItemLocationsFound | ocdskit/oc4ids_transforms.py:397-422 | Item locations are found if and only if some item of some release has one, and what is found is never empty. |
| Oc4idsProject.CollectItemLocations | ocdskit/oc4ids_transforms.py:407-415 | The inner loop collects one release's item locations in order. |
| Oc4idsProject.LocationFromItems | ocdskit/oc4ids_transforms.py:397-422 | Truthy project locations are kept. Otherwise the project takes the item locations of the first release that has any. |
| Oc4idsProject.BudgetCurrenciesMembers | ocdskit/oc4ids_transforms.py:435-442 | A currency is in the collected set if and only if some compiled release has it, with `True` and `1` (and `False` and `0`) as one member, as in a Python set. |
| Oc4idsProject.BudgetCurrenciesAgree | ocdskit/oc4ids_transforms.py:444-450 | The set has one member if and only if every compiled release has the first one's currency, so the total is written exactly when the currencies agree. |
| Oc4idsProject.Budget | ocdskit/oc4ids_transforms.py:425-451 | One compiled release: a truthy `planning.budget.amount` becomes the project's `budget.amount` as it is, and success; a falsy one changes nothing. Several: success if and only if the currencies agree, and then `budget.amount` holds the total and the first release's currency; otherwise nothing changes. |
| Oc4idsProject.SingleOrConcat | ocdskit/oc4ids_transforms.py:466-499 | With one compiled release, its truthy value is taken as it is. With several, their `<ocid> value` lines are joined. With none, nothing changes and the result is failure. |
| Oc4idsProject.Purpose | ocdskit/oc4ids_transforms.py:466-479 | The purpose from `planning.rationale`, by the single-or-joined rule. |
| Oc4idsProject.Description | ocdskit/oc4ids_transforms.py:486-499 | The description from `planning.project.description`, by the single-or-joined rule. |
| Oc4idsProject.DescriptionTender | ocdskit/oc4ids_transforms.py:502-518 | A truthy description is kept. Otherwise the description comes from `tender.description`, by the single-or-joined rule. |
| Oc4idsSummaryRules.SetTenderIfTruthy | ocdskit/oc4ids_transforms.py:374-379 | A truthy value is stored in the summary's tender. A falsy one changes nothing. |
| Oc4idsSummaryRules.ProcuringEntityStep | ocdskit/oc4ids_transforms.py:240-244 | A truthy `tender.procuringEntity` is copied into the summary's tender. Otherwise nothing changes. |
| Oc4idsSummaryRules.PartiesWithRoleMembers | ocdskit/oc4ids_transforms.py:253-256 | The parties kept are exactly those with the role. |
| Oc4idsSummaryRules.PartiesWithRoleSole | ocdskit/oc4ids_transforms.py:253-264 | Exactly one party kept means exactly one position of the list holds a party with the role. |
| Oc4idsSummaryRules.EntityRef | ocdskit/oc4ids_transforms.py:266-268 | A reference holds exactly the party's `id` and `name`. |
| Oc4idsSummaryRules.AdministrativeEntityStep | ocdskit/oc4ids_transforms.py:252-270 | With exactly one administrative entity, the summary's tender refers to it. With none or several, nothing changes. |
| Oc4idsSummaryRules.ProcurementProcessStep | ocdskit/oc4ids_transforms.py:354-368 | A truthy `procurementMethod` and a truthy `procurementMethodDetails` are each copied into the summary's tender with their values, whatever the other is. With both falsy nothing changes. Every other tender field (such as `procuringEntity`) and every other summary key is kept. |
| Oc4idsSummaryRules.NumberOfTenderersStep | ocdskit/oc4ids_transforms.py:371-379 | A truthy `numberOfTenderers` is copied into the tender. Otherwise nothing changes. |
| Oc4idsSummaryRules.ContractTitleChain | ocdskit/oc4ids_transforms.py:574-599 | The title comes from the only contract, else the only award, else a truthy tender title, else nothing changes. Only `title` changes. |
| Oc4idsSummaryRules.SupplierRefs | ocdskit/oc4ids_transforms.py:606-610 | One reference per supplier party, in order. |
| Oc4idsSummaryRules.SuppliersStep | ocdskit/oc4ids_transforms.py:605-613 | The summary lists the suppliers when there are any. Otherwise nothing changes. |
| Oc4idsSummaryRules.SupplierRefsComplete | ocdskit/oc4ids_transforms.py:606-613 | Every party with the supplier role is referenced. |
| Oc4idsSummaryRules.Descriptions | ocdskit/oc4ids_transforms.py:645-649 | Only truthy descriptions are collected. |
| Oc4idsSummaryRules.ItemDescriptions | ocdskit/oc4ids_transforms.py:650-654 | Only truthy item descriptions are collected. |
| Oc4idsSummaryRules.ProcessDescription | ocdskit/oc4ids_transforms.py:640-696 | The description picked is truthy, or there is none. A description picked is one of the release's own: a contract's, a contract item's, an award's, an award item's, the tender's or a tender item's. |
| Oc4idsSummaryRules.DescriptionStep | ocdskit/oc4ids_transforms.py:640-696 | A description found is stored in the summary. Otherwise nothing changes. |
| Oc4idsSummaryRules.SoleContractDescription | ocdskit/oc4ids_transforms.py:655-657 | A sole contract with a truthy description supplies the process description. |
| Oc4idsSummaryRules.TenderDescriptionFallback | ocdskit/oc4ids_transforms.py:681-685 | Without contracts and awards, a truthy tender description is picked. |
| Oc4idsSummaryRules.TwoContractDescriptionsFallThrough | ocdskit/oc4ids_transforms.py:655-685 | Two contracts with descriptions and no items, and no awards: neither is picked, and a truthy tender description is. |
| Oc4idsSummaryRules.MinStringIsLeast | ocdskit/oc4ids_transforms.py:715 | `min` of non-empty strings is one of them and no string is before it. |
| Oc4idsSummaryRules.MaxStringIsGreatest | ocdskit/oc4ids_transforms.py:716 | `max` of non-empty strings is one of them and no string is after it. |
| Oc4idsSummaryRules.StartDates | ocdskit/oc4ids_transforms.py:705-709 | Only non-empty start dates are collected. |
| Oc4idsSummaryRules.EndDates | ocdskit/oc4ids_transforms.py:710-712 | Only non-empty end dates are collected (the corrected list). |
| Oc4idsSummaryRules.EndDatesAsWritten | ocdskit/oc4ids_transforms.py:710-712 | The list as written has one entry per award with an end date, as the corrected list does. |
| Oc4idsSummaryRules.ContractPeriodSpans | ocdskit/oc4ids_transforms.py:701-718 | With award dates on both ends, the period runs from the earliest award start to the latest award end. Only `contractPeriod` changes. |
| Oc4idsSummaryRules.ContractPeriodFromTender | ocdskit/oc4ids_transforms.py:720-723 | Without award dates on both ends, a truthy tender contract period is taken as it is. |
| Oc4idsSummaryRules.TwoAwardsDates | tests/test_oc4ids_tranforms.py:1323-1346 | For the test's two awards, start dates are 2000 and 1999. The end-date list is the start dates as written, and the two 3000 dates as intended. |
| Oc4idsSummaryRules.TwoAwardsOrder | ocdskit/oc4ids_transforms.py:715-716 | The earliest and latest of the test's dates. |
| Oc4idsSummaryRules.ContractPeriodAsWrittenEndsAtStart | ocdskit/oc4ids_transforms.py:711-717 | As written, the test's process period ends 2000-01-01, a start date. As intended it ends 3000-02-01. |
| Oc4idsStatus.ContractPeriods | ocdskit/oc4ids_transforms.py:286-292 | One period for a non-empty tender, plus one per contract and one per award. |
| Oc4idsStatus.ContractStatus | ocdskit/oc4ids_transforms.py:275-351 | The status, if any, is `pre-award`, `active` or `closed`. Only a non-empty tender that is not cancelled, unsuccessful or withdrawn can be pre-award. Such a closed tender always gets `active` or `closed`, and `active` when some contract is active. An open tender without awards or contracts is pre-award, whatever the time. A release without tender, awards or contracts is closed. No status is given only when the tender is not closed and some period has not ended. |
| Oc4idsStatus.StatusStep | ocdskit/oc4ids_transforms.py:279-351 | The summary gets the status when there is one, and is unchanged otherwise. |
| Oc4idsProcesses.NewProcess | ocdskit/oc4ids_transforms.py:217-231 | A new process has the shape later transforms need: an object with an object summary. |
| Oc4idsProcesses.NewProcessShape | ocdskit/oc4ids_transforms.py:217-231 | The process and its summary carry the ocid. Releases and embedded releases appear only when truthy. There are no other members. |
| Oc4idsProcesses.ContractingProcessSetup | ocdskit/oc4ids_transforms.py:211-233 | The processes are replaced by one new process per compiled release, in order. Nothing else changes, and the result is success. |
| Oc4idsProcesses.ApplyRuleKeepsSummaryOk | ocdskit/oc4ids_transforms.py:239-244 | No summary rule turns the tender into anything but a dict. |
| Oc4idsProcesses.UpdatedProcesses | ocdskit/oc4ids_transforms.py:239 | `zip` keeps one process per compiled release. |
| Oc4idsProcesses.SummarizedShape | ocdskit/oc4ids_transforms.py:239-244 | After a rule, each process differs only in its summary, which is the rule's result for the release at the same position. Nothing outside the processes changes. |
| Oc4idsProcesses.UpdateSummaries | ocdskit/oc4ids_transforms.py:239 | The zip loop rewrites every summary by the rule. |
| Oc4idsProcesses.AppendPartiesKeepsProcesses | ocdskit/oc4ids_transforms.py:237 | Copying parties leaves the contracting processes alone. |
| Oc4idsProcesses.ProcuringEntity | ocdskit/oc4ids_transforms.py:236-246 | `procuringEntity` parties are copied, then every tender gets its procuring entity. Success if and only if a party was copied. |
| Oc4idsProcesses.AdministrativeEntity | ocdskit/oc4ids_transforms.py:249-272 | `administrativeEntity` parties are copied, then every tender refers to its sole administrative entity. |
| Oc4idsProcesses.ContractStatusTransform | ocdskit/oc4ids_transforms.py:275-351 | Every summary gets its status at time `now`. |
| Oc4idsProcesses.ProcurementProcess | ocdskit/oc4ids_transforms.py:354-368 | Every summary gets its procurement method and details. |
| Oc4idsProcesses.NumberOfTenderers | ocdskit/oc4ids_transforms.py:371-379 | Every summary gets its number of tenderers. |
| Oc4idsProcesses.ContractTitle | ocdskit/oc4ids_transforms.py:574-599 | Every summary gets its title by the contract, award, tender chain. |
| Oc4idsProcesses.Suppliers | ocdskit/oc4ids_transforms.py:602-613 | Supplier parties are copied, then every summary lists its suppliers. |
| Oc4idsProcesses.ContractProcessDescription | ocdskit/oc4ids_transforms.py:640-696 | Every summary gets its description. |
| Oc4idsProcesses.ContractPeriod | ocdskit/oc4ids_transforms.py:699-723 | Every summary gets its contract period by the corrected rule of the finding below: the end date comes from the awards' end dates, where the source takes their start dates. |
| Oc4idsProcesses.LastPlanningValueIsLast | ocdskit/oc4ids_transforms.py:562-566 | A planning value exists if and only if some release is in planning with a truthy value. It is the last such release's value. |
| Oc4idsProcesses.LatestPlanningValue | ocdskit/oc4ids_transforms.py:561-566 | The inner loop finds that last planning value. |
| Oc4idsProcesses.CostEstimateSummary | ocdskit/oc4ids_transforms.py:568-571 | The summary's tender stays a dict. |
| Oc4idsProcesses.CostEstimateIsLastPlanningValue | ocdskit/oc4ids_transforms.py:557-571 | The cost estimate is the tender value of the last planning release of the process's ocid. Without one, the summary is kept. |
| Oc4idsProcesses.CostEstimated | ocdskit/oc4ids_transforms.py:559 | One process out per process in. |
| Oc4idsProcesses.CostEstimate | ocdskit/oc4ids_transforms.py:557-571 | Every process gets its cost estimate. Only the processes change. |
| Oc4idsFunding.AsFunder | ocdskit/oc4ids_transforms.py:543-546 | The party has the `funder` role afterwards. |
| Oc4idsFunding.AsFunderKeeps | ocdskit/oc4ids_transforms.py:543-546 | Only the roles change. Every old role is kept and `funder` is appended. |
| Oc4idsFunding.MarkSources | ocdskit/oc4ids_transforms.py:539-546 | Marking keeps the number of parties. |
| Oc4idsFunding.MarkedSourcesAreFunders | ocdskit/oc4ids_transforms.py:539-547 | Every appended party is a funder with the breakdown's party id. |
| Oc4idsFunding.MarkedSourcesNone | ocdskit/oc4ids_transforms.py:538-548 | Nothing is appended exactly when no party matches, and then the parties are unchanged. |
| Oc4idsFunding.FundBreakdowns | ocdskit/oc4ids_transforms.py:533-548 | The breakdowns keep the number of parties. |
| Oc4idsFunding.FundBreakdownsFunders | ocdskit/oc4ids_transforms.py:533-548 | Every funder found has the `funder` role and a truthy id. With none found, the parties are unchanged. |
| Oc4idsFunding.FundedReleaseChanges | ocdskit/oc4ids_transforms.py:529-548 | Only a compiled release's parties change, and only when funders are found. |
| Oc4idsFunding.FundedReleaseKeepsObjects | ocdskit/oc4ids_transforms.py:540-546 | Parties that are dicts stay dicts. |
| Oc4idsFunding.AllFundersNone | ocdskit/oc4ids_transforms.py:527-548 | No funders overall exactly when no compiled release has any. |
| Oc4idsFunding.MarkSourcesInPlace | ocdskit/oc4ids_transforms.py:539-548 | The party loop marks the matching parties and returns them. |
| Oc4idsFunding.FundOneRelease | ocdskit/oc4ids_transforms.py:529-548 | The breakdown loop gives the funded release and its funders. |
| Oc4idsFunding.PartiesAfterStep | ocdskit/oc4ids_transforms.py:547-553 | One more release appends its funders. While the parties are still empty, the `funder` parties are copied instead. |
| Oc4idsFunding.FundingHeadStep | ocdskit/oc4ids_transforms.py:551-553 | The head of the parties changes only when they are empty after a release, and then becomes the copies. |
| Oc4idsFunding.FundNextRelease | ocdskit/oc4ids_transforms.py:527-553 | One pass of the release loop keeps the funding invariant. |
| Oc4idsFunding.FundingSources | ocdskit/oc4ids_transforms.py:521-554 | The project's parties end as the old parties (or the `funder` copies, when empty) followed by every funder found. The compiled releases keep their marked parties. Success if and only if a funder was found or the copy ran. |
| Oc4idsPipeline.SelectedMembers | ocdskit/oc4ids_transforms.py:44-48 | A transform is selected if and only if it is listed and not skipped. The list's order is kept. |
| Oc4idsPipeline.SelectedKeepsHead | ocdskit/oc4ids_transforms.py:44-48 | A first transform that is not skipped stays first. |
| Oc4idsPipeline.SelectedAll | ocdskit/oc4ids_transforms.py:46 | With `all`, nothing is skipped. |
| Oc4idsPipeline.MandatoryTransformsRun | ocdskit/oc4ids_transforms.py:730-769 | Every transform outside the optional list runs whatever the configuration, and `contracting_process_setup` runs first. |
| Oc4idsPipeline.SelectTransforms | ocdskit/oc4ids_transforms.py:42-48 | The selection loop gives the selected transforms. |
| Oc4idsPipeline.IdUntouched | ocdskit/oc4ids_transforms.py:730-760 | No transform writes the project's `id`. |
| Oc4idsPipeline.ProcessesKept | ocdskit/oc4ids_transforms.py:59-60 | A change outside `contractingProcesses` keeps the processes and their ids. |
| Oc4idsPipeline.SummarizedKeepsIds | ocdskit/oc4ids_transforms.py:239 | A summary rule keeps every process's id and changes nothing outside the processes. |
| Oc4idsPipeline.AppendPartiesReady | ocdskit/oc4ids_transforms.py:109-117 | Copying parties keeps the project well formed and changes `parties` only. |
| Oc4idsPipeline.AddDocumentsReady | ocdskit/oc4ids_transforms.py:127-135 | Copying documents keeps the project well formed and changes `documents` only. |
| Oc4idsPipeline.FundedReleasesReady | ocdskit/oc4ids_transforms.py:529-548 | Funding keeps every compiled release well formed, its ocid, and its budget amount and currency. |
| Oc4idsPipeline.RunSetup | ocdskit/oc4ids_transforms.py:211-233 | After setup the state is ready for per-process transforms. Only the processes change. |
| Oc4idsPipeline.RunPartyCopy | ocdskit/oc4ids_transforms.py:154-159 | `public_authority_role` and `buyer_role` change `parties` only. |
| Oc4idsPipeline.RunDocumentCopy | ocdskit/oc4ids_transforms.py:454-463 | The document transforms change `documents` only. |
| Oc4idsPipeline.SetBudget | ocdskit/oc4ids_transforms.py:425-451 | `budget` changes the project's `budget` only. |
| Oc4idsPipeline.RunField | ocdskit/oc4ids_transforms.py:162-208 | The project-field transforms change their own key only. |
| Oc4idsPipeline.RunSummary | ocdskit/oc4ids_transforms.py:236-272 | The summary transforms change the processes and, for the party-copying ones, `parties` only. |
| Oc4idsPipeline.RunFunding | ocdskit/oc4ids_transforms.py:521-554 | Funding changes `parties` only and keeps the releases' ocids. |
| Oc4idsPipeline.RunCostEstimate | ocdskit/oc4ids_transforms.py:557-571 | The cost estimate changes the processes only. |
| Oc4idsPipeline.ApplyTransform | ocdskit/oc4ids_transforms.py:59-60 | Each transform keeps the state ready and changes only the keys it touches. Only funding changes the compiled releases, and it keeps their ocids. |
| Oc4idsPipeline.RunTransforms | ocdskit/oc4ids_transforms.py:31-62 | The project has one contracting process per record, each identified by its compiled release's ocid. Its `id` is the given project id when the template had none, and the template's otherwise. |
| MarkdownLinks.IndexOf | ocdskit/mapping_sheet.py:8 | The first occurrence of a character at or after a position, or none. |
| MarkdownLinks.LinkAt | ocdskit/mapping_sheet.py:8 | A match at the start spans exactly the Markdown of a link with non-empty text without `]` and a non-empty URL without `)`. |
| MarkdownLinks.LinkAtMarkup | ocdskit/mapping_sheet.py:8 | The Markdown of a well-formed link is matched as a whole. |
| MarkdownLinks.FindLinksSkips | ocdskit/mapping_sheet.py:124 | Text without `[` holds no link. |
| MarkdownLinks.FindLinksMarkup | ocdskit/mapping_sheet.py:124 | A link at the start is found, and the search goes on after it. |
| MarkdownLinks.TwoLinksFound | ocdskit/mapping_sheet.py:124 | Two well-formed links side by side are both found, in order. |
| MarkdownLinks.PutNew | ocdskit/mapping_sheet.py:124 | Keying by text appends a link whose text is new. |
| MarkdownLinks.SameTextDict | ocdskit/mapping_sheet.py:124 | Keyed by text, two links with one text leave only the second. |
| MarkdownLinks.DistinctTextsAgree | ocdskit/mapping_sheet.py:124-128 | With distinct texts nothing is lost by keying on text, so the as-written and corrected columns agree. |
| MarkdownLinks.Urls | ocdskit/mapping_sheet.py:128 | The URLs of the entries, in order. |
| MarkdownLinks.StripLinks | ocdskit/mapping_sheet.py:125-127 | The replacement loop replaces each entry's Markdown by its text, in entry order. |
| MarkdownLinks.StrippedOne | ocdskit/mapping_sheet.py:127 | Stripping one entry is one replacement. |
| MarkdownLinks.StrippedTwo | ocdskit/mapping_sheet.py:126-127 | Stripping two entries is two replacements, in order. |
| MarkdownLinks.OneLinkStripped | ocdskit/mapping_sheet.py:123-128 | A description with one link loses the link's Markdown and keeps its text. The `links` column is its URL. |
| MarkdownLinks.ReplaceFirst | ocdskit/mapping_sheet.py:127 | Replacing the first link's Markdown leaves the second link in place. |
| MarkdownLinks.ReplaceSecond | ocdskit/mapping_sheet.py:127 | Replacing the second link's Markdown leaves the first link in place. |
| MarkdownLinks.SameTextAsWritten | ocdskit/mapping_sheet.py:124-128 | As written, two links with one text and two URLs leave the first link's Markdown in the description. Only the second URL is listed. |
| MarkdownLinks.SameTextCorrected | ocdskit/mapping_sheet.py:124-128 | Corrected, both links become their text and both URLs are listed. |
| MappingRows.RemoveFirst | ocdskit/mapping_sheet.py:138-139 | `list.remove` drops exactly one occurrence when there is one, and otherwise (behind the `in` test) nothing. |
| MappingRows.RemoveFirstCuts | ocdskit/mapping_sheet.py:139 | The first occurrence is the one removed, and the rest keep their order. |
| MappingRows.StringsOf | ocdskit/mapping_sheet.py:136 | The strings of a list of JSON strings, position by position. |
| MappingRows.TypeNames | ocdskit/mapping_sheet.py:133-136 | A string type is a one-name list. A list type gives its names in order. |
| MappingRows.EnumParts | ocdskit/mapping_sheet.py:159-162 | One value per enum entry once the first `None` is dropped. |
| MappingRows.EnumPartsListed | ocdskit/mapping_sheet.py:158-167 | A string is listed in the values if and only if the enum holds it. |
| MappingRows.RangeColumn | ocdskit/mapping_sheet.py:130-152 | The range is one of `0..1`, `0..n`, `1..1`, `1..n`. It starts with `1` if and only if the field is required or, with `infer_required`, its type lacks `null` and includes `string` or `integer`. |
| MappingRows.RangeMaximum | ocdskit/mapping_sheet.py:143-151 | The range ends in `n` if and only if the type, without `null`, is the single name `array`. |
| MappingRows.JoinIsArray | ocdskit/mapping_sheet.py:151 | A joined type list reads `array` only when it is the single name `array`. |
| MappingRows.TypeColumnWithoutNull | ocdskit/mapping_sheet.py:132-145 | The type column lists the type names in order, with the first `null` cut out. |
| MappingRows.HeadColumns | ocdskit/mapping_sheet.py:112-121 | Every row has path, title, inherited deprecation and section. |
| MappingRows.WithDescription | ocdskit/mapping_sheet.py:123-128 | `description` and `links` appear exactly when the schema has a description. They are filled by the corrected link rule of the finding below (every distinct link), not by `dict(findall(...))`. |
| MappingRows.WithTypeColumns | ocdskit/mapping_sheet.py:130-169 | `type`, `range` and `values` are always set. |
| MappingRows.WithDeprecation | ocdskit/mapping_sheet.py:171-173 | `deprecated` and `deprecationNotes` are set exactly when the schema is deprecated. |
| MappingRows.RowOf | ocdskit/mapping_sheet.py:111-175 | A row's columns: the fixed ones, plus description/links and deprecationNotes exactly when the schema has them. The links columns use the corrected link rule. |
| MappingRows.TypeAndRange | ocdskit/mapping_sheet.py:130-152 | The type loop gives the type and range columns. |
| MappingRows.MakeRow | ocdskit/mapping_sheet.py:111-175 | `_make_row`, key by key, builds that row, with the corrected link rule for `description` and `links`. |
| RowSort.Position | ocdskit/mapping_sheet.py:83 | A row goes after every row whose key is not greater, and before the first greater one. |
| RowSort.Insert | ocdskit/mapping_sheet.py:83 | Inserting adds exactly the row. |
| RowSort.SortBy | ocdskit/mapping_sheet.py:83 | The sorted rows are a permutation of the rows. |
| RowSort.InsertSorted | ocdskit/mapping_sheet.py:83 | Inserting into sorted rows keeps them sorted. |
| RowSort.SortBySorted | ocdskit/mapping_sheet.py:83 | The sorted rows are in ascending key order. |
| RowSort.NoMatchAfter | ocdskit/mapping_sheet.py:83 | No row after the insertion point shares the inserted key. |
| RowSort.InsertMatching | ocdskit/mapping_sheet.py:83 | The rows with a key, after an insertion, split around the new row. |
| RowSort.InsertStable | ocdskit/mapping_sheet.py:83 | An inserted row comes after every row with the same key. |
| RowSort.SortByStable | ocdskit/mapping_sheet.py:83 | The sort is stable: rows sharing a key keep their input order. |
| MappingSheet.WithExtension | ocdskit/mapping_sheet.py:102-105 | The extension is the schema's when it has one, else the parent's when it has one, else absent. No other column changes. |
| MappingSheet.AddedInheritsExtension | ocdskit/mapping_sheet.py:95-106 | A row made for a schema without the `extension_field` value has an extension if and only if its parent path's row has one, and then the same. The rows before it and the parent's entry are kept. |
| MappingSheet.OwnRowInheritsExtension | ocdskit/mapping_sheet.py:61-70 | A field's own row, after any `$ref` row, inherits its extension from the row registered under the parent path before the field. |
| MappingSheet.StepInheritsExtension | ocdskit/mapping_sheet.py:53-79 | In one field's pass, the field's own row inherits its extension from the row registered under the parent path before the pass, past a `$ref` row added first. |
| MappingSheet.BuildInheritsExtension | ocdskit/mapping_sheet.py:52-79 | In the field loop, the last field's own row inherits its extension from the row last registered under its parent path by the fields before it. |
| MappingSheet.ItemsHeader | ocdskit/mapping_sheet.py:74-79 | The header row of an array of objects has a path. |
| MappingSheet.BuildCount | ocdskit/mapping_sheet.py:52-79 | A field under `definitions` gives no row. Any other gives one, plus one for a `$ref` and one for an array of titled objects. |
| MappingSheet.AddedKeepsPath | ocdskit/mapping_sheet.py:97-108 | Adding a row keeps the rows before it and the new row's path. |
| MappingSheet.StepPaths | ocdskit/mapping_sheet.py:53-79 | A field's pass keeps earlier rows and adds rows carrying the field's path. |
| MappingSheet.BuildPaths | ocdskit/mapping_sheet.py:52-79 | Every row carries the path of a field outside `definitions`. |
| MappingSheet.OrderRows | ocdskit/mapping_sheet.py:81-85 | No sort column keeps the rows. A sort column some row lacks gives the missing-column error (tests/commands/test_mapping_sheet.py:63). Otherwise the rows come back sorted and permuted. |
| MappingSheet.SheetBuilder.constructor | ocdskit/mapping_sheet.py:50-51 | The builder starts with no rows and no paths. |
| MappingSheet.SheetBuilder.AddRow | ocdskit/mapping_sheet.py:97-108 | The row (given, or made) gets its extension, is appended and is registered under its path. |
| MappingSheet.SheetBuilder.AddField | ocdskit/mapping_sheet.py:53-79 | One field's pass: skip, reference row, own row, header row. |
| MappingSheet.BuildRows | ocdskit/mapping_sheet.py:50-79 | The field loop builds the rows. |
| MappingSheet.BuildMappingSheet | ocdskit/mapping_sheet.py:11-85 | `mapping_sheet` up to the CSV writer: the ordered rows, or the missing-column error. The rows use the corrected link rule. |

## Left out

- `contract_price` (`ocdskit/oc4ids_transforms.py:616-637`) sums amounts as floats, and `cast` to float is not part of this model. The transform list is modelled without it.
- Oc4idsProject.Budget: with several compiled releases, the float sum of their `planning.budget.amount.amount` values (`ocdskit/oc4ids_transforms.py:438-441`, `448`) is not computed. The model takes it as the parameter `total`, which `Oc4idsPipeline.RunTransforms` receives as `budgetTotal`. The currency check and the shape of the written budget are modelled.
- Oc4idsProject.Budget: requires at least one compiled release, since with none `next(iter(set()))` raises `StopIteration`. With several releases it also requires each amount to be a number, a string or a boolean, and each currency not a list or a dict. Otherwise `float()` or `set.add` raises `TypeError`, for instance on a release with no budget amount, because `cast` catches only `ValueError`.
- `number_of_tenderers` is modelled (`Oc4idsProcesses.NumberOfTenderers`) but, like the source, it is not in the transform list, so the pipeline never runs it.
- Oc4idsState.TransformState.constructor: requires non-empty records. Merging releases into records (`ocdskit.combine.merge`) and `sorted_releases` from ocdsmerge are not part of this model, so the releases keep the order given.
- Oc4idsPipeline.RunTransforms: requires non-empty, well-formed records and a well-formed output template. In each compiled release the parties, contracts and awards must be dicts, and truthy project locations a list, a string or a dict. The ocid may be any value but a list or a dict, which cannot key `releases_by_ocid`. Each record's releases must be dicts. With several records, each compiled release's budget amount and currency must meet `Oc4idsProject.Budget`'s requires. The project's `parties` must be a list or absent, and its `documents` falsy or a list. The source would crash otherwise.
- Oc4idsPipeline.RunTransforms: its ensures state only the pipeline's invariant (one process per record, in order, with the record's ocid as id, and the project id kept). The project's parties, documents, copied fields and process summaries after the transforms are stated transform by transform, not at the end of the run.
- Oc4idsPipeline.RunTransforms: the fallback of `_run_transforms` to the whole list when given no transforms cannot fire from `run_transforms`, because the selection always holds `contracting_process_setup` (`Oc4idsPipeline.MandatoryTransformsRun`). Calling `_run_transforms` directly with a hand-picked list is not modelled.
- Oc4idsCopy.CopyPartyByRole: requires the project's `parties` to be a list or absent when a party is copied, where the source would fail on `append`.
- Oc4idsProcesses.CostEstimate: requires hashable process ids; an unhashable id would make the source raise `TypeError` in `releases_by_ocid.get`.
- `contract_status` reads the clock; the model takes the current time as the parameter `now`.
- `check_type` warnings and every other log message are left out.
- `funding_sources` appends the very party object it marks, so later changes to one show in the other. The model copies values and does not capture this aliasing.
- JSON objects are maps, so the key order of the output (and of the CSV columns) is not modelled.
- `get_schema_fields` (`ocdskit.schema`) and jsonref's `__reference__` are not part of this model. The fields arrive as `SchemaField` records carrying their path, required flag, inherited deprecation, schema and referenced schema.
- Oc4idsProcesses.ContractPeriod: runs the corrected rule `Oc4idsSummaryRules.ContractPeriodStep` (end dates from the awards' end dates), not the source's rule, which takes start dates; the as-written rule is `Oc4idsSummaryRules.ContractPeriodAsWrittenStep`, shown apart under "## Findings". The pipeline, which runs `contract_period`, inherits the corrected rule.
- MappingRows.MakeRow: fills `description` and `links` by the corrected link rule (`MarkdownLinks.DescriptionColumn`, `MarkdownLinks.LinksColumn`: every distinct link), not by `dict(findall(...))`, which keeps only the last link of each text; the as-written columns are `MarkdownLinks.DescriptionAsWritten` and `MarkdownLinks.LinksAsWritten`, shown apart under "## Findings".
- MappingRows.WithDescription: the same corrected link rule as `MappingRows.MakeRow`.
- MappingRows.RowOf: the same corrected link rule as `MappingRows.MakeRow`.
- MappingSheet.BuildMappingSheet: its rows come from `MappingRows.MakeRow`, so they carry the corrected link rule.
- MappingSheet.BuildMappingSheet: requires `MappingSheet.FieldOk` of every field outside `definitions`. That is a non-empty path, where `_make_row` would raise `IndexError`; schemas that meet `MappingRows.MakeRow`'s `SchemaOk`; and a `type` in an `items` schema that has `properties` and a `title`, where the source raises `KeyError` (`ocdskit/mapping_sheet.py:78`).
- CombineReleasePackages.Combine: a dict `releases` adds its keys in ascending string order, since JSON objects here keep no key order; Python adds them in the dict's insertion order.
- Oc4idsProject.Location: a dict of locations adds its keys in ascending string order, as in `CombineReleasePackages.Combine`. The requires excludes truthy locations that are a number or `true`, where `extend` raises `TypeError` and the whole run stops.
- SplitRecordPackages.SplitPackage: the emitted packages are returned together. The source prints each one as it goes, but no error can come after the first print.
- JSON numbers are integers only; a float such as `0.0` (falsy in Python) cannot be represented.
- MappingRows.MakeRow: requires `SchemaOk`, where the source would crash or write odd cells: `description` a string, `type` a string or a list of strings, `enum` a list of strings and nulls, `items` and `deprecated` dicts.
- MappingSheet.OrderRows: requires the sort column to hold strings in every row that has it. Python would also sort numbers, and sorts a single row of any value.
- The regular expression of `INLINE_LINK_RE` is replaced by a scanner (`MarkdownLinks.LinkAt`, `MarkdownLinks.FindLinks`) that matches the same pattern left to right, as `findall` does.
- `order_by=None` is represented by the empty string, and `extension_field=None` by `None` of `Option`.
- The CSV writer (`ocdskit/mapping_sheet.py:87-94`) is left out, and with it the header order. Rows set `extension` while the header lists the `extension_field` name; with any other name `DictWriter` would reject the row, and the model does not capture this.
- Reading standard input (`StandardInputReader`, `ijson`, `self.buffer()`), `print` and argument parsing are I/O and are left out. The commands are modelled on the parsed values.
- The `upgrade_*` functions themselves are not part of this model; `UpgradeCommand.PlanUpgrade` takes the set of names they define.

## Findings

| source | as written | input that shows it | evidently intended | confidence | as-written member | corrected member |
|---|---|---|---|---|---|---|
| ocdskit/oc4ids_transforms.py:711-712 | For each award with an end date, `end_dates` gets the award's start date, so the process period ends at the latest start date | The two awards of tests/test_oc4ids_tranforms.py:1323-1346 (1999-01-01 to 3000-01-01 and 2000-01-01 to 3000-02-01): the period ends 2000-01-01 | `end_dates.append(end_date)`: the period ends 3000-02-01, the value that test writes | not executed | Oc4idsSummaryRules.ContractPeriodAsWrittenEndsAtStart | Oc4idsSummaryRules.ContractPeriodSpans |
| ocdskit/mapping_sheet.py:124-128 | `dict(findall(...))` keys links by their text, so of two links with one text only the last survives | Description `[a](x)[a](y)`: the description becomes `[a](x)a` and the links column `y` | Both links stripped and both URLs listed: `aa` and `x, y` | not executed | MarkdownLinks.SameTextAsWritten | MarkdownLinks.SameTextCorrected |
