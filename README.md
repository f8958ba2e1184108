# ngx-doc-gen core, modelled in Dafny

ngx-doc-gen generates API documentation for Angular libraries in an Nx workspace. On top of the Dgeni
documentation pipeline it adds document processors and helpers. This project models those pieces, together
with the two Nx generators that add a `doc-gen` target to library projects:

- **Decorator and member predicates, selector splitting, the standalone flag and deprecation decoration**
  (`decorators.dfy`, module `Decorators`). The regular-expression split `/\s*,\s*/` is written out as a
  scan for the first comma with the greedy white-space runs on both sides.
- **Directive metadata extraction** (`directive_metadata.dfy`). There must be exactly one
  call-expression decorator named Component, Directive or Pipe. Its argument objects are merged into a
  string map by nested loops, and a later string value for a key wins.
- **The private-docs filter** (`docs_private_filter.dfy`). It keeps the public documents in order,
  renames a kept document to its `docs-public` alias, and narrows members and statics.
- **The entry-point list of a package** (`package_utils.dfy`): the primary entry point first, then the
  secondaries.
- **The entry-point grouper** (`entry_point_grouper.dfy`), the stateful core.
  - Each document is matched to the last registered entry point with the same base path.
  - Each document is filed into a group created on first sight, under the key `package-name`.
  - The group's role lists are filled by a fixed precedence.
  - A second pass chooses each group's primary export.
  - `EntryPointGrouper` and `EntryPointDoc` are classes whose methods update their fields. They are proved
    against the pure function `GroupEntryPoints`. That function is a fold (`Grouped`) followed by the second
    pass (`WithPrimaryExport`).
  - Separate lemmas characterise the fold independently: keys, first-seen order, list contents in input
    order, the header fields, and the primary-export choice.
- **The configure and install generators** (`generators.dfy`). The Nx tree is a class holding the project
  map. The generators differ only in what an empty `projects` option selects.
- **The log-service patch** (`patch_log_service.dfy`). The log is a class recording what reaches the
  original `warn`. After patching, a message is dropped exactly when it contains
  `Unresolved TypeScript symbol` and matches `_\w+Base`.

`wrappers.dfy` (Option, Result) and `sequences.dfy` (Filter, subsequence, Join) are shared helpers.
`docs.dfy` holds the document record.

Functions the repository imports from files that are not part of this model are function-typed
parameters. These are `isPublicDoc`, `getDocsPublicTag`, `hasJsDocTag`, `findJsDocTag` and
`computeApiDocumentUrl`.

## Model

All source paths are under `libs/ngx-doc-gen/src/`.

| member | source | states |
|---|---|---|
| Decorators.IsMethod | libs/ngx-doc-gen/src/common/decorators.ts:12-17 | an accessor is never a method; a method has parameters; any non-accessor with parameters is one |
| Decorators.IsGenericTypeParameter | libs/ngx-doc-gen/src/common/decorators.ts:19-27 | true iff the container is a class whose type parameters are exactly `<name>` (the truthiness test never decides) |
| Decorators.IsProperty | libs/ngx-doc-gen/src/common/decorators.ts:29-40 | a generic type parameter is never a property; a property is a property member or an accessor, and every such member that is not the type parameter is one |
| Decorators.SomeNamed | libs/ngx-doc-gen/src/common/decorators.ts:122 | `some` is true iff a decorator at some index has the name |
| Decorators.HasDecorator | libs/ngx-doc-gen/src/common/decorators.ts:115-124 | true iff the list exists and some decorator carries the name (the length test never decides) |
| Decorators.HasMemberDecorator | libs/ngx-doc-gen/src/common/decorators.ts:101-106 | false unless `docType` is "member"; otherwise as HasDecorator |
| Decorators.HasClassDecorator | libs/ngx-doc-gen/src/common/decorators.ts:108-113 | false unless `docType` is "class"; otherwise as HasDecorator |
| Decorators.IsDirective | libs/ngx-doc-gen/src/common/decorators.ts:42-46 | true iff a class has a Component or a Directive decorator (both is still true) |
| Decorators.IsPipe | libs/ngx-doc-gen/src/common/decorators.ts:48-50 | true iff a class has a Pipe decorator |
| Decorators.IsService | libs/ngx-doc-gen/src/common/decorators.ts:52-54 | true iff a class has an Injectable decorator |
| Decorators.IsNgModule | libs/ngx-doc-gen/src/common/decorators.ts:56-58 | true iff a class has an NgModule decorator |
| Decorators.RemoveLineBreaks | libs/ngx-doc-gen/src/common/decorators.ts:78 | the result holds no CR and no LF |
| Decorators.IsDeprecatedDoc | libs/ngx-doc-gen/src/common/decorators.ts:60-62 | whether the document has a `deprecated` JSDoc tag, through the tag-lookup parameter |
| Decorators.IsPrimaryExportDoc | libs/ngx-doc-gen/src/common/decorators.ts:64-67 | whether the document has a `docs-primary-export` JSDoc tag, through the tag-lookup parameter |
| Decorators.SplitOnCommaWs | libs/ngx-doc-gen/src/common/decorators.ts:79 | at least one piece; no piece holds a comma, nor a CR or LF the input lacks |
| Decorators.GetDirectiveSelectors | libs/ngx-doc-gen/src/common/decorators.ts:69-84 | none iff there is no metadata or the selector is missing or empty; otherwise every selector is non-empty with no comma, CR or LF |
| Decorators.SplitOnCommaWsJoin | libs/ngx-doc-gen/src/common/decorators.ts:79 | splitting plain names joined by ", " gives the names back |
| Decorators.SelectorsRoundTrip | libs/ngx-doc-gen/src/common/decorators.ts:77-80 | the selector pipeline inverts a ", " join of plain selectors |
| Decorators.TrailingLineBreak | libs/ngx-doc-gen/src/common/decorators.ts:78 | a trailing line break does not change the selectors |
| Decorators.SelectorsExample | libs/ngx-doc-gen/src/common/decorators.ts:77-80 | "app-x, app-y\n" gives ["app-x", "app-y"] |
| Decorators.SingleSelector | libs/ngx-doc-gen/src/common/decorators.ts:72-80 | a non-empty selector with no comma, CR or LF is the only selector |
| Decorators.LineBreakSelector | libs/ngx-doc-gen/src/common/decorators.ts:76-80 | a selector made only of a line break is truthy, so the result is an empty list, not none |
| Decorators.GetPipeName | libs/ngx-doc-gen/src/common/decorators.ts:86-91 | the `name` entry when metadata and the entry exist, otherwise none |
| Decorators.IsStandalone | libs/ngx-doc-gen/src/common/decorators.ts:93-99 | true iff metadata has a `standalone` entry that is not "false" (an empty value counts) |
| Decorators.GetBreakingChange | libs/ngx-doc-gen/src/common/decorators.ts:126-132 | the tag's description when the tag is found, otherwise null |
| Decorators.DecorateDeprecatedDoc | libs/ngx-doc-gen/src/common/decorators.ts:138-151 | `isDeprecated` is "has a deprecated tag"; `breakingChange` is the looked-up description; nothing else changes; a warning with the fixed text and the doc id is given iff deprecated with a null or empty breaking change |
| DirectiveMetadata.AngularDecorators | libs/ngx-doc-gen/src/common/directive-metadata.ts:18-27 | the two chained filters equal one filter by "call expression named Component, Directive or Pipe"; a missing list is empty |
| DirectiveMetadata.GetDirectiveMetadata | libs/ngx-doc-gen/src/common/directive-metadata.ts:15-46 | null iff the number of qualifying decorators is not one; otherwise the map the nested loops build from the decorator's argument objects, which is empty without `argumentInfo` |
| DirectiveMetadata.SetStringEntriesLastWins | libs/ngx-doc-gen/src/common/directive-metadata.ts:38-42 | over one entry list, a key is present iff some entry gives it a string, and it holds the last such string |
| DirectiveMetadata.MergedIsFlattened | libs/ngx-doc-gen/src/common/directive-metadata.ts:37-43 | filling argument object after argument object equals filling from their concatenated entries |
| DirectiveMetadata.MetadataLastStringWins | libs/ngx-doc-gen/src/common/directive-metadata.ts:36-43 | the metadata holds a key iff some argument object gives it a string value; it holds the last one, so non-strings are dropped and later strings win |
| DirectiveMetadata.NonQualifyingDecoratorIgnored | libs/ngx-doc-gen/src/common/directive-metadata.ts:20-32 | inserting a non-call or differently named decorator anywhere does not change the qualifying list |
| PrivateFilter.AliasedName | libs/ngx-doc-gen/src/processors/docs-private-filter.ts:23-28 | an API doc whose public tag has a non-empty description takes it as its name; otherwise the name is unchanged |
| PrivateFilter.NarrowDoc | libs/ngx-doc-gen/src/processors/docs-private-filter.ts:21-39 | the forEach body gives the alias rename and the member and static narrowing of `Narrowed` |
| PrivateFilter.DocsPrivateFilter.constructor | libs/ngx-doc-gen/src/processors/docs-private-filter.ts:15-16 | the default tag names are docs-public and docs-private |
| PrivateFilter.DocsPrivateFilter.Process | libs/ngx-doc-gen/src/processors/docs-private-filter.ts:18-42 | the result is the public docs in input order, each narrowed |
| PrivateFilter.PublicOnlyIsPassingSubsequence | libs/ngx-doc-gen/src/processors/docs-private-filter.ts:19 | the kept docs are an order-preserving subsequence; each passing doc is kept as often as it occurs and no failing doc is kept |
| PrivateFilter.NarrowedKeepsIdentity | libs/ngx-doc-gen/src/processors/docs-private-filter.ts:21-39 | narrowing keeps id, class and base path; the new member and static lists are subsequences of the old ones |
| PrivateFilter.NarrowedByKind | libs/ngx-doc-gen/src/processors/docs-private-filter.ts:30-38 | interfaces and classes keep exactly their public members, and classes exactly their public statics; all other lists stay as they were |
| PackageUtils.CollectEntrypoints | libs/ngx-doc-gen/src/utils/package-utils.ts:16-21 | length is 1 + the number of secondaries; the primary comes first; the secondaries follow in order |
| EntryPointGrouping.MatchingEntryPoint | libs/ngx-doc-gen/src/processors/entry-point-grouper.ts:211-220 | none iff no entry point has the base path; otherwise an entry point with it and no later one with it |
| EntryPointGrouping.MatchingIsLast | libs/ngx-doc-gen/src/processors/entry-point-grouper.ts:211-220 | the entry point at the last index with the base path is the match |
| EntryPointGrouping.SecondaryOverridesPrimary | libs/ngx-doc-gen/src/processors/entry-point-grouper.ts:211-220 | over the collected list, the last secondary with a base path wins over earlier ones and over the primary |
| EntryPointGrouping.ModulePackageInfo | libs/ngx-doc-gen/src/processors/entry-point-grouper.ts:194-208 | an error iff no entry point matches, and it names the doc and the base path; otherwise name and entry-point name are the entry point's, package name is its package.json name |
| EntryPointGrouping.Placements | libs/ngx-doc-gen/src/processors/entry-point-grouper.ts:100-111 | the first pass over the documents: on success one placed document per input document |
| EntryPointGrouping.PlacementsSuccess | libs/ngx-doc-gen/src/processors/entry-point-grouper.ts:100-101 | the first pass gets through iff every document has a matching entry point |
| EntryPointGrouping.PlacementsFailure | libs/ngx-doc-gen/src/processors/entry-point-grouper.ts:100-101 | a failure is the error of the first unmatched document |
| EntryPointGrouping.PlacementsFailureStays | libs/ngx-doc-gen/src/processors/entry-point-grouper.ts:100-101 | once a prefix fails, the later documents do not change the error |
| EntryPointGrouping.PlacementsValues | libs/ngx-doc-gen/src/processors/entry-point-grouper.ts:101-111 | on success, document i is placed with its module info and its public URL assigned |
| EntryPointGrouping.RoleOf | libs/ngx-doc-gen/src/processors/entry-point-grouper.ts:127-147 | the role precedence: directive, then service, then NgModule, then by `docType` (class, interface, type-alias, function, const) |
| EntryPointGrouping.AddDoc | libs/ngx-doc-gen/src/processors/entry-point-grouper.ts:122-151 | filing keeps name, id and aliases; sets the display name, package and import path from the document's module info; a tagged document sets the primary export to its name, an untagged one keeps it |
| EntryPointGrouping.GroupedStep | libs/ngx-doc-gen/src/processors/entry-point-grouper.ts:113-151 | one more document files into its existing group, or into a new group appended to the order |
| EntryPointGrouping.GroupedWellFormed | libs/ngx-doc-gen/src/processors/entry-point-grouper.ts:113-120 | the map's keys are exactly the order's keys, and none is listed twice |
| EntryPointGrouping.GroupedKeys | libs/ngx-doc-gen/src/processors/entry-point-grouper.ts:107-120 | a key has a group iff some document carries it |
| EntryPointGrouping.GroupedOrderGrows | libs/ngx-doc-gen/src/processors/entry-point-grouper.ts:113-120 | the order of a prefix of the documents is a prefix of the order, so groups come in first-seen order |
| EntryPointGrouping.ListOfAddDoc | libs/ngx-doc-gen/src/processors/entry-point-grouper.ts:127-147 | filing appends the doc to the list of its role and to no other list |
| EntryPointGrouping.GroupList | libs/ngx-doc-gen/src/processors/entry-point-grouper.ts:127-147 | each role list holds exactly the group's documents of that role, in input order |
| EntryPointGrouping.GroupHarnesses | libs/ngx-doc-gen/src/processors/entry-point-grouper.ts:134-138 | the harness list holds exactly the group's class-role docs flagged as test harnesses, in input order |
| EntryPointGrouping.GroupContents | libs/ngx-doc-gen/src/processors/entry-point-grouper.ts:127-147 | all role lists and the harness list at once |
| EntryPointGrouping.GroupHeader | libs/ngx-doc-gen/src/processors/entry-point-grouper.ts:114-124 | name is the key; id is "entry-point-" + key; aliases are empty; display name, package and import path come from the group's last document |
| EntryPointGrouping.TaggedPrimaryExport | libs/ngx-doc-gen/src/processors/entry-point-grouper.ts:149-151 | after the first pass the primary export is set iff a document of the group is tagged, and then it is the last tagged one's name |
| EntryPointGrouping.FirstNonDeprecated | libs/ngx-doc-gen/src/processors/entry-point-grouper.ts:180-191 | null iff all docs are deprecated; otherwise the first non-deprecated doc |
| EntryPointGrouping.WithPrimaryExport | libs/ngx-doc-gen/src/processors/entry-point-grouper.ts:157-171 | a frame: only the primary export may change, and not when it is already set (which name is chosen: ModulePrimaryExport, HarnessPrimaryExport, PrimaryExportNull) |
| EntryPointGrouping.WithPrimaryExportNone | libs/ngx-doc-gen/src/processors/entry-point-grouper.ts:157-171 | the result stays null iff it was null and every NgModule and every harness is deprecated |
| EntryPointGrouping.PrimaryExportNull | libs/ngx-doc-gen/src/processors/entry-point-grouper.ts:149-171 | a group's primary export is null iff no document of the group is tagged and all its NgModules and harnesses are deprecated |
| EntryPointGrouping.ModulePrimaryExport | libs/ngx-doc-gen/src/processors/entry-point-grouper.ts:162-165 | without a tag, the first non-deprecated NgModule of the group, in input order, is the primary export |
| EntryPointGrouping.HarnessPrimaryExport | libs/ngx-doc-gen/src/processors/entry-point-grouper.ts:167-170 | without a tag and with every NgModule deprecated, the first non-deprecated test harness of the group, in input order, is the primary export |
| EntryPointGrouping.GroupEntryPoints | libs/ngx-doc-gen/src/processors/entry-point-grouper.ts:97-174 | succeeds iff every document has an entry point with its base path; a failure is the error of the first unmatched document |
| EntryPointGrouping.GroupEntryPointsValue | libs/ngx-doc-gen/src/processors/entry-point-grouper.ts:157-173 | a successful result is each group of the first pass, in key order, after the second pass |
| EntryPointGrouping.OneEntryPointPerKey | libs/ngx-doc-gen/src/processors/entry-point-grouper.ts:113-120 | the result's names are pairwise distinct and are exactly the documents' keys; each id is "entry-point-" + name |
| EntryPointGrouping.EntryPointDoc.constructor | libs/ngx-doc-gen/src/processors/entry-point-grouper.ts:23-85 | a new entry point has the name, the id "entry-point-" + name, empty lists and a null primary export |
| EntryPointGrouping.EntryPointGrouper.constructor | libs/ngx-doc-gen/src/processors/entry-point-grouper.ts:95 | the registered entry points start empty |
| EntryPointGrouping.EntryPointGrouper.FindMatchingEntryPoint | libs/ngx-doc-gen/src/processors/entry-point-grouper.ts:211-220 | the loop returns MatchingEntryPoint |
| EntryPointGrouping.EntryPointGrouper.GetModulePackageInfo | libs/ngx-doc-gen/src/processors/entry-point-grouper.ts:194-208 | returns ModulePackageInfo, the error included |
| EntryPointGrouping.EntryPointGrouper.FindBestPrimaryExport | libs/ngx-doc-gen/src/processors/entry-point-grouper.ts:180-191 | the early-return loop gives FirstNonDeprecated |
| EntryPointGrouping.EntryPointGrouper.PushByRole | libs/ngx-doc-gen/src/processors/entry-point-grouper.ts:127-147 | each list grows by the doc iff the doc has that role (harnesses also need the flag); the header fields are unchanged |
| EntryPointGrouping.EntryPointGrouper.FileDoc | libs/ngx-doc-gen/src/processors/entry-point-grouper.ts:122-151 | the entry point's new value is AddDoc of its old value |
| EntryPointGrouping.EntryPointGrouper.FileGroup | libs/ngx-doc-gen/src/processors/entry-point-grouper.ts:113-151 | after one document, the map and order equal Grouped of the longer prefix; a new group is fresh; groups stay distinct objects |
| EntryPointGrouping.EntryPointGrouper.GroupDocs | libs/ngx-doc-gen/src/processors/entry-point-grouper.ts:98-152 | the first pass fails with the Placements error, or builds distinct fresh objects whose values are Grouped |
| EntryPointGrouping.EntryPointGrouper.ChoosePrimaryExport | libs/ngx-doc-gen/src/processors/entry-point-grouper.ts:157-171 | the entry point's new value is WithPrimaryExport of its old value |
| EntryPointGrouping.EntryPointGrouper.FillPrimaryExports | libs/ngx-doc-gen/src/processors/entry-point-grouper.ts:157-171 | every entry point of the list gets its second-pass value |
| EntryPointGrouping.EntryPointGrouper.Process | libs/ngx-doc-gen/src/processors/entry-point-grouper.ts:97-174 | fails exactly when GroupEntryPoints does, with its error; otherwise returns distinct fresh entry-point objects whose values are GroupEntryPoints' result, in order |
| NxWorkspace.Tree.UpdateProjectConfiguration | libs/ngx-doc-gen/src/generators/configure/generator.ts:40 | the project map gets the configuration under the name |
| ConfigureUtils.CreateNonExistingProjectsErrorMessage | libs/ngx-doc-gen/src/generators/configure/utils.ts:1-3 | the text starts with the fixed prefix and ends with `".`; an empty list gives exactly prefix + `".` |
| ConfigureUtils.MessageListsNames | libs/ngx-doc-gen/src/generators/configure/utils.ts:2 | reading the names back out of the message gives the list, in order, for names without commas, line breaks or padding |
| ConfigureGenerator.WorkspaceLibraries | libs/ngx-doc-gen/src/generators/configure/generator.ts:15-17 | a candidate is exactly a "library" project whose `targets.build` is an object or null |
| ConfigureGenerator.NonExistingProjects | libs/ngx-doc-gen/src/generators/configure/generator.ts:22 | the requested names that are not candidates, in requested order, each as often as it was requested; no candidate appears |
| ConfigureGenerator.SelectedLibraries | libs/ngx-doc-gen/src/generators/configure/generator.ts:31 | an empty request selects every candidate; otherwise exactly the requested candidates |
| ConfigureGenerator.WithDocGenTarget | libs/ngx-doc-gen/src/generators/configure/generator.ts:34-38 | with targets, `doc-gen` becomes the ngx-doc-gen executor and other targets are kept; without targets nothing changes |
| ConfigureGenerator.ConfigureResult | libs/ngx-doc-gen/src/generators/configure/generator.ts:4-47 | a failure means some non-empty requested name is not a candidate; a success keeps every project name and leaves every non-candidate project as it was |
| ConfigureGenerator.ConfigureAll | libs/ngx-doc-gen/src/generators/configure/generator.ts:33-44 | the loop leaves the tree equal to Configured over the selection |
| ConfigureGenerator.Configure | libs/ngx-doc-gen/src/generators/configure/generator.ts:4-47 | returns the error and leaves the tree unchanged exactly when ConfigureResult fails; otherwise the tree becomes its project map |
| ConfigureGenerator.ConfigureFailsIff | libs/ngx-doc-gen/src/generators/configure/generator.ts:22-25 | fails iff a non-empty requested name is not a candidate, existing applications and non-buildable libraries included; the message lists all non-candidates |
| ConfigureGenerator.ConfigureChangesOnlySelected | libs/ngx-doc-gen/src/generators/configure/generator.ts:31-44 | on success, exactly the selected candidates gain the doc-gen target and keep their other targets; every other project is unchanged |
| InstallGenerator.InstallSelection | libs/ngx-doc-gen/src/generators/install/generator.ts:25 | exactly the candidates named in the request |
| InstallGenerator.InstallResult | libs/ngx-doc-gen/src/generators/install/generator.ts:4-41 | a failure means some non-empty requested name is not a candidate; a success keeps every project name and leaves every non-candidate project as it was |
| InstallGenerator.Install | libs/ngx-doc-gen/src/generators/install/generator.ts:4-41 | returns the error and leaves the tree unchanged exactly when InstallResult fails; otherwise the tree becomes its project map |
| InstallGenerator.InstallEmptyRequestChangesNothing | libs/ngx-doc-gen/src/generators/install/generator.ts:15-25 | a missing or empty request leaves every project as it was |
| InstallGenerator.InstallAgreesWithConfigure | libs/ngx-doc-gen/src/generators/install/generator.ts:11-34 | for a non-empty request install and configure give the same result |
| InstallGenerator.InstallFailsIff | libs/ngx-doc-gen/src/generators/install/generator.ts:18-23 | install fails exactly when configure does, with the same message |
| LogPatch.IncludesIff | libs/ngx-doc-gen/src/utils/patch-log-service.ts:15 | the scan is true iff the text occurs at some position |
| LogPatch.WordsThenBaseIff | libs/ngx-doc-gen/src/utils/patch-log-service.ts:2 | the backtracking scan for `\w+Base` is true iff one or more word characters are followed by "Base" |
| LogPatch.MixinNameTestIff | libs/ngx-doc-gen/src/utils/patch-log-service.ts:2 | the regex test is true iff some `_`, then one or more ASCII word characters, then "Base" occur in a row |
| LogPatch.IsSuppressedWarning | libs/ngx-doc-gen/src/utils/patch-log-service.ts:15 | a suppressed message contains the unresolved-symbol text |
| LogPatch.SuppressedIff | libs/ngx-doc-gen/src/utils/patch-log-service.ts:15-17 | dropped iff the message contains "Unresolved TypeScript symbol" and holds a `_\w+Base` match |
| LogPatch.SuppressesMixinWarning | libs/ngx-doc-gen/src/utils/patch-log-service.ts:15-17 | the symbol text followed by `_Name` + "Base" is dropped |
| LogPatch.OneConditionIsNotEnough | libs/ngx-doc-gen/src/utils/patch-log-service.ts:15 | a message meeting only one of the two conditions is forwarded |
| LogPatch.WarnEffect | libs/ngx-doc-gen/src/utils/patch-log-service.ts:14-20 | unpatched, all arguments pass; patched, nothing passes iff suppressed, else only the message |
| LogPatch.PatchedTrace | libs/ngx-doc-gen/src/utils/patch-log-service.ts:12-19 | after patching, the original `warn` gets each unsuppressed message once, alone, in call order |
| LogPatch.UnpatchedTrace | libs/ngx-doc-gen/src/utils/patch-log-service.ts:12 | before patching, every call passes with all its arguments, in order |
| LogPatch.Log.Warn | libs/ngx-doc-gen/src/utils/patch-log-service.ts:14-20 | the original `warn`'s calls grow by WarnEffect; other methods' calls and the patch state are unchanged |
| LogPatch.Log.Call | libs/ngx-doc-gen/src/utils/patch-log-service.ts:11-20 | another log method records its call and is unaffected by the patch |
| LogPatch.PatchLogService | libs/ngx-doc-gen/src/utils/patch-log-service.ts:11-21 | from then on `warn` filters; nothing already logged changes |

## Left out

- Documents are values. A processor that assigns fields of a document returns the updated record. Aliasing is therefore not captured, e.g. one document object reached from two collections.
- The grouper assigns `publicUrl` to documents before a later document can throw. Because documents are values, that side effect before the error is not visible in the model.
- Fields the source leaves `undefined` are modelled as `""`, e.g. a new entry point's display name.
- Dgeni itself is not part of this model: its engine, dependency injection, the scheduling by `$runBefore`/`$runAfter` (only the declared names are kept), templates and file output.
- `isPublicDoc`, `getDocsPublicTag`, `hasJsDocTag`, `findJsDocTag` and `computeApiDocumentUrl` are not part of this model. They are uninterpreted parameters.
- File-system discovery, JSON parsing, the CLI, the executor and the init generator are not part of this model.
- The generators' `logger` output and `formatFiles` are left out because they are console and disk I/O.
- Both generators build the error text inline instead of calling `createNonExistingProjectsErrorMessage`. The text is the same, so it is modelled once.
- ConfigureGenerator.ConfigureAll walks the selected names as a set, not in workspace order. Each step writes a different project, so the final tree is the same.
- The tests at `generators/configure/generator.spec.ts:157-286` expect no error for applications and non-buildable libraries. The code throws for them, and the model follows the code.
- The comment in `_findBestPrimaryExport` says an all-deprecated group falls back to the last deprecated document. The code returns null, and the model follows the code (EntryPointGrouping.PrimaryExportNull).
- Base paths are matched by exact equality. There is no prefix fallback.
- The grouper throws at the first unmatched document. Later unmatched documents are never reported.
- A class test harness sits in two lists (classes and harnesses), and documents of other types sit in none.
- `GroupKey` joins package and entry-point name with "-". Two different splits can collide, e.g. "a-b" + "c" and "a" + "b-c". The model keeps that collision.
- JavaScript `Map` insertion order of the directive metadata is not modelled. Dafny maps are unordered. Which keys are present and their values are modelled.
- LogPatch.Log.Warn takes a string message. The source called with no argument, or with a non-string, would throw inside `includes`, and that case is not modelled.
- Patching the log twice nests two identical filters. It is modelled as one flag, which gives the same forwarded calls.
- `\w` is the ASCII class, as in JavaScript without the `u` flag.
