/**
 * The processor that buckets documents into entry points and picks each entry point's
 * primary export (libs/ngx-doc-gen/src/processors/entry-point-grouper.ts).
 */
module EntryPointGrouping {
  import opened Wrappers
  import opened DgeniDocs
  import opened Decorators
  import opened NgInterfaces
  import opened PackageUtils
  import opened Sequences

  datatype ModuleInfo = ModuleInfo(name: string, packageName: string, entryPointName: string)

  /** The error thrown for a document whose base path belongs to no registered entry point. */
  datatype GroupingError = UnresolvedEntryPoint(docName: string, basePath: string)
  {
    function Message(): string
    {
      "Could not determine entry-point for: " + docName + " in " + basePath
    }
  }

  /** `computeApiDocumentUrl(doc, moduleInfo)`: defined outside this model, so a parameter. */
  type ComputeApiDocumentUrl = (Doc, ModuleInfo) -> string

  // ---- matching a document to an entry point ----

  /** The last registered entry point whose base path equals `basePath`. */
  function MatchingEntryPoint(entryPoints: seq<NgEntrypoint>, basePath: string): (r: Option<NgEntrypoint>)
    ensures r.None? <==> forall i :: 0 <= i < |entryPoints| ==> entryPoints[i].basePath != basePath
    ensures r.Some? ==> exists i :: 0 <= i < |entryPoints| && entryPoints[i] == r.value &&
                          entryPoints[i].basePath == basePath &&
                          forall j :: i < j < |entryPoints| ==> entryPoints[j].basePath != basePath
    decreases |entryPoints|
  {
    if entryPoints == [] then None
    else
      var last := entryPoints[|entryPoints| - 1];
      if last.basePath == basePath then Some(last)
      else MatchingEntryPoint(entryPoints[..|entryPoints| - 1], basePath)
  }

  function ModulePackageInfo(entryPoints: seq<NgEntrypoint>, doc: Doc): (r: Result<ModuleInfo, GroupingError>)
    ensures r.Failure? <==> MatchingEntryPoint(entryPoints, doc.basePath).None?
    ensures r.Failure? ==> r.error == UnresolvedEntryPoint(doc.name, doc.basePath)
    ensures r.Success? ==> var ep := MatchingEntryPoint(entryPoints, doc.basePath).value;
              r.value == ModuleInfo(ep.entrypointName, ep.packageJson.name, ep.entrypointName)
  {
    match MatchingEntryPoint(entryPoints, doc.basePath)
    case None => Failure(UnresolvedEntryPoint(doc.name, doc.basePath))
    case Some(ep) => Success(ModuleInfo(ep.entrypointName, ep.packageJson.name, ep.entrypointName))
  }

  /** A document with its module info, after `publicUrl` has been assigned. */
  datatype Placed = Placed(doc: Doc, info: ModuleInfo)

  /** The document as the grouper files it: with the public URL assigned. */
  function WithPublicUrl(doc: Doc, info: ModuleInfo, computeApiDocumentUrl: ComputeApiDocumentUrl): Doc
  {
    doc.(publicUrl := Some(computeApiDocumentUrl(doc, info)))
  }

  /** The placed documents, or the error for the first document without an entry point. */
  function Placements(entryPoints: seq<NgEntrypoint>, docs: seq<Doc>, computeApiDocumentUrl: ComputeApiDocumentUrl)
    : (r: Result<seq<Placed>, GroupingError>)
    ensures r.Success? ==> |r.value| == |docs|
    decreases |docs|
  {
    if docs == [] then Success([])
    else
      match Placements(entryPoints, docs[..|docs| - 1], computeApiDocumentUrl)
      case Failure(e) => Failure(e)
      case Success(ps) =>
        var doc := docs[|docs| - 1];
        match ModulePackageInfo(entryPoints, doc)
        case Failure(e) => Failure(e)
        case Success(info) => Success(ps + [Placed(WithPublicUrl(doc, info, computeApiDocumentUrl), info)])
  }

  // ---- grouping ----

  /** The key of a document's group: package name and entry-point name joined by '-'. */
  function GroupKey(info: ModuleInfo): string
  {
    info.packageName + "-" + info.name
  }

  /** The role list a document goes into, in the precedence the processor tests them. */
  datatype Role = DirectiveRole | ServiceRole | NgModuleRole | ClassRole | InterfaceRole
                | TypeAliasRole | FunctionRole | ConstRole | NoRole

  function RoleOf(doc: Doc): (r: Role)
    ensures r == DirectiveRole <==> doc.isDirective
    ensures r == ServiceRole <==> !doc.isDirective && doc.isService
    ensures r == NgModuleRole <==> !doc.isDirective && !doc.isService && doc.isNgModule
    ensures !doc.isDirective && !doc.isService && !doc.isNgModule ==>
              (r == ClassRole <==> doc.docType == "class") &&
              (r == InterfaceRole <==> doc.docType == "interface") &&
              (r == TypeAliasRole <==> doc.docType == "type-alias") &&
              (r == FunctionRole <==> doc.docType == "function") &&
              (r == ConstRole <==> doc.docType == "const")
  {
    if doc.isDirective then DirectiveRole
    else if doc.isService then ServiceRole
    else if doc.isNgModule then NgModuleRole
    else if doc.docType == "class" then ClassRole
    else if doc.docType == "interface" then InterfaceRole
    else if doc.docType == "type-alias" then TypeAliasRole
    else if doc.docType == "function" then FunctionRole
    else if doc.docType == "const" then ConstRole
    else NoRole
  }

  /** The value of an entry-point document. */
  datatype EntryPoint = EntryPoint(
    name: string,
    id: string,
    displayName: string,
    moduleImportPath: string,
    packageName: string,
    aliases: seq<string>,
    directives: seq<Doc>,
    services: seq<Doc>,
    classes: seq<Doc>,
    interfaces: seq<Doc>,
    typeAliases: seq<Doc>,
    functions: seq<Doc>,
    constants: seq<Doc>,
    exportedNgModules: seq<Doc>,
    testHarnesses: seq<Doc>,
    primaryExportName: Option<string>)

  /** A freshly constructed entry-point document (fields the source leaves undefined are ""). */
  function NewEntryPoint(name: string): EntryPoint
  {
    EntryPoint(name, "entry-point-" + name, "", "", "", [], [], [], [], [], [], [], [], [], [], None)
  }

  function Push(docs: seq<Doc>, doc: Doc, cond: bool): seq<Doc>
  {
    if cond then docs + [doc] else docs
  }

  /** An entry point after one more document of its group has been filed. */
  function AddDoc(g: EntryPoint, p: Placed, hasJsDocTag: HasJsDocTag): (r: EntryPoint)
    ensures r.name == g.name && r.id == g.id && r.aliases == g.aliases
    ensures r.displayName == p.info.name && r.packageName == p.info.packageName &&
            r.moduleImportPath == p.info.packageName + "/" + p.info.entryPointName
    ensures IsPrimaryExportDoc(p.doc, hasJsDocTag) ==> r.primaryExportName == Some(p.doc.name)
    ensures !IsPrimaryExportDoc(p.doc, hasJsDocTag) ==> r.primaryExportName == g.primaryExportName
  {
    var doc, role := p.doc, RoleOf(p.doc);
    EntryPoint(
      g.name, g.id, p.info.name, p.info.packageName + "/" + p.info.entryPointName, p.info.packageName, g.aliases,
      Push(g.directives, doc, role == DirectiveRole),
      Push(g.services, doc, role == ServiceRole),
      Push(g.classes, doc, role == ClassRole),
      Push(g.interfaces, doc, role == InterfaceRole),
      Push(g.typeAliases, doc, role == TypeAliasRole),
      Push(g.functions, doc, role == FunctionRole),
      Push(g.constants, doc, role == ConstRole),
      Push(g.exportedNgModules, doc, role == NgModuleRole),
      Push(g.testHarnesses, doc, role == ClassRole && doc.isTestHarness),
      if IsPrimaryExportDoc(doc, hasJsDocTag) then Some(doc.name) else g.primaryExportName)
  }

  ghost predicate NoDuplicates(s: seq<string>)
  {
    forall i, j :: 0 <= i < j < |s| ==> s[i] != s[j]
  }

  /** The insertion-ordered map of entry points: its values and its key order. */
  datatype Table = Table(groups: map<string, EntryPoint>, order: seq<string>)

  /** A way of filing one placed document into an entry point. */
  type Filer = (EntryPoint, Placed) -> EntryPoint

  /** The first pass as a fold: a group is created under a new key, then the document is filed into it. */
  function GroupedBy(ps: seq<Placed>, file: Filer): Table
    decreases |ps|
  {
    if ps == [] then Table(map[], [])
    else
      var t := GroupedBy(ps[..|ps| - 1], file);
      var p := ps[|ps| - 1];
      var key := GroupKey(p.info);
      if key in t.groups then
        Table(t.groups[key := file(t.groups[key], p)], t.order)
      else
        Table(t.groups[key := file(NewEntryPoint(key), p)], t.order + [key])
  }

  function Filing(hasJsDocTag: HasJsDocTag): Filer
  {
    (g, p) => AddDoc(g, p, hasJsDocTag)
  }

  /** The table the processor's first pass builds. */
  function Grouped(ps: seq<Placed>, hasJsDocTag: HasJsDocTag): Table
  {
    GroupedBy(ps, Filing(hasJsDocTag))
  }

  /** How one more placed document changes the table. */
  lemma {:induction false} GroupedStep(ps: seq<Placed>, p: Placed, hasJsDocTag: HasJsDocTag)
    ensures var t, key := Grouped(ps, hasJsDocTag), GroupKey(p.info);
            Grouped(ps + [p], hasJsDocTag) ==
              if key in t.groups then Table(t.groups[key := AddDoc(t.groups[key], p, hasJsDocTag)], t.order)
              else Table(t.groups[key := AddDoc(NewEntryPoint(key), p, hasJsDocTag)], t.order + [key])
  {
    assert (ps + [p])[..|ps|] == ps;
  }

  lemma {:induction false} GroupedByWellFormed(ps: seq<Placed>, file: Filer)
    ensures var t := GroupedBy(ps, file);
            (forall k :: k in t.groups <==> k in t.order) && NoDuplicates(t.order)
    decreases |ps|
  {
    if ps != [] {
      GroupedByWellFormed(ps[..|ps| - 1], file);
    }
  }

  /** There is exactly one group per key listed in the order, and no key is listed twice. */
  lemma {:induction false} GroupedWellFormed(ps: seq<Placed>, hasJsDocTag: HasJsDocTag)
    ensures var t := Grouped(ps, hasJsDocTag);
            (forall k :: k in t.groups <==> k in t.order) && NoDuplicates(t.order)
  {
    GroupedByWellFormed(ps, Filing(hasJsDocTag));
  }

  // ---- primary export ----

  /** The first document that is not deprecated. */
  function FirstNonDeprecated(docs: seq<Doc>, hasJsDocTag: HasJsDocTag): (r: Option<Doc>)
    ensures r.None? <==> forall i :: 0 <= i < |docs| ==> IsDeprecatedDoc(docs[i], hasJsDocTag)
    ensures r.Some? ==> exists i :: 0 <= i < |docs| && docs[i] == r.value && !IsDeprecatedDoc(docs[i], hasJsDocTag) &&
                          forall j :: 0 <= j < i ==> IsDeprecatedDoc(docs[j], hasJsDocTag)
  {
    if docs == [] then None
    else if !IsDeprecatedDoc(docs[0], hasJsDocTag) then Some(docs[0])
    else
      var r := FirstNonDeprecated(docs[1..], hasJsDocTag);
      assert r.Some? ==> exists i :: 0 <= i < |docs[1..]| && docs[1..][i] == r.value && !IsDeprecatedDoc(docs[1..][i], hasJsDocTag) &&
                          forall j :: 0 <= j < i ==> IsDeprecatedDoc(docs[1..][j], hasJsDocTag);
      assert forall i :: 0 <= i < |docs[1..]| ==> docs[1..][i] == docs[i + 1];
      r
  }

  /** The second pass over an entry point: keep an explicit primary export, else pick a module, else a harness. */
  function WithPrimaryExport(g: EntryPoint, hasJsDocTag: HasJsDocTag): (r: EntryPoint)
    ensures r == g.(primaryExportName := r.primaryExportName)
    ensures g.primaryExportName.Some? ==> r == g
  {
    if g.primaryExportName.Some? then g
    else
      match FirstNonDeprecated(g.exportedNgModules, hasJsDocTag)
      case Some(m) => g.(primaryExportName := Some(m.name))
      case None =>
        match FirstNonDeprecated(g.testHarnesses, hasJsDocTag)
        case Some(h) => g.(primaryExportName := Some(h.name))
        case None => g
  }

  /** What the processor returns: the entry points in first-seen order, or the first error. */
  function GroupEntryPoints(entryPoints: seq<NgEntrypoint>, docs: seq<Doc>, hasJsDocTag: HasJsDocTag,
                            computeApiDocumentUrl: ComputeApiDocumentUrl): (r: Result<seq<EntryPoint>, GroupingError>)
    ensures r.Success? <==> forall i :: 0 <= i < |docs| ==> MatchingEntryPoint(entryPoints, docs[i].basePath).Some?
    ensures r.Failure? ==> exists i :: (0 <= i < |docs| && MatchingEntryPoint(entryPoints, docs[i].basePath).None? &&
              r.error == UnresolvedEntryPoint(docs[i].name, docs[i].basePath) &&
              forall j :: 0 <= j < i ==> MatchingEntryPoint(entryPoints, docs[j].basePath).Some?)
  {
    PlacementsSuccess(entryPoints, docs, computeApiDocumentUrl);
    PlacementsFailure(entryPoints, docs, computeApiDocumentUrl);
    match Placements(entryPoints, docs, computeApiDocumentUrl)
    case Failure(e) => Failure(e)
    case Success(ps) =>
      var t := Grouped(ps, hasJsDocTag);
      GroupedWellFormed(ps, hasJsDocTag);
      Success(seq(|t.order|, i requires 0 <= i < |t.order| => WithPrimaryExport(t.groups[t.order[i]], hasJsDocTag)))
  }

  /** A successful result lists, in key order, each group of the first pass after the second pass. */
  lemma {:induction false} GroupEntryPointsValue(entryPoints: seq<NgEntrypoint>, docs: seq<Doc>, hasJsDocTag: HasJsDocTag,
                              computeApiDocumentUrl: ComputeApiDocumentUrl)
    requires GroupEntryPoints(entryPoints, docs, hasJsDocTag, computeApiDocumentUrl).Success?
    ensures Placements(entryPoints, docs, computeApiDocumentUrl).Success?
    ensures var t := Grouped(Placements(entryPoints, docs, computeApiDocumentUrl).value, hasJsDocTag);
            var r := GroupEntryPoints(entryPoints, docs, hasJsDocTag, computeApiDocumentUrl).value;
            |r| == |t.order| &&
            forall i :: 0 <= i < |r| ==> t.order[i] in t.groups && r[i] == WithPrimaryExport(t.groups[t.order[i]], hasJsDocTag)
  {
    GroupedWellFormed(Placements(entryPoints, docs, computeApiDocumentUrl).value, hasJsDocTag);
  }

  /** Once a prefix of the documents fails to place, every longer prefix fails with the same error. */
  lemma {:induction false} PlacementsFailureStays(entryPoints: seq<NgEntrypoint>, docs: seq<Doc>, n: nat,
                                                  computeApiDocumentUrl: ComputeApiDocumentUrl)
    requires n <= |docs|
    requires Placements(entryPoints, docs[..n], computeApiDocumentUrl).Failure?
    ensures Placements(entryPoints, docs, computeApiDocumentUrl) == Placements(entryPoints, docs[..n], computeApiDocumentUrl)
    decreases |docs| - n
  {
    if n == |docs| {
      assert docs[..n] == docs;
    } else {
      assert docs[..|docs| - 1][..n] == docs[..n];
      PlacementsFailureStays(entryPoints, docs[..|docs| - 1], n, computeApiDocumentUrl);
    }
  }

  // ---- what the grouping means, stated independently of the fold ----

  /** Placing succeeds exactly when every document has an entry point. */
  lemma {:induction false} PlacementsSuccess(entryPoints: seq<NgEntrypoint>, docs: seq<Doc>, computeApiDocumentUrl: ComputeApiDocumentUrl)
    ensures Placements(entryPoints, docs, computeApiDocumentUrl).Success? <==>
            forall i :: 0 <= i < |docs| ==> MatchingEntryPoint(entryPoints, docs[i].basePath).Some?
    decreases |docs|
  {
    if docs != [] {
      var init := docs[..|docs| - 1];
      PlacementsSuccess(entryPoints, init, computeApiDocumentUrl);
      assert forall i :: 0 <= i < |init| ==> init[i] == docs[i];
    }
  }

  /** On success every document is placed at its own position, with its module info and public URL. */
  lemma {:induction false} PlacementsValues(entryPoints: seq<NgEntrypoint>, docs: seq<Doc>, computeApiDocumentUrl: ComputeApiDocumentUrl)
    requires Placements(entryPoints, docs, computeApiDocumentUrl).Success?
    ensures var ps := Placements(entryPoints, docs, computeApiDocumentUrl).value;
            |ps| == |docs| &&
            forall i :: 0 <= i < |docs| ==>
              ModulePackageInfo(entryPoints, docs[i]).Success? &&
              var info := ModulePackageInfo(entryPoints, docs[i]).value;
              ps[i] == Placed(WithPublicUrl(docs[i], info, computeApiDocumentUrl), info)
    decreases |docs|
  {
    if docs != [] {
      var init := docs[..|docs| - 1];
      PlacementsValues(entryPoints, init, computeApiDocumentUrl);
      assert forall i :: 0 <= i < |init| ==> init[i] == docs[i];
    }
  }

  /** A failed placement reports the first document that has no entry point. */
  lemma {:induction false} PlacementsFailure(entryPoints: seq<NgEntrypoint>, docs: seq<Doc>, computeApiDocumentUrl: ComputeApiDocumentUrl)
    ensures var r := Placements(entryPoints, docs, computeApiDocumentUrl);
            r.Failure? ==> exists i :: (0 <= i < |docs| && MatchingEntryPoint(entryPoints, docs[i].basePath).None? &&
              r.error == UnresolvedEntryPoint(docs[i].name, docs[i].basePath) &&
              forall j :: 0 <= j < i ==> MatchingEntryPoint(entryPoints, docs[j].basePath).Some?)
    decreases |docs|
  {
    if docs != [] {
      var init := docs[..|docs| - 1];
      PlacementsFailure(entryPoints, init, computeApiDocumentUrl);
      if Placements(entryPoints, init, computeApiDocumentUrl).Success? {
        PlacementsSuccess(entryPoints, init, computeApiDocumentUrl);
      }
      assert forall i :: 0 <= i < |init| ==> init[i] == docs[i];
    }
  }

  lemma {:induction false} GroupedByKeys(ps: seq<Placed>, file: Filer, key: string)
    ensures key in GroupedBy(ps, file).groups <==> exists i :: 0 <= i < |ps| && GroupKey(ps[i].info) == key
    decreases |ps|
  {
    if ps != [] {
      var init := ps[..|ps| - 1];
      GroupedByKeys(init, file, key);
      assert forall i :: 0 <= i < |init| ==> init[i] == ps[i];
    }
  }

  /** A key has a group exactly when some placed document carries it. */
  lemma {:induction false} GroupedKeys(ps: seq<Placed>, hasJsDocTag: HasJsDocTag, key: string)
    ensures key in Grouped(ps, hasJsDocTag).groups <==> exists i :: 0 <= i < |ps| && GroupKey(ps[i].info) == key
  {
    GroupedByKeys(ps, Filing(hasJsDocTag), key);
  }

  predicate IsPrefix(a: seq<string>, b: seq<string>)
  {
    |a| <= |b| && b[..|a|] == a
  }

  lemma {:induction false} GroupedByOrderGrows(ps: seq<Placed>, file: Filer, n: nat)
    requires n <= |ps|
    ensures IsPrefix(GroupedBy(ps[..n], file).order, GroupedBy(ps, file).order)
    decreases |ps| - n
  {
    if n == |ps| {
      assert ps[..n] == ps;
    } else {
      var init := ps[..|ps| - 1];
      assert init[..n] == ps[..n];
      GroupedByOrderGrows(init, file, n);
    }
  }

  /**
   * Keys are listed in first-seen order: the keys of any prefix of the documents are a prefix
   * of the final key order, so a key never moves once seen and new keys go at the end.
   */
  lemma {:induction false} GroupedOrderGrows(ps: seq<Placed>, hasJsDocTag: HasJsDocTag, n: nat)
    requires n <= |ps|
    ensures IsPrefix(Grouped(ps[..n], hasJsDocTag).order, Grouped(ps, hasJsDocTag).order)
  {
    GroupedByOrderGrows(ps, Filing(hasJsDocTag), n);
  }

  /** The role list of an entry point that `role` selects. */
  function ListOf(g: EntryPoint, role: Role): seq<Doc>
  {
    match role
    case DirectiveRole => g.directives
    case ServiceRole => g.services
    case NgModuleRole => g.exportedNgModules
    case ClassRole => g.classes
    case InterfaceRole => g.interfaces
    case TypeAliasRole => g.typeAliases
    case FunctionRole => g.functions
    case ConstRole => g.constants
    case NoRole => []
  }

  /** The documents of group `key` whose role is `role` (test harnesses only, if `harnessOnly`), in input order. */
  function DocsOfRole(ps: seq<Placed>, key: string, role: Role, harnessOnly: bool): seq<Doc>
    decreases |ps|
  {
    if ps == [] then []
    else
      var p := ps[|ps| - 1];
      var rest := DocsOfRole(ps[..|ps| - 1], key, role, harnessOnly);
      if GroupKey(p.info) == key && RoleOf(p.doc) == role && (!harnessOnly || p.doc.isTestHarness) then rest + [p.doc]
      else rest
  }

  /** The last placed document of group `key`. */
  function LastOfGroup(ps: seq<Placed>, key: string): (r: Option<Placed>)
    ensures r.None? <==> forall i :: 0 <= i < |ps| ==> GroupKey(ps[i].info) != key
    ensures r.Some? ==> exists i :: 0 <= i < |ps| && ps[i] == r.value && GroupKey(ps[i].info) == key &&
                          forall j :: i < j < |ps| ==> GroupKey(ps[j].info) != key
    decreases |ps|
  {
    if ps == [] then None
    else if GroupKey(ps[|ps| - 1].info) == key then Some(ps[|ps| - 1])
    else LastOfGroup(ps[..|ps| - 1], key)
  }

  lemma {:induction false} DocsOfRoleOutside(ps: seq<Placed>, key: string, role: Role, harnessOnly: bool)
    requires forall i :: 0 <= i < |ps| ==> GroupKey(ps[i].info) != key
    ensures DocsOfRole(ps, key, role, harnessOnly) == []
    decreases |ps|
  {
    if ps != [] {
      DocsOfRoleOutside(ps[..|ps| - 1], key, role, harnessOnly);
    }
  }

  /** Filing a document grows the list its role selects, and no other. */
  lemma {:induction false} ListOfAddDoc(g: EntryPoint, p: Placed, hasJsDocTag: HasJsDocTag, role: Role)
    requires role != NoRole
    ensures ListOf(AddDoc(g, p, hasJsDocTag), role) == Push(ListOf(g, role), p.doc, RoleOf(p.doc) == role)
  {
    match role
    case DirectiveRole =>
    case ServiceRole =>
    case NgModuleRole =>
    case ClassRole =>
    case InterfaceRole =>
    case TypeAliasRole =>
    case FunctionRole =>
    case ConstRole =>
  }

  lemma {:induction false} GroupedByList(ps: seq<Placed>, file: Filer, key: string, role: Role, harnessOnly: bool,
                                         select: EntryPoint -> seq<Doc>)
    requires key in GroupedBy(ps, file).groups && select(NewEntryPoint(key)) == []
    requires forall g, p :: select(file(g, p)) ==
               Push(select(g), p.doc, RoleOf(p.doc) == role && (!harnessOnly || p.doc.isTestHarness))
    ensures select(GroupedBy(ps, file).groups[key]) == DocsOfRole(ps, key, role, harnessOnly)
    decreases |ps|
  {
    var init, p := ps[..|ps| - 1], ps[|ps| - 1];
    var t := GroupedBy(init, file);
    if GroupKey(p.info) == key {
      if key in t.groups {
        GroupedByList(init, file, key, role, harnessOnly, select);
      } else {
        GroupedByKeys(init, file, key);
        DocsOfRoleOutside(init, key, role, harnessOnly);
      }
    } else {
      assert key in t.groups;
      GroupedByList(init, file, key, role, harnessOnly, select);
    }
  }

  function RoleList(role: Role): EntryPoint -> seq<Doc>
  {
    (g: EntryPoint) => ListOf(g, role)
  }

  function Harnesses(): EntryPoint -> seq<Doc>
  {
    (g: EntryPoint) => g.testHarnesses
  }

  /** One role list of a group holds exactly the group's documents of that role, in input order. */
  lemma {:induction false} GroupList(ps: seq<Placed>, hasJsDocTag: HasJsDocTag, key: string, role: Role)
    requires key in Grouped(ps, hasJsDocTag).groups && role != NoRole
    ensures ListOf(Grouped(ps, hasJsDocTag).groups[key], role) == DocsOfRole(ps, key, role, false)
  {
    forall g, p
      ensures RoleList(role)(Filing(hasJsDocTag)(g, p)) == Push(RoleList(role)(g), p.doc, RoleOf(p.doc) == role && (!false || p.doc.isTestHarness))
    {
      ListOfAddDoc(g, p, hasJsDocTag, role);
    }
    GroupedByList(ps, Filing(hasJsDocTag), key, role, false, RoleList(role));
  }

  /** The test harnesses of a group are its harness classes, in input order. */
  lemma {:induction false} GroupHarnesses(ps: seq<Placed>, hasJsDocTag: HasJsDocTag, key: string)
    requires key in Grouped(ps, hasJsDocTag).groups
    ensures Grouped(ps, hasJsDocTag).groups[key].testHarnesses == DocsOfRole(ps, key, ClassRole, true)
  {
    GroupedByList(ps, Filing(hasJsDocTag), key, ClassRole, true, Harnesses());
  }

  lemma {:induction false} GroupedByHeader(ps: seq<Placed>, file: Filer, key: string)
    requires key in GroupedBy(ps, file).groups
    requires forall g, p :: file(g, p).name == g.name && file(g, p).id == g.id && file(g, p).aliases == g.aliases
    requires forall g, p :: file(g, p).displayName == p.info.name && file(g, p).packageName == p.info.packageName &&
               file(g, p).moduleImportPath == p.info.packageName + "/" + p.info.entryPointName
    ensures var g, last := GroupedBy(ps, file).groups[key], LastOfGroup(ps, key);
            g.name == key && g.id == "entry-point-" + key && g.aliases == [] && last.Some? &&
            g.displayName == last.value.info.name && g.packageName == last.value.info.packageName &&
            g.moduleImportPath == last.value.info.packageName + "/" + last.value.info.entryPointName
    decreases |ps|
  {
    var init, p := ps[..|ps| - 1], ps[|ps| - 1];
    var t := GroupedBy(init, file);
    if GroupKey(p.info) != key || key in t.groups {
      assert key in t.groups;
      GroupedByHeader(init, file, key);
    }
  }

  /** A group's name and id come from its key, it has no aliases, and its display fields come from its last document. */
  lemma {:induction false} GroupHeader(ps: seq<Placed>, hasJsDocTag: HasJsDocTag, key: string)
    requires key in Grouped(ps, hasJsDocTag).groups
    ensures var g, last := Grouped(ps, hasJsDocTag).groups[key], LastOfGroup(ps, key);
            g.name == key && g.id == "entry-point-" + key && g.aliases == [] && last.Some? &&
            g.displayName == last.value.info.name && g.packageName == last.value.info.packageName &&
            g.moduleImportPath == last.value.info.packageName + "/" + last.value.info.entryPointName
  {
    GroupedByHeader(ps, Filing(hasJsDocTag), key);
  }

  /**
   * The contents of one group: every role list holds exactly the group's documents of that role
   * in input order, and the test harnesses are the group's harness classes.
   */
  lemma {:induction false} GroupContents(ps: seq<Placed>, hasJsDocTag: HasJsDocTag, key: string)
    requires key in Grouped(ps, hasJsDocTag).groups
    ensures var g := Grouped(ps, hasJsDocTag).groups[key];
            (forall role :: role != NoRole ==> ListOf(g, role) == DocsOfRole(ps, key, role, false)) &&
            g.testHarnesses == DocsOfRole(ps, key, ClassRole, true)
  {
    forall role | role != NoRole
      ensures ListOf(Grouped(ps, hasJsDocTag).groups[key], role) == DocsOfRole(ps, key, role, false)
    {
      GroupList(ps, hasJsDocTag, key, role);
    }
    GroupHarnesses(ps, hasJsDocTag, key);
  }

  /** The `i`-th placed document belongs to the group and carries the primary-export tag. */
  ghost predicate TaggedAt(ps: seq<Placed>, key: string, i: int, hasJsDocTag: HasJsDocTag)
  {
    0 <= i < |ps| && GroupKey(ps[i].info) == key && IsPrimaryExportDoc(ps[i].doc, hasJsDocTag)
  }

  /** ... and no later document of the group carries it. */
  ghost predicate LastTaggedAt(ps: seq<Placed>, key: string, i: int, hasJsDocTag: HasJsDocTag)
  {
    TaggedAt(ps, key, i, hasJsDocTag) && forall j :: i < j < |ps| ==> !TaggedAt(ps, key, j, hasJsDocTag)
  }

  /** How the last placed document changes its group's explicit primary export. */
  lemma {:induction false} GroupedByTagStep(ps: seq<Placed>, file: Filer, hasJsDocTag: HasJsDocTag, key: string)
    requires ps != [] && key in GroupedBy(ps, file).groups
    requires forall g, p :: file(g, p).primaryExportName ==
               if IsPrimaryExportDoc(p.doc, hasJsDocTag) then Some(p.doc.name) else g.primaryExportName
    ensures var t, p := GroupedBy(ps[..|ps| - 1], file), ps[|ps| - 1];
            GroupedBy(ps, file).groups[key].primaryExportName ==
              if GroupKey(p.info) == key && IsPrimaryExportDoc(p.doc, hasJsDocTag) then Some(p.doc.name)
              else if key in t.groups then t.groups[key].primaryExportName
              else None
  {
  }

  lemma {:induction false} GroupedByTagged(ps: seq<Placed>, file: Filer, hasJsDocTag: HasJsDocTag, key: string)
    requires key in GroupedBy(ps, file).groups
    requires forall g, p :: file(g, p).primaryExportName ==
               if IsPrimaryExportDoc(p.doc, hasJsDocTag) then Some(p.doc.name) else g.primaryExportName
    ensures var pe := GroupedBy(ps, file).groups[key].primaryExportName;
            (pe.Some? <==> exists i :: TaggedAt(ps, key, i, hasJsDocTag)) &&
            (pe.Some? ==> exists i :: LastTaggedAt(ps, key, i, hasJsDocTag) && pe.value == ps[i].doc.name)
    decreases |ps|
  {
    var init, p := ps[..|ps| - 1], ps[|ps| - 1];
    var n := |ps| - 1;
    var t := GroupedBy(init, file);
    var pe := GroupedBy(ps, file).groups[key].primaryExportName;
    GroupedByTagStep(ps, file, hasJsDocTag, key);
    if GroupKey(p.info) == key && IsPrimaryExportDoc(p.doc, hasJsDocTag) {
      assert LastTaggedAt(ps, key, n, hasJsDocTag);
    } else if key in t.groups {
      GroupedByTagged(init, file, hasJsDocTag, key);
      forall j | TaggedAt(ps, key, j, hasJsDocTag)
        ensures TaggedAt(init, key, j, hasJsDocTag)
      {
        assert j != n && ps[j] == init[j];
      }
      if pe.Some? {
        var i :| LastTaggedAt(init, key, i, hasJsDocTag) && pe.value == init[i].doc.name;
        assert ps[i] == init[i];
        assert LastTaggedAt(ps, key, i, hasJsDocTag);
      }
    } else {
      GroupedByKeys(init, file, key);
      forall j | 0 <= j < n
        ensures !TaggedAt(ps, key, j, hasJsDocTag)
      {
        assert ps[j] == init[j];
      }
    }
  }

  /** The explicit primary export: present exactly when a document of the group is tagged, and then the last tagged one. */
  lemma {:induction false} TaggedPrimaryExport(ps: seq<Placed>, hasJsDocTag: HasJsDocTag, key: string)
    requires key in Grouped(ps, hasJsDocTag).groups
    ensures var pe := Grouped(ps, hasJsDocTag).groups[key].primaryExportName;
            (pe.Some? <==> exists i :: TaggedAt(ps, key, i, hasJsDocTag)) &&
            (pe.Some? ==> exists i :: LastTaggedAt(ps, key, i, hasJsDocTag) && pe.value == ps[i].doc.name)
  {
    GroupedByTagged(ps, Filing(hasJsDocTag), hasJsDocTag, key);
  }

  /**
   * The primary export stays null exactly when no document of the group is tagged and every
   * NgModule and every test harness of the group is deprecated (including when there are none).
   */
  lemma {:induction false} PrimaryExportNull(ps: seq<Placed>, hasJsDocTag: HasJsDocTag, key: string)
    requires key in Grouped(ps, hasJsDocTag).groups
    ensures var g := WithPrimaryExport(Grouped(ps, hasJsDocTag).groups[key], hasJsDocTag);
            var modules, harnesses := DocsOfRole(ps, key, NgModuleRole, false), DocsOfRole(ps, key, ClassRole, true);
            g.primaryExportName.None? <==>
              (forall i :: !TaggedAt(ps, key, i, hasJsDocTag)) &&
              (forall i :: 0 <= i < |modules| ==> IsDeprecatedDoc(modules[i], hasJsDocTag)) &&
              (forall i :: 0 <= i < |harnesses| ==> IsDeprecatedDoc(harnesses[i], hasJsDocTag))
  {
    var g := Grouped(ps, hasJsDocTag).groups[key];
    GroupList(ps, hasJsDocTag, key, NgModuleRole);
    GroupHarnesses(ps, hasJsDocTag, key);
    TaggedPrimaryExport(ps, hasJsDocTag, key);
    WithPrimaryExportNone(g, hasJsDocTag);
  }

  lemma {:induction false} WithPrimaryExportNone(g: EntryPoint, hasJsDocTag: HasJsDocTag)
    ensures WithPrimaryExport(g, hasJsDocTag).primaryExportName.None? <==>
              g.primaryExportName.None? &&
              (forall i :: 0 <= i < |g.exportedNgModules| ==> IsDeprecatedDoc(g.exportedNgModules[i], hasJsDocTag)) &&
              (forall i :: 0 <= i < |g.testHarnesses| ==> IsDeprecatedDoc(g.testHarnesses[i], hasJsDocTag))
  {
  }

  /** Without a tag, the first non-deprecated NgModule of the group, in input order, is the primary export. */
  lemma {:induction false} ModulePrimaryExport(ps: seq<Placed>, hasJsDocTag: HasJsDocTag, key: string, i: nat)
    requires key in Grouped(ps, hasJsDocTag).groups
    requires Grouped(ps, hasJsDocTag).groups[key].primaryExportName.None?
    requires var modules := DocsOfRole(ps, key, NgModuleRole, false);
             i < |modules| && !IsDeprecatedDoc(modules[i], hasJsDocTag) &&
             forall j :: 0 <= j < i ==> IsDeprecatedDoc(modules[j], hasJsDocTag)
    ensures WithPrimaryExport(Grouped(ps, hasJsDocTag).groups[key], hasJsDocTag).primaryExportName ==
            Some(DocsOfRole(ps, key, NgModuleRole, false)[i].name)
  {
    var g := Grouped(ps, hasJsDocTag).groups[key];
    var modules := DocsOfRole(ps, key, NgModuleRole, false);
    GroupList(ps, hasJsDocTag, key, NgModuleRole);
    assert g.exportedNgModules == modules;
    var first := FirstNonDeprecated(modules, hasJsDocTag);
    assert first.Some?;
    var i' :| 0 <= i' < |modules| && modules[i'] == first.value && !IsDeprecatedDoc(modules[i'], hasJsDocTag) &&
              forall j :: 0 <= j < i' ==> IsDeprecatedDoc(modules[j], hasJsDocTag);
    assert i' == i;
  }

  /**
   * Without a tag and without a non-deprecated NgModule, the first non-deprecated test harness of
   * the group, in input order, is the primary export.
   */
  lemma {:induction false} HarnessPrimaryExport(ps: seq<Placed>, hasJsDocTag: HasJsDocTag, key: string, i: nat)
    requires key in Grouped(ps, hasJsDocTag).groups
    requires Grouped(ps, hasJsDocTag).groups[key].primaryExportName.None?
    requires var modules := DocsOfRole(ps, key, NgModuleRole, false);
             forall j :: 0 <= j < |modules| ==> IsDeprecatedDoc(modules[j], hasJsDocTag)
    requires var harnesses := DocsOfRole(ps, key, ClassRole, true);
             i < |harnesses| && !IsDeprecatedDoc(harnesses[i], hasJsDocTag) &&
             forall j :: 0 <= j < i ==> IsDeprecatedDoc(harnesses[j], hasJsDocTag)
    ensures WithPrimaryExport(Grouped(ps, hasJsDocTag).groups[key], hasJsDocTag).primaryExportName ==
            Some(DocsOfRole(ps, key, ClassRole, true)[i].name)
  {
    var g := Grouped(ps, hasJsDocTag).groups[key];
    var harnesses := DocsOfRole(ps, key, ClassRole, true);
    GroupList(ps, hasJsDocTag, key, NgModuleRole);
    GroupHarnesses(ps, hasJsDocTag, key);
    assert FirstNonDeprecated(g.exportedNgModules, hasJsDocTag).None?;
    assert g.testHarnesses == harnesses;
    var first := FirstNonDeprecated(harnesses, hasJsDocTag);
    assert first.Some?;
    var i' :| 0 <= i' < |harnesses| && harnesses[i'] == first.value && !IsDeprecatedDoc(harnesses[i'], hasJsDocTag) &&
              forall j :: 0 <= j < i' ==> IsDeprecatedDoc(harnesses[j], hasJsDocTag);
    assert i' == i;
  }

  /** Some placed document carries the key. */
  ghost predicate HasKey(ps: seq<Placed>, key: string)
  {
    exists i :: 0 <= i < |ps| && GroupKey(ps[i].info) == key
  }

  /** The names of a list of entry points, in order. */
  function Names(r: seq<EntryPoint>): (names: seq<string>)
    ensures |names| == |r| && forall i :: 0 <= i < |r| ==> names[i] == r[i].name
  {
    seq(|r|, i requires 0 <= i < |r| => r[i].name)
  }

  lemma {:induction false} ResultPerKey(t: Table, ps: seq<Placed>, r: seq<EntryPoint>, hasJsDocTag: HasJsDocTag)
    requires (forall k :: k in t.groups <==> k in t.order) && NoDuplicates(t.order)
    requires forall k :: k in t.groups ==> t.groups[k].name == k && t.groups[k].id == "entry-point-" + k
    requires forall k :: k in t.groups <==> HasKey(ps, k)
    requires |r| == |t.order| && forall i :: 0 <= i < |r| ==> r[i] == WithPrimaryExport(t.groups[t.order[i]], hasJsDocTag)
    ensures NoDuplicates(Names(r))
    ensures forall i :: 0 <= i < |r| ==> r[i].id == "entry-point-" + r[i].name
    ensures forall name :: name in Names(r) <==> HasKey(ps, name)
  {
    forall i | 0 <= i < |r|
      ensures r[i].name == t.order[i]
    {
      assert t.order[i] in t.groups;
    }
    assert Names(r) == t.order;
  }

  /**
   * The processor's result has one entry point per distinct key: names are pairwise different,
   * the names are exactly the keys of the documents, and ids are derived from names.
   */
  lemma {:induction false} OneEntryPointPerKey(entryPoints: seq<NgEntrypoint>, docs: seq<Doc>, hasJsDocTag: HasJsDocTag,
                            computeApiDocumentUrl: ComputeApiDocumentUrl)
    requires GroupEntryPoints(entryPoints, docs, hasJsDocTag, computeApiDocumentUrl).Success?
    ensures var r := GroupEntryPoints(entryPoints, docs, hasJsDocTag, computeApiDocumentUrl).value;
            var ps := Placements(entryPoints, docs, computeApiDocumentUrl).value;
            NoDuplicates(Names(r)) &&
            (forall i :: 0 <= i < |r| ==> r[i].id == "entry-point-" + r[i].name) &&
            (forall name :: name in Names(r) <==> HasKey(ps, name))
  {
    var r := GroupEntryPoints(entryPoints, docs, hasJsDocTag, computeApiDocumentUrl).value;
    GroupEntryPointsValue(entryPoints, docs, hasJsDocTag, computeApiDocumentUrl);
    var ps := Placements(entryPoints, docs, computeApiDocumentUrl).value;
    var t := Grouped(ps, hasJsDocTag);
    GroupedWellFormed(ps, hasJsDocTag);
    forall k | k in t.groups
      ensures t.groups[k].name == k && t.groups[k].id == "entry-point-" + k
    {
      GroupHeader(ps, hasJsDocTag, k);
    }
    forall k
      ensures k in t.groups <==> HasKey(ps, k)
    {
      GroupedKeys(ps, hasJsDocTag, k);
    }
    ResultPerKey(t, ps, r, hasJsDocTag);
  }

  /** The match is the entry point at the last index whose base path is `basePath`. */
  lemma {:induction false} MatchingIsLast(entryPoints: seq<NgEntrypoint>, basePath: string, i: nat)
    requires i < |entryPoints| && entryPoints[i].basePath == basePath
    requires forall j :: i < j < |entryPoints| ==> entryPoints[j].basePath != basePath
    ensures MatchingEntryPoint(entryPoints, basePath) == Some(entryPoints[i])
    decreases |entryPoints|
  {
    if i < |entryPoints| - 1 {
      var init := entryPoints[..|entryPoints| - 1];
      assert init[i] == entryPoints[i];
      forall j | i < j < |init|
        ensures init[j].basePath != basePath
      {
        assert init[j] == entryPoints[j];
      }
      MatchingIsLast(init, basePath, i);
    }
  }

  /** With several entry points on one base path, a secondary entry point wins over the primary, and a later one over an earlier one. */
  lemma {:induction false} SecondaryOverridesPrimary(ngPackage: NgPackage, basePath: string, k: nat)
    requires k < |ngPackage.secondaries| && ngPackage.secondaries[k].basePath == basePath
    requires forall j :: k < j < |ngPackage.secondaries| ==> ngPackage.secondaries[j].basePath != basePath
    ensures MatchingEntryPoint(CollectEntrypoints(ngPackage), basePath) == Some(ngPackage.secondaries[k])
  {
    var eps := CollectEntrypoints(ngPackage);
    forall j | k + 1 < j < |eps|
      ensures eps[j].basePath != basePath
    {
      assert eps[j] == ngPackage.secondaries[j - 1];
    }
    MatchingIsLast(eps, basePath, k + 1);
  }

  // ---- the stateful processor ----

  /** An entry-point document, created once per group and filled in place. */
  class EntryPointDoc {
    const docType: string := "entry-point"
    var name: string
    var id: string
    var displayName: string
    var moduleImportPath: string
    var packageName: string
    var aliases: seq<string>
    var directives: seq<Doc>
    var services: seq<Doc>
    var classes: seq<Doc>
    var interfaces: seq<Doc>
    var typeAliases: seq<Doc>
    var functions: seq<Doc>
    var constants: seq<Doc>
    var exportedNgModules: seq<Doc>
    var testHarnesses: seq<Doc>
    var primaryExportName: Option<string>

    /** The document's current contents. */
    function Value(): EntryPoint
      reads this
    {
      EntryPoint(name, id, displayName, moduleImportPath, packageName, aliases, directives, services,
                 classes, interfaces, typeAliases, functions, constants, exportedNgModules, testHarnesses,
                 primaryExportName)
    }

    constructor (name: string)
      ensures Value() == NewEntryPoint(name)
      ensures docType == "entry-point"
    {
      this.name := name;
      id := "entry-point-" + name;
      displayName, moduleImportPath, packageName := "", "", "";
      aliases := [];
      directives, services, classes, interfaces := [], [], [], [];
      typeAliases, functions, constants := [], [], [];
      exportedNgModules, testHarnesses := [], [];
      primaryExportName := None;
    }
  }

  class EntryPointGrouper {
    const name: string := "entryPointGrouper"
    const runBefore: seq<string> := ["docs-processed"]
    const runAfter: seq<string> := ["docs-private-filter"]
    var entryPoints: seq<NgEntrypoint>

    constructor ()
      ensures entryPoints == []
    {
      entryPoints := [];
    }

    /** Scans the registered entry points; a later match replaces an earlier one. */
    method FindMatchingEntryPoint(basePath: string) returns (found: Option<NgEntrypoint>)
      ensures found == MatchingEntryPoint(entryPoints, basePath)
    {
      found := None;
      var i := 0;
      while i < |entryPoints|
        invariant 0 <= i <= |entryPoints|
        invariant found == MatchingEntryPoint(entryPoints[..i], basePath)
      {
        var entryPoint := entryPoints[i];
        assert entryPoints[..i + 1][..i] == entryPoints[..i];
        if entryPoint.basePath != basePath {
          i := i + 1;
          continue;
        }
        found := Some(entryPoint);
        i := i + 1;
      }
      assert entryPoints[..i] == entryPoints;
    }

    method GetModulePackageInfo(doc: Doc) returns (r: Result<ModuleInfo, GroupingError>)
      ensures r == ModulePackageInfo(entryPoints, doc)
    {
      var found := FindMatchingEntryPoint(doc.basePath);
      if found.None? {
        return Failure(UnresolvedEntryPoint(doc.name, doc.basePath));
      }
      var ep := found.value;
      return Success(ModuleInfo(ep.entrypointName, ep.packageJson.name, ep.entrypointName));
    }

    /** The first non-deprecated document, or none when every one is deprecated. */
    method FindBestPrimaryExport(docs: seq<Doc>, hasJsDocTag: HasJsDocTag) returns (r: Option<Doc>)
      ensures r == FirstNonDeprecated(docs, hasJsDocTag)
    {
      var i := 0;
      while i < |docs|
        invariant 0 <= i <= |docs|
        invariant forall j :: 0 <= j < i ==> IsDeprecatedDoc(docs[j], hasJsDocTag)
      {
        if !IsDeprecatedDoc(docs[i], hasJsDocTag) {
          return Some(docs[i]);
        }
        i := i + 1;
      }
      return None;
    }

    /** Files one placed document into its entry point and records the group's display data. */
    method FileDoc(entryPoint: EntryPointDoc, p: Placed, hasJsDocTag: HasJsDocTag)
      modifies entryPoint
      ensures entryPoint.Value() == AddDoc(old(entryPoint.Value()), p, hasJsDocTag)
    {
      ghost var g := entryPoint.Value();
      var doc, info := p.doc, p.info;
      entryPoint.displayName := info.name;
      entryPoint.moduleImportPath := info.packageName + "/" + info.entryPointName;
      entryPoint.packageName := info.packageName;
      PushByRole(entryPoint, doc);
      ghost var filed := entryPoint.Value();
      assert filed == AddDoc(g, p, hasJsDocTag).(primaryExportName := g.primaryExportName);
      if IsPrimaryExportDoc(doc, hasJsDocTag) {
        entryPoint.primaryExportName := Some(doc.name);
      }
      assert entryPoint.Value() == filed.(primaryExportName := entryPoint.primaryExportName);
    }

    /** Appends the document to the one list its role selects (a test-harness class to two). */
    method PushByRole(entryPoint: EntryPointDoc, doc: Doc)
      modifies entryPoint
      ensures entryPoint.directives == Push(old(entryPoint.directives), doc, RoleOf(doc) == DirectiveRole)
      ensures entryPoint.services == Push(old(entryPoint.services), doc, RoleOf(doc) == ServiceRole)
      ensures entryPoint.exportedNgModules == Push(old(entryPoint.exportedNgModules), doc, RoleOf(doc) == NgModuleRole)
      ensures entryPoint.classes == Push(old(entryPoint.classes), doc, RoleOf(doc) == ClassRole)
      ensures entryPoint.testHarnesses == Push(old(entryPoint.testHarnesses), doc, RoleOf(doc) == ClassRole && doc.isTestHarness)
      ensures entryPoint.interfaces == Push(old(entryPoint.interfaces), doc, RoleOf(doc) == InterfaceRole)
      ensures entryPoint.typeAliases == Push(old(entryPoint.typeAliases), doc, RoleOf(doc) == TypeAliasRole)
      ensures entryPoint.functions == Push(old(entryPoint.functions), doc, RoleOf(doc) == FunctionRole)
      ensures entryPoint.constants == Push(old(entryPoint.constants), doc, RoleOf(doc) == ConstRole)
      ensures unchanged(entryPoint`name, entryPoint`id, entryPoint`displayName, entryPoint`moduleImportPath)
      ensures unchanged(entryPoint`packageName, entryPoint`aliases, entryPoint`primaryExportName)
    {
      if doc.isDirective {
        entryPoint.directives := entryPoint.directives + [doc];
      } else if doc.isService {
        entryPoint.services := entryPoint.services + [doc];
      } else if doc.isNgModule {
        entryPoint.exportedNgModules := entryPoint.exportedNgModules + [doc];
      } else if doc.docType == "class" {
        entryPoint.classes := entryPoint.classes + [doc];
        if doc.isTestHarness {
          entryPoint.testHarnesses := entryPoint.testHarnesses + [doc];
        }
      } else if doc.docType == "interface" {
        entryPoint.interfaces := entryPoint.interfaces + [doc];
      } else if doc.docType == "type-alias" {
        entryPoint.typeAliases := entryPoint.typeAliases + [doc];
      } else if doc.docType == "function" {
        entryPoint.functions := entryPoint.functions + [doc];
      } else if doc.docType == "const" {
        entryPoint.constants := entryPoint.constants + [doc];
      }
    }

    /** The second pass for one entry point: choose a primary export when none was tagged. */
    method ChoosePrimaryExport(entryPoint: EntryPointDoc, hasJsDocTag: HasJsDocTag)
      modifies entryPoint
      ensures entryPoint.Value() == WithPrimaryExport(old(entryPoint.Value()), hasJsDocTag)
    {
      if entryPoint.primaryExportName.Some? {
        return;
      }
      var ngModuleExport := FindBestPrimaryExport(entryPoint.exportedNgModules, hasJsDocTag);
      if ngModuleExport.Some? {
        entryPoint.primaryExportName := Some(ngModuleExport.value.name);
        return;
      }
      var testHarnessExport := FindBestPrimaryExport(entryPoint.testHarnesses, hasJsDocTag);
      if testHarnessExport.Some? {
        entryPoint.primaryExportName := Some(testHarnessExport.value.name);
      }
    }

    /**
     * Groups the documents into entry points keyed by package and entry-point name, in the
     * order the keys first occur, and then fills in missing primary exports.
     */
    method Process(docs: seq<Doc>, hasJsDocTag: HasJsDocTag, computeApiDocumentUrl: ComputeApiDocumentUrl)
      returns (r: Result<seq<EntryPointDoc>, GroupingError>)
      ensures var spec := GroupEntryPoints(entryPoints, docs, hasJsDocTag, computeApiDocumentUrl);
              r.Failure? == spec.Failure? &&
              (r.Failure? ==> r.error == spec.error) &&
              (r.Success? ==> |r.value| == |spec.value| &&
                              (forall i :: 0 <= i < |r.value| ==> fresh(r.value[i]) && r.value[i].Value() == spec.value[i]) &&
                              (forall i, j :: 0 <= i < j < |r.value| ==> r.value[i] != r.value[j]))
    {
      var failure, groups, order, ps := GroupDocs(docs, hasJsDocTag, computeApiDocumentUrl);
      if failure.Some? {
        return Failure(failure.value);
      }
      GroupedWellFormed(ps, hasJsDocTag);
      ghost var t := Grouped(ps, hasJsDocTag);
      var values := seq(|order|, m requires 0 <= m < |order| => groups[order[m]]);
      ghost var before := seq(|order|, m requires 0 <= m < |order| => t.groups[order[m]]);
      FillPrimaryExports(values, before, seq(|order|, m requires 0 <= m < |order| => WithPrimaryExport(before[m], hasJsDocTag)),
                         hasJsDocTag);
      return Success(values);
    }

    /** The first pass: files every document, or stops at the first one without an entry point. */
    method GroupDocs(docs: seq<Doc>, hasJsDocTag: HasJsDocTag, computeApiDocumentUrl: ComputeApiDocumentUrl)
      returns (failure: Option<GroupingError>, groups: map<string, EntryPointDoc>, order: seq<string>, ghost ps: seq<Placed>)
      ensures failure.Some? ==> Placements(entryPoints, docs, computeApiDocumentUrl) == Failure(failure.value)
      ensures failure.None? ==> Placements(entryPoints, docs, computeApiDocumentUrl) == Success(ps)
      ensures order == Grouped(ps, hasJsDocTag).order
      ensures groups.Keys == Grouped(ps, hasJsDocTag).groups.Keys
      ensures forall k :: k in groups ==> fresh(groups[k]) && groups[k].Value() == Grouped(ps, hasJsDocTag).groups[k]
      ensures forall k1, k2 :: k1 in groups && k2 in groups && k1 != k2 ==> groups[k1] != groups[k2]
    {
      groups, order, ps := map[], [], [];
      var i := 0;
      while i < |docs|
        invariant 0 <= i <= |docs|
        invariant Placements(entryPoints, docs[..i], computeApiDocumentUrl) == Success(ps)
        invariant order == Grouped(ps, hasJsDocTag).order
        invariant groups.Keys == Grouped(ps, hasJsDocTag).groups.Keys
        invariant forall k :: k in groups ==> fresh(groups[k]) && groups[k].Value() == Grouped(ps, hasJsDocTag).groups[k]
        invariant forall k1, k2 :: k1 in groups && k2 in groups && k1 != k2 ==> groups[k1] != groups[k2]
      {
        var doc := docs[i];
        assert docs[..i + 1][..i] == docs[..i];
        assert docs[..i + 1][i] == doc;
        var info := GetModulePackageInfo(doc);
        if info.Failure? {
          PlacementsFailureStays(entryPoints, docs, i + 1, computeApiDocumentUrl);
          return Some(info.error), groups, order, ps;
        }
        var placed := Placed(WithPublicUrl(doc, info.value, computeApiDocumentUrl), info.value);
        groups, order := FileGroup(groups, order, placed, ps, hasJsDocTag);
        assert (ps + [placed])[..|ps|] == ps;
        ps := ps + [placed];
        i := i + 1;
      }
      assert docs[..i] == docs;
      return None, groups, order, ps;
    }

    /** One step of the first pass: finds or creates the document's entry point and files it there. */
    method FileGroup(groups0: map<string, EntryPointDoc>, order0: seq<string>, placed: Placed, ghost ps: seq<Placed>,
                     hasJsDocTag: HasJsDocTag)
      returns (groups: map<string, EntryPointDoc>, order: seq<string>)
      requires order0 == Grouped(ps, hasJsDocTag).order
      requires groups0.Keys == Grouped(ps, hasJsDocTag).groups.Keys
      requires forall k :: k in groups0 ==> groups0[k].Value() == Grouped(ps, hasJsDocTag).groups[k]
      requires forall k1, k2 :: k1 in groups0 && k2 in groups0 && k1 != k2 ==> groups0[k1] != groups0[k2]
      modifies groups0.Values
      ensures order == Grouped(ps + [placed], hasJsDocTag).order
      ensures groups.Keys == Grouped(ps + [placed], hasJsDocTag).groups.Keys
      ensures forall k :: k in groups ==> (k in groups0 ==> groups[k] == groups0[k]) && (k !in groups0 ==> fresh(groups[k]))
      ensures forall k :: k in groups ==> groups[k].Value() == Grouped(ps + [placed], hasJsDocTag).groups[k]
      ensures forall k1, k2 :: k1 in groups && k2 in groups && k1 != k2 ==> groups[k1] != groups[k2]
    {
      ghost var t := Grouped(ps, hasJsDocTag);
      ghost var t' := Grouped(ps + [placed], hasJsDocTag);
      var key := placed.info.packageName + "-" + placed.info.name;
      GroupedStep(ps, placed, hasJsDocTag);
      var entryPoint: EntryPointDoc;
      groups, order := groups0, order0;
      if key in groups {
        entryPoint := groups[key];
      } else {
        entryPoint := new EntryPointDoc(key);
        groups := groups[key := entryPoint];
        order := order + [key];
      }
      ghost var before := entryPoint.Value();
      assert before == if key in groups0 then t.groups[key] else NewEntryPoint(key);
      FileDoc(entryPoint, placed, hasJsDocTag);
      assert entryPoint.Value() == t'.groups[key];
      assert groups.Keys == t'.groups.Keys;
      forall k | k in groups
        ensures groups[k].Value() == t'.groups[k]
      {
        if k != key {
          assert groups[k] == groups0[k] && groups[k] != entryPoint;
          assert t'.groups[k] == t.groups[k];
        }
      }
    }

    /** The second pass, over the entry points in key order. */
    method FillPrimaryExports(entryPointDocs: seq<EntryPointDoc>, ghost before: seq<EntryPoint>, ghost after: seq<EntryPoint>,
                              hasJsDocTag: HasJsDocTag)
      requires |entryPointDocs| == |before| == |after|
      requires forall m :: 0 <= m < |entryPointDocs| ==> entryPointDocs[m].Value() == before[m]
      requires forall m :: 0 <= m < |after| ==> after[m] == WithPrimaryExport(before[m], hasJsDocTag)
      requires forall m1, m2 :: 0 <= m1 < m2 < |entryPointDocs| ==> entryPointDocs[m1] != entryPointDocs[m2]
      modifies set m | 0 <= m < |entryPointDocs| :: entryPointDocs[m]
      ensures forall m :: 0 <= m < |entryPointDocs| ==> entryPointDocs[m].Value() == after[m]
    {
      var n := 0;
      while n < |entryPointDocs|
        invariant 0 <= n <= |entryPointDocs|
        invariant forall m :: 0 <= m < n ==> entryPointDocs[m].Value() == after[m]
        invariant forall m :: n <= m < |entryPointDocs| ==> entryPointDocs[m].Value() == before[m]
      {
        ChoosePrimaryExport(entryPointDocs[n], hasJsDocTag);
        n := n + 1;
      }
    }
  }
}
