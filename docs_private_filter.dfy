/**
 * The processor that drops documents which are not public and renames public ones that
 * carry an alias (libs/ngx-doc-gen/src/processors/docs-private-filter.ts).
 */
module PrivateFilter {
  import opened Wrappers
  import opened Sequences
  import opened DgeniDocs

  /** `isPublicDoc(doc, docsPublic, docsPrivate)`: defined outside this model, so a parameter. */
  type IsPublicDoc = (Doc, string, string) -> bool

  /** `getDocsPublicTag(doc, docsPublic)`: defined outside this model, so a parameter. */
  type GetDocsPublicTag = (Doc, string) -> Option<JsDocTag>

  /** The documents that pass the visibility predicate, in input order. */
  function PublicOnly(docs: seq<Doc>, isPublicDoc: IsPublicDoc, docsPublic: string, docsPrivate: string): seq<Doc>
  {
    Filter(docs, d => isPublicDoc(d, docsPublic, docsPrivate))
  }

  /** The name a kept document ends up with: the alias of its public tag, when there is a non-empty one. */
  function AliasedName(doc: Doc, getDocsPublicTag: GetDocsPublicTag, docsPublic: string): (r: string)
    ensures doc.docClass != NonApiDoc && getDocsPublicTag(doc, docsPublic).Some? &&
            getDocsPublicTag(doc, docsPublic).value.description != ""
            ==> r == getDocsPublicTag(doc, docsPublic).value.description
    ensures doc.docClass == NonApiDoc || getDocsPublicTag(doc, docsPublic).None? ||
            getDocsPublicTag(doc, docsPublic).value.description == ""
            ==> r == doc.name
  {
    if doc.docClass != NonApiDoc then
      match getDocsPublicTag(doc, docsPublic)
      case Some(tag) => if tag.description != "" then tag.description else doc.name
      case None => doc.name
    else doc.name
  }

  /** The member list of a kept document: narrowed for interfaces and classes. */
  function NarrowedMembers(doc: Doc, isPublicDoc: IsPublicDoc, docsPublic: string, docsPrivate: string): seq<Doc>
  {
    if doc.docClass == InterfaceExportDoc || doc.docClass == ClassExportDoc
    then PublicOnly(doc.members, isPublicDoc, docsPublic, docsPrivate)
    else doc.members
  }

  /** The static member list of a kept document: narrowed for classes only. */
  function NarrowedStatics(doc: Doc, isPublicDoc: IsPublicDoc, docsPublic: string, docsPrivate: string): seq<Doc>
  {
    if doc.docClass == ClassExportDoc then PublicOnly(doc.statics, isPublicDoc, docsPublic, docsPrivate) else doc.statics
  }

  /** A kept document after the processor's edits: alias rename, then member and static narrowing. */
  function Narrowed(doc: Doc, isPublicDoc: IsPublicDoc, getDocsPublicTag: GetDocsPublicTag,
                    docsPublic: string, docsPrivate: string): Doc
  {
    doc.(name := AliasedName(doc, getDocsPublicTag, docsPublic),
         members := NarrowedMembers(doc, isPublicDoc, docsPublic, docsPrivate),
         statics := NarrowedStatics(doc, isPublicDoc, docsPublic, docsPrivate))
  }

  /** The `forEach` callback: edits one kept document in place (here: returns the edited value). */
  method NarrowDoc(original: Doc, isPublicDoc: IsPublicDoc, getDocsPublicTag: GetDocsPublicTag,
                   docsPublic: string, docsPrivate: string) returns (doc: Doc)
    ensures doc == Narrowed(original, isPublicDoc, getDocsPublicTag, docsPublic, docsPrivate)
  {
    var name, members, statics := original.name, original.members, original.statics;
    if original.docClass != NonApiDoc {
      var docsPublicTag := getDocsPublicTag(original, docsPublic);
      if docsPublicTag.Some? && docsPublicTag.value.description != "" {
        name := docsPublicTag.value.description;
      }
    }
    if original.docClass == InterfaceExportDoc {
      members := PublicOnly(original.members, isPublicDoc, docsPublic, docsPrivate);
    }
    if original.docClass == ClassExportDoc {
      members := PublicOnly(original.members, isPublicDoc, docsPublic, docsPrivate);
      statics := PublicOnly(original.statics, isPublicDoc, docsPublic, docsPrivate);
    }
    assert name == AliasedName(original, getDocsPublicTag, docsPublic);
    assert members == NarrowedMembers(original, isPublicDoc, docsPublic, docsPrivate);
    assert statics == NarrowedStatics(original, isPublicDoc, docsPublic, docsPrivate);
    doc := original.(name := name, members := members, statics := statics);
  }

  class DocsPrivateFilter {
    const name: string := "docs-private-filter"
    const runBefore: seq<string> := ["categorizer"]
    const runAfter: seq<string> := ["mergeInheritedProperties"]

    var docsPublic: string
    var docsPrivate: string

    constructor ()
      ensures docsPublic == "docs-public" && docsPrivate == "docs-private"
    {
      docsPublic := "docs-public";
      docsPrivate := "docs-private";
    }

    /** The public documents, in input order, each with the edits of `Narrowed`. */
    method Process(docs: seq<Doc>, isPublicDoc: IsPublicDoc, getDocsPublicTag: GetDocsPublicTag)
      returns (publicDocs: seq<Doc>)
      ensures var kept := PublicOnly(docs, isPublicDoc, docsPublic, docsPrivate);
        && |publicDocs| == |kept|
        && forall i :: 0 <= i < |kept| ==>
             publicDocs[i] == Narrowed(kept[i], isPublicDoc, getDocsPublicTag, docsPublic, docsPrivate)
    {
      var pub, priv := docsPublic, docsPrivate;
      publicDocs := PublicOnly(docs, isPublicDoc, pub, priv);
      ghost var kept := publicDocs;
      var i := 0;
      while i < |publicDocs|
        invariant 0 <= i <= |publicDocs| == |kept|
        invariant forall j :: 0 <= j < i ==> publicDocs[j] == Narrowed(kept[j], isPublicDoc, getDocsPublicTag, pub, priv)
        invariant forall j :: i <= j < |kept| ==> publicDocs[j] == kept[j]
      {
        var doc := NarrowDoc(publicDocs[i], isPublicDoc, getDocsPublicTag, pub, priv);
        publicDocs := publicDocs[i := doc];
        i := i + 1;
      }
    }
  }

  /**
   * The kept documents are exactly the passing ones: an order-preserving subsequence of the input,
   * holding each passing document as often as the input does and no failing one.
   */
  lemma {:induction false} PublicOnlyIsPassingSubsequence(docs: seq<Doc>, isPublicDoc: IsPublicDoc, docsPublic: string, docsPrivate: string, d: Doc)
    ensures IsSubsequence(PublicOnly(docs, isPublicDoc, docsPublic, docsPrivate), docs)
    ensures multiset(PublicOnly(docs, isPublicDoc, docsPublic, docsPrivate))[d] ==
              if isPublicDoc(d, docsPublic, docsPrivate) then multiset(docs)[d] else 0
  {
    FilterIsSubsequence(docs, x => isPublicDoc(x, docsPublic, docsPrivate));
    FilterCounts(docs, x => isPublicDoc(x, docsPublic, docsPrivate), d);
  }

  /** Each kept document keeps its identity, and its narrowed lists are subsequences of the old ones. */
  lemma {:induction false} NarrowedKeepsIdentity(doc: Doc, isPublicDoc: IsPublicDoc, getDocsPublicTag: GetDocsPublicTag,
                              docsPublic: string, docsPrivate: string)
    ensures var r := Narrowed(doc, isPublicDoc, getDocsPublicTag, docsPublic, docsPrivate);
      && r.id == doc.id && r.docClass == doc.docClass && r.basePath == doc.basePath
      && IsSubsequence(r.members, doc.members) && IsSubsequence(r.statics, doc.statics)
      && (forall i :: 0 <= i < |r.members| ==> r.members[i] in doc.members)
  {
    FilterIsSubsequence(doc.members, x => isPublicDoc(x, docsPublic, docsPrivate));
    FilterIsSubsequence(doc.statics, x => isPublicDoc(x, docsPublic, docsPrivate));
    SubsequenceOfSelf(doc.members);
    SubsequenceOfSelf(doc.statics);
  }

  /**
   * Interfaces and classes keep exactly their public members, classes also exactly their public
   * statics; every other list is left as it was.
   */
  lemma {:induction false} NarrowedByKind(doc: Doc, isPublicDoc: IsPublicDoc, getDocsPublicTag: GetDocsPublicTag,
                       docsPublic: string, docsPrivate: string, m: Doc)
    ensures var r := Narrowed(doc, isPublicDoc, getDocsPublicTag, docsPublic, docsPrivate);
      && (doc.docClass == InterfaceExportDoc || doc.docClass == ClassExportDoc ==>
            (m in r.members <==> m in doc.members && isPublicDoc(m, docsPublic, docsPrivate)))
      && (doc.docClass == ClassExportDoc ==>
            (m in r.statics <==> m in doc.statics && isPublicDoc(m, docsPublic, docsPrivate)))
      && (doc.docClass != InterfaceExportDoc && doc.docClass != ClassExportDoc ==> r.members == doc.members)
      && (doc.docClass != ClassExportDoc ==> r.statics == doc.statics)
  {
  }

  lemma {:induction false} SubsequenceOfSelf<T>(s: seq<T>)
    ensures IsSubsequence(s, s)
  {
    if s != [] {
      SubsequenceOfSelf(s[1..]);
    }
  }
}
