/**
 * Predicates over decorators and member kinds, directive selectors, the standalone flag and
 * deprecation info (libs/ngx-doc-gen/src/common/decorators.ts).
 */
module Decorators {
  import opened Wrappers
  import opened Sequences
  import opened DgeniDocs

  /** A member with parameters that is neither a getter nor a setter. */
  function IsMethod(doc: Doc): (r: bool)
    ensures (doc.isGetAccessor || doc.isSetAccessor) ==> !r
    ensures !doc.hasParameters ==> !r
    ensures doc.hasParameters && !doc.isGetAccessor && !doc.isSetAccessor ==> r
  {
    doc.hasParameters && !doc.isGetAccessor && !doc.isSetAccessor
  }

  /** A member whose name, in angle brackets, is the type parameter list of its class. */
  function IsGenericTypeParameter(doc: Doc): (r: bool)
    // the truthiness test on `typeParams` never decides: `<name>` is never empty
    ensures r <==> doc.containerDoc.Some? && doc.containerDoc.value.docClass == ClassExportDoc
                   && doc.containerDoc.value.typeParams == Some("<" + doc.name + ">")
  {
    match doc.containerDoc
    case None => false
    case Some(container) =>
      container.docClass == ClassExportDoc && container.typeParams.Some? &&
      container.typeParams.value != "" && "<" + doc.name + ">" == container.typeParams.value
  }

  /** A property member or an accessor, unless it is the class's generic type parameter. */
  function IsProperty(doc: Doc): (r: bool)
    ensures IsGenericTypeParameter(doc) ==> !r
    ensures r ==> doc.docClass == PropertyMemberDoc || doc.isGetAccessor || doc.isSetAccessor
    ensures ((doc.docClass == PropertyMemberDoc || doc.isGetAccessor || doc.isSetAccessor)
             && !IsGenericTypeParameter(doc)) ==> r
  {
    if doc.docClass == PropertyMemberDoc || (!IsMethod(doc) && (doc.isGetAccessor || doc.isSetAccessor)) then
      !IsGenericTypeParameter(doc)
    else
      false
  }

  /** Whether some decorator in a list carries the name (`decorators.some(d => d.name == name)`). */
  function SomeNamed(ds: seq<Decorator>, decoratorName: string): (r: bool)
    ensures r <==> exists i :: 0 <= i < |ds| && ds[i].name == decoratorName
  {
    if ds == [] then false else ds[0].name == decoratorName || SomeNamed(ds[1..], decoratorName)
  }

  function HasDecorator(doc: Doc, decoratorName: string): (r: bool)
    ensures r <==> doc.decorators.Some? &&
                   exists i :: 0 <= i < |doc.decorators.value| && doc.decorators.value[i].name == decoratorName
  {
    doc.decorators.Some? && |doc.decorators.value| > 0 && SomeNamed(doc.decorators.value, decoratorName)
  }

  function HasMemberDecorator(doc: Doc, decoratorName: string): (r: bool)
    ensures r ==> doc.docType == "member"
    ensures r <==> doc.docType == "member" && doc.decorators.Some? &&
                   exists i :: 0 <= i < |doc.decorators.value| && doc.decorators.value[i].name == decoratorName
  {
    doc.docType == "member" && HasDecorator(doc, decoratorName)
  }

  function HasClassDecorator(doc: Doc, decoratorName: string): (r: bool)
    ensures r ==> doc.docType == "class"
    ensures r <==> doc.docType == "class" && doc.decorators.Some? &&
                   exists i :: 0 <= i < |doc.decorators.value| && doc.decorators.value[i].name == decoratorName
  {
    doc.docType == "class" && HasDecorator(doc, decoratorName)
  }

  /** A class decorated with `Component` or `Directive` (or both). */
  function IsDirective(doc: Doc): (r: bool)
    ensures r <==> doc.docType == "class" && doc.decorators.Some? &&
                   exists i :: 0 <= i < |doc.decorators.value| &&
                     (doc.decorators.value[i].name == "Component" || doc.decorators.value[i].name == "Directive")
  {
    HasClassDecorator(doc, "Component") || HasClassDecorator(doc, "Directive")
  }

  function IsPipe(doc: Doc): (r: bool)
    ensures r <==> doc.docType == "class" && doc.decorators.Some? &&
                   exists i :: 0 <= i < |doc.decorators.value| && doc.decorators.value[i].name == "Pipe"
  {
    HasClassDecorator(doc, "Pipe")
  }

  function IsService(doc: Doc): (r: bool)
    ensures r <==> doc.docType == "class" && doc.decorators.Some? &&
                   exists i :: 0 <= i < |doc.decorators.value| && doc.decorators.value[i].name == "Injectable"
  {
    HasClassDecorator(doc, "Injectable")
  }

  function IsNgModule(doc: Doc): (r: bool)
    ensures r <==> doc.docType == "class" && doc.decorators.Some? &&
                   exists i :: 0 <= i < |doc.decorators.value| && doc.decorators.value[i].name == "NgModule"
  {
    HasClassDecorator(doc, "NgModule")
  }

  function IsDeprecatedDoc(doc: Doc, hasJsDocTag: HasJsDocTag): bool
  {
    hasJsDocTag(doc, "deprecated")
  }

  /** Whether the document carries the `@docs-primary-export` tag. */
  function IsPrimaryExportDoc(doc: Doc, hasJsDocTag: HasJsDocTag): bool
  {
    hasJsDocTag(doc, "docs-primary-export")
  }

  // ---- directive selectors ----

  /** JavaScript's `\s`: white space and line terminators. */
  predicate IsJsWhitespace(c: char)
  {
    c in {'\t', '\n', '\U{000B}', '\U{000C}', '\r', ' ', '\U{00A0}', '\U{1680}',
          '\U{2028}', '\U{2029}', '\U{202F}', '\U{205F}', '\U{3000}', '\U{FEFF}'}
    || ('\U{2000}' <= c <= '\U{200A}')
  }

  predicate IsNotLineBreak(c: char) { c != '\r' && c != '\n' }

  predicate IsNonEmpty(piece: string) { piece != "" }

  /** `s.replace(/[\r\n]/g, '')`. */
  function RemoveLineBreaks(s: string): (r: string)
    ensures '\r' !in r && '\n' !in r
  {
    Filter(s, IsNotLineBreak)
  }

  /** Start of the run of white space that ends at position `c`. */
  function WsRunStart(s: string, c: nat): (q: nat)
    requires c <= |s|
    ensures q <= c && (forall t :: q <= t < c ==> IsJsWhitespace(s[t]))
    ensures q == 0 || !IsJsWhitespace(s[q - 1])
  {
    if c > 0 && IsJsWhitespace(s[c - 1]) then WsRunStart(s, c - 1) else c
  }

  /** End of the run of white space that starts at position `k`. */
  function WsRunEnd(s: string, k: nat): (e: nat)
    requires k <= |s|
    ensures k <= e <= |s| && (forall t :: k <= t < e ==> IsJsWhitespace(s[t]))
    ensures e == |s| || !IsJsWhitespace(s[e])
    decreases |s| - k
  {
    if k < |s| && IsJsWhitespace(s[k]) then WsRunEnd(s, k + 1) else k
  }

  /**
   * `s.split(/\s*,\s*‍/)`. The leftmost match of the separator starts at the white space run
   * before the first comma and, both `\s*` being greedy, ends after the run that follows it.
   */
  function SplitOnCommaWs(s: string): (r: seq<string>)
    ensures |r| >= 1
    ensures forall i :: 0 <= i < |r| ==>
              ',' !in r[i] && ('\r' !in s ==> '\r' !in r[i]) && ('\n' !in s ==> '\n' !in r[i])
    decreases |s|
  {
    if ',' !in s then [s]
    else
      var c := IndexOf(s, ',');
      var q := WsRunStart(s, c);
      var e := WsRunEnd(s, c + 1);
      assert forall x :: x in s[..q] ==> x in s[..c];
      [s[..q]] + SplitOnCommaWs(s[e..])
  }

  /** The selector list computed from a `selector` string. */
  function SplitSelectors(selector: string): seq<string>
  {
    Filter(SplitOnCommaWs(RemoveLineBreaks(selector)), IsNonEmpty)
  }

  function GetDirectiveSelectors(classDoc: Doc): (r: Option<seq<string>>)
    ensures r.None? <==> classDoc.directiveMetadata.None? ||
                         "selector" !in classDoc.directiveMetadata.value ||
                         classDoc.directiveMetadata.value["selector"] == ""
    ensures r.Some? ==> forall i :: 0 <= i < |r.value| ==>
              r.value[i] != "" && ',' !in r.value[i] && '\r' !in r.value[i] && '\n' !in r.value[i]
  {
    match classDoc.directiveMetadata
    case None => None
    case Some(metadata) =>
      if "selector" in metadata && metadata["selector"] != "" then
        Some(SplitSelectors(metadata["selector"]))
      else
        None
  }

  /** A selector that survives a join with ", " and a split unchanged. */
  predicate IsPlainSelector(x: string)
  {
    x != "" && ',' !in x && '\r' !in x && '\n' !in x && !IsJsWhitespace(x[0]) && !IsJsWhitespace(x[|x| - 1])
  }

  lemma {:induction false} SplitOnCommaWsJoin(xs: seq<string>)
    requires |xs| >= 1 && forall i :: 0 <= i < |xs| ==> IsPlainSelector(xs[i])
    ensures SplitOnCommaWs(Join(xs, ", ")) == xs
  {
    if |xs| > 1 {
      var x0, rest := xs[0], Join(xs[1..], ", ");
      var s := Join(xs, ", ");
      assert s == x0 + ", " + rest;
      SplitOnCommaWsJoin(xs[1..]);
      JoinStartsWith(xs[1..]);
      assert s[|x0|] == ',' && s[..|x0|] == x0;
      var c := IndexOf(s, ',');
      assert forall t :: 0 <= t < |x0| ==> s[t] == x0[t];
      assert c == |x0|;
      var q := WsRunStart(s, c);
      assert q == c by {
        assert s[c - 1] == x0[|x0| - 1];
      }
      var e := WsRunEnd(s, c + 1);
      assert s[c + 1] == ' ' && s[c + 2] == xs[1][0];
      assert e == c + 2;
      assert s[e..] == rest;
      assert s[..q] == x0;
    } else {
      assert Join(xs, ", ") == xs[0];
    }
  }

  /** A join of plain selectors starts with the first selector's first character. */
  lemma {:induction false} JoinStartsWith(xs: seq<string>)
    requires |xs| >= 1 && xs[0] != ""
    ensures |Join(xs, ", ")| > 0 && Join(xs, ", ")[0] == xs[0][0]
  {
  }

  lemma {:induction false} JoinHasNoLineBreak(xs: seq<string>)
    requires forall i :: 0 <= i < |xs| ==> '\r' !in xs[i] && '\n' !in xs[i]
    ensures '\r' !in Join(xs, ", ") && '\n' !in Join(xs, ", ")
  {
    if |xs| > 1 {
      JoinHasNoLineBreak(xs[1..]);
    }
  }

  /** Joining plain selectors with ", " and splitting the result gives them back. */
  lemma {:induction false} SelectorsRoundTrip(xs: seq<string>)
    requires |xs| >= 1 && forall i :: 0 <= i < |xs| ==> IsPlainSelector(xs[i])
    ensures SplitSelectors(Join(xs, ", ")) == xs
  {
    var s := Join(xs, ", ");
    JoinHasNoLineBreak(xs);
    FilterAll(s, IsNotLineBreak);
    SplitOnCommaWsJoin(xs);
    FilterAll(xs, IsNonEmpty);
  }

  /** A trailing line break does not change the selector list. */
  lemma {:induction false} TrailingLineBreak(s: string)
    ensures SplitSelectors(s + "\n") == SplitSelectors(s)
  {
    FilterAppend(s, "\n", IsNotLineBreak);
    assert Filter("\n", IsNotLineBreak) == [];
    assert RemoveLineBreaks(s + "\n") == RemoveLineBreaks(s);
  }

  /** The selector "app-x, app-y\n" gives the two selectors. */
  lemma {:induction false} SelectorsExample(selector: string, x: string, y: string)
    requires x == "app-x" && y == "app-y" && selector == x + ", " + y + "\n"
    ensures SplitSelectors(selector) == [x, y]
  {
    var xs := [x, y];
    assert Join(xs, ", ") == x + ", " + y by {
      assert Join(xs[1..], ", ") == y;
    }
    assert IsPlainSelector(x) && IsPlainSelector(y);
    SelectorsRoundTrip(xs);
    TrailingLineBreak(x + ", " + y);
  }

  /** A non-empty selector without comma or line break is the only selector. */
  lemma {:induction false} SingleSelector(classDoc: Doc)
    requires classDoc.directiveMetadata.Some? && "selector" in classDoc.directiveMetadata.value
    requires var s := classDoc.directiveMetadata.value["selector"];
             s != "" && ',' !in s && '\r' !in s && '\n' !in s
    ensures GetDirectiveSelectors(classDoc) == Some([classDoc.directiveMetadata.value["selector"]])
  {
    var s := classDoc.directiveMetadata.value["selector"];
    FilterAll(s, IsNotLineBreak);
    FilterAll([s], IsNonEmpty);
  }

  /** A selector made of line breaks only is truthy, so it gives an empty list rather than none. */
  lemma {:induction false} LineBreakSelector(classDoc: Doc)
    requires classDoc.directiveMetadata.Some? && "selector" in classDoc.directiveMetadata.value
    requires classDoc.directiveMetadata.value["selector"] == "\r\n"
    ensures GetDirectiveSelectors(classDoc) == Some([])
  {
    assert RemoveLineBreaks("\r\n") == [];
  }

  // ---- metadata lookups ----

  function GetPipeName(classDoc: Doc): (r: Option<string>)
    ensures r.Some? <==> classDoc.directiveMetadata.Some? && "name" in classDoc.directiveMetadata.value
    ensures r.Some? ==> r.value == classDoc.directiveMetadata.value["name"]
  {
    match classDoc.directiveMetadata
    case None => None
    case Some(metadata) => if "name" in metadata then Some(metadata["name"]) else None
  }

  /** Metadata with a `standalone` entry whose text is not "false"; an empty text counts as standalone. */
  function IsStandalone(classDoc: Doc): (r: bool)
    ensures r <==> classDoc.directiveMetadata.Some? && "standalone" in classDoc.directiveMetadata.value &&
                   classDoc.directiveMetadata.value["standalone"] != "false"
  {
    match classDoc.directiveMetadata
    case None => false
    case Some(metadata) => "standalone" in metadata && metadata["standalone"] != "false"
  }

  // ---- deprecation ----

  function GetBreakingChange(doc: Doc, breakingChangeTag: string, findJsDocTag: FindJsDocTag): (r: Option<string>)
    ensures r.Some? <==> findJsDocTag(doc, breakingChangeTag).Some?
    ensures r.Some? ==> r.value == findJsDocTag(doc, breakingChangeTag).value.description
  {
    match findJsDocTag(doc, breakingChangeTag)
    case None => None
    case Some(tag) => Some(tag.description)
  }

  /** The text of `console.warn`'s two arguments. */
  datatype Warning = Warning(message: string, docId: string)

  /**
   * Sets `isDeprecated` and `breakingChange`; the warning the source prints is returned.
   * The breaking-change tag is looked up on the document after `isDeprecated` is assigned.
   */
  method DecorateDeprecatedDoc(doc: Doc, breakingChangeTag: string, hasJsDocTag: HasJsDocTag, findJsDocTag: FindJsDocTag)
    returns (decorated: Doc, warning: Option<Warning>)
    ensures decorated.isDeprecated == hasJsDocTag(doc, "deprecated")
    ensures decorated.breakingChange ==
              GetBreakingChange(doc.(isDeprecated := decorated.isDeprecated), breakingChangeTag, findJsDocTag)
    ensures decorated == doc.(isDeprecated := decorated.isDeprecated, breakingChange := decorated.breakingChange)
    ensures warning.Some? <==>
              decorated.isDeprecated && (decorated.breakingChange.None? || decorated.breakingChange.value == "")
    ensures warning.Some? ==>
              warning.value == Warning("Warning: There is a deprecated item without a @" + breakingChangeTag + " tag.", doc.id)
  {
    decorated := doc.(isDeprecated := IsDeprecatedDoc(doc, hasJsDocTag));
    decorated := decorated.(breakingChange := GetBreakingChange(decorated, breakingChangeTag, findJsDocTag));
    warning := None;
    if decorated.isDeprecated && (decorated.breakingChange.None? || decorated.breakingChange.value == "") {
      warning := Some(Warning("Warning: There is a deprecated item without a @" + breakingChangeTag + " tag.", doc.id));
    }
  }
}
