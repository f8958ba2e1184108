/**
 * The dgeni document records that the processors read and write. A document is a
 * value here; a processor that assigns fields of a document returns the updated record.
 */
module DgeniDocs {
  import opened Wrappers

  /** The runtime class of a document, as the processors test it with `instanceof`. */
  datatype DocClass = ClassExportDoc | InterfaceExportDoc | PropertyMemberDoc | OtherApiDoc | NonApiDoc

  /** A value of a decorator argument object; only string values become directive metadata. */
  datatype ArgumentValue = StringValue(text: string) | BooleanValue(flag: bool) | StringArrayValue(items: seq<string>) | OtherValue

  /** One argument object of a decorator call, as the key/value list `Object.entries` yields. */
  type ArgumentInfo = seq<(string, ArgumentValue)>

  datatype Decorator = Decorator(name: string, isCallExpression: bool, argumentInfo: Option<seq<ArgumentInfo>>)

  datatype JsDocTag = JsDocTag(tagName: string, description: string)

  /** What a member sees of its container (a non-owning reference in the source). */
  datatype ContainerRef = ContainerRef(docClass: DocClass, typeParams: Option<string>)

  datatype Doc = Doc(
    id: string,
    name: string,
    docType: string,
    docClass: DocClass,
    basePath: string,                  // fileInfo.basePath
    decorators: Option<seq<Decorator>>,
    members: seq<Doc>,
    statics: seq<Doc>,
    containerDoc: Option<ContainerRef>,
    typeParams: Option<string>,
    hasParameters: bool,               // doc.hasOwnProperty('parameters')
    isGetAccessor: bool,
    isSetAccessor: bool,
    isDirective: bool,                 // flags set by the categorizer
    isService: bool,
    isNgModule: bool,
    isTestHarness: bool,
    isDeprecated: bool,
    breakingChange: Option<string>,
    directiveMetadata: Option<map<string, string>>,
    publicUrl: Option<string>)

  /** `hasJsDocTag(doc, tagName)`: defined outside this model, so a parameter. */
  type HasJsDocTag = (Doc, string) -> bool

  /** `findJsDocTag(doc, tagName)`: defined outside this model, so a parameter. */
  type FindJsDocTag = (Doc, string) -> Option<JsDocTag>
}
