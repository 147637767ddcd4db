/** The AST nodes the plugin produces or inspects, and the errors it raises. */
module Ast {

  /**
   * A node handed to pug's code generator. Only the fields the plugin reads or
   * sets are kept; `line`, `column` and `filename` are not modelled.
   */
  datatype Node =
    | Text(val: string)                        // an ordinary `Text` node (no `pugtemplate` property)
    | TemplateRef(func: string, data: string)  // `{type: 'Text', pugtemplate: true, func, data}`
    | TemplateDecl                             // `{type: 'Text', pugtemplate: false}`
    | Tag(name: string, selfClosing: bool, isInline: bool, block: Node)
    | Block(nodes: seq<Node>)
    | Other(kind: string)                      // any other node; `kind` is its `type` ('' when absent)
  {
    /** The node's `type` property. */
    function Type(): string
    {
      match this
      case Text(_) => "Text"
      case TemplateRef(_, _) => "Text"
      case TemplateDecl => "Text"
      case Tag(_, _, _, _) => "Tag"
      case Block(_) => "Block"
      case Other(kind) => kind
    }

    /** `node.hasOwnProperty('pugtemplate')`. */
    predicate HasPugTemplate()
    {
      TemplateRef? || TemplateDecl?
    }
  }

  /** What a hook throws. */
  datatype Error =
    | MissingName               // parser.error('INVALID_TOKEN', ...) for a tag without `name`
    | NotDefined(name: string)  // a reference to a template not in the cache
    | AlreadyDefined(name: string)
    | TypeError(msg: string)    // a property read on `null` or `undefined`, or a call of a missing method
    | HostError(msg: string)    // anything pug itself throws
    | PluginsInUse              // `res.locals.plugins` holds something that is not an array

  /** The type error of reading property `prop` of `holder`, which is `null` or `undefined`. */
  function CannotRead(holder: string, prop: string): Error
  {
    TypeError("Cannot read properties of " + holder + " (reading '" + prop + "')")
  }
}
