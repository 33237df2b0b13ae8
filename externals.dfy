/**
 * The collaborators the linter calls but whose code is not part of this
 * model: the story-format and version detectors, the `semver` package, the
 * story-format parsers, the AST-to-node factory, the tree recurser, the HTML
 * parser behind `innerHTML`, and caller-supplied zero-argument functions.
 */
module Externals {
  import opened Wrappers
  import opened Dom
  import opened JsValues

  /**
   * What a runner hands the recurser besides the root and the callback:
   * `recurser(childNode, copy.format, copy.version, callback, taskCopy)`.
   */
  datatype Walker = Walker(recurser: JsValue, format: JsValue, version: JsValue, taskCopy: JsValue)

  /** One `callback(node, format, version, options)` call a recurser makes. */
  datatype Visit = Visit(node: JsValue, format: JsValue, version: JsValue, options: JsValue)

  datatype Env = Env(
    /** `detectFormat(storyData, detectionMode)`. */
    detectFormat: (JsValue, JsValue) -> JsValue,
    /** `detectVersion(storyData, detectionMode)`. */
    detectVersion: (JsValue, JsValue) -> JsValue,
    /** `semver.valid(v)` is truthy. */
    semverValid: string -> bool,
    /** `semver.satisfies(v, range)`. */
    semverSatisfies: (string, string) -> bool,
    /**
     * `parser.parse(text)` for the parser with the given identity (the format
     * name for a `parserFactory` product, the function id for a caller's
     * parser); `None` stands for a falsy result.
     */
    parse: (string, string) -> Option<seq<AstNode>>,
    /** `parserFactory(format)` throws for this format instead of returning a parser. */
    parserFactoryThrows: JsValue -> bool,
    /** `nodeFactory(astNode)`. */
    nodeFactory: AstNode -> Node,
    /**
     * The callback calls a recurser makes, in order, when it walks from a
     * root with the format, version and task options it was handed.
     */
    recurse: (Walker, JsValue) -> seq<Visit>,
    /** The value returned by calling a caller-supplied function with no arguments. */
    call: string -> JsValue,
    /** `querySelector('tw-storydata')` after `innerHTML` is set to the given markup. */
    parseStoryData: string -> JsValue)
}
