/**
 * The values the editor screen works on: the JavaScript values the browser
 * store hands back, the declared uniform values of a transition, and the
 * transition itself.
 */
module EditorValues {

  /**
   * A JavaScript value as `store.get` returns it. The configuration handlers
   * write numbers and arrays of numbers; `Undefined` is what a missing key
   * reads as. Numbers are `real`: floating point rounding is not modelled, and
   * NaN is a value of its own.
   */
  datatype JsValue =
    | Undefined
    | Null
    | Bool(b: bool)
    | Number(n: real)
    | NaN
    | Array(items: seq<real>)

  /** JavaScript truthiness: `!v` is its negation. */
  predicate Truthy(v: JsValue) {
    match v
    case Undefined => false
    case Null => false
    case Bool(b) => b
    case Number(n) => n != 0.0
    case NaN => false
    case Array(_) => true
  }

  /**
   * The global `isNaN`, which converts its argument with ToNumber first:
   * undefined becomes NaN, null and booleans become 0 or 1, an array becomes
   * the number its elements spell once joined with commas (0 when empty, its
   * element when it has one, NaN when it has two or more).
   */
  predicate IsNaN(v: JsValue) {
    match v
    case Undefined => true
    case Null => false
    case Bool(_) => false
    case Number(_) => false
    case NaN => true
    case Array(items) => |items| >= 2
  }

  /**
   * A declared uniform value, as the uniforms editor and the persisted
   * transition hold it, or a resolved one (`Texture`) as the resolver
   * produces it for the preview.
   */
  datatype UniformValue =
    | Scalar(x: real)
    | Vector(xs: seq<real>)
    | Flag(b: bool)
    | Flags(bs: seq<bool>)
    | TextureRef(url: string)
    | NoTexture
    | Texture(handle: nat)

  /**
   * The edited transition. Being a datatype, equality is by value, which is
   * what lodash's deep `_.isEqual` decides on these records.
   */
  datatype Transition = Transition(
    id: string,
    name: string,
    glsl: string,
    uniforms: map<string, UniformValue>,
    comments: int,
    htmlUrl: string)
}
