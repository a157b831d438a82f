/**
 * The persisted side of the settings: the `gameSettings` key of the
 * device's key-value store, and what `JSON.parse` can hand back for its
 * text. The parser itself is not modelled; its outcome is an input.
 */
module Storage {
  import opened Wrappers

  /**
   * One property of a parsed object. `Missing` is `undefined`; numbers,
   * arrays and nested objects are kept only as far as the screens look at
   * them (their JavaScript truthiness).
   */
  datatype Value =
    | Missing
    | Null
    | Bool(b: bool)
    | Text(t: string)
    | Number(n: real)
    | Composite

  /** `!!v` in JavaScript (NaN is not modelled). */
  function Truthy(v: Value): (b: bool)
    ensures (v.Missing? || v.Null?) ==> !b
    ensures v.Bool? ==> b == v.b
    ensures v.Text? ==> (b <==> v.t != "")
  {
    match v
    case Missing => false
    case Null => false
    case Bool(b) => b
    case Text(t) => t != ""
    case Number(n) => n != 0.0
    case Composite => true
  }

  /** The four properties the screens read from a parsed settings object. */
  datatype StoredFields = StoredFields(
    soundEnabled: Value,
    vibrationEnabled: Value,
    difficulty: Value,
    viewMode: Value)

  /**
   * What `JSON.parse(trimmed)` did: it threw, it produced something that
   * is not a plain object (null, an array, a primitive), or it produced an
   * object.
   */
  datatype ParseOutcome =
    | ParseError
    | NotAnObject
    | Object(fields: StoredFields)

  /** The `gameSettings` entry of AsyncStorage, shared by both screens. */
  class Store {
    var item: Option<string>

    constructor (initial: Option<string>)
      ensures item == initial
    {
      item := initial;
    }
  }
}
