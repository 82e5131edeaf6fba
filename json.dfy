/** Values of a parsed JSON request body, enough to model JavaScript's `typeof` tests. */
module Json {

  /** A field of a parsed JSON body; `Undefined` is a field that is not there. */
  datatype Value =
    | Undefined
    | Null
    | Bool(b: bool)
    | Number(n: real)
    | Str(s: string)
    | Compound   // an object or an array

  /** `typeof v === "number"` */
  predicate IsNumber(v: Value)
  {
    v.Number?
  }

  /** `typeof v === "string"` */
  predicate IsString(v: Value)
  {
    v.Str?
  }
}
