/** JavaScript-level values that the simulation's fields can hold. */
module JsValues {

  /** A field of a JavaScript object: never assigned (`undefined`),
      explicitly `null`, or holding a value. */
  datatype JsValue<T> = Undefined | Null | Defined(value: T) {

    /** The loose test `x == null`, true of both `null` and `undefined`. */
    predicate LooselyNull()
      ensures LooselyNull() <==> !Defined?
    {
      Undefined? || Null?
    }
  }

  datatype Option<T> = None | Some(value: T)
}
