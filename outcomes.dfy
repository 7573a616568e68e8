/** Failure-carrying values shared by every part of the generator. */
module Outcomes {

  datatype Option<+T> = None | Some(value: T)

  /** Every way one generation call can abort. The first seven are the
      exceptions the generator itself throws or that JavaScript throws
      inside it. `OutOfFuel` stands for the `RangeError` JavaScript throws
      when nested calls overflow the stack, at the depth the model's bound
      fixes; the two bound errors only exist in this model. */
  datatype Error =
    | RefNotLocal       // a `$ref` that does not start with "#/"
    | RefUnresolved     // a path segment of a `$ref` is undefined
    | SchemaMissing     // the node handed to the dispatcher is falsy
    | AnyOfInvalid      // `anyOf` is not a non-empty array
    | EnumInvalid       // `enum` is not a non-empty array
    | ItemsMissing      // an `array` node whose `items` is absent or falsy
    | TypeError         // `in` on a primitive, a property read on null,
                        // `startsWith` or `includes` on an unsuitable value
    | UnsupportedBound  // `minimum` or `maximum` is not an integer
    | InvertedBounds    // the effective minimum exceeds the maximum
    | OutOfFuel         // the nesting bound is exhausted: the stack overflow

  datatype Result<+T> = Ok(value: T) | Err(error: Error)
}
