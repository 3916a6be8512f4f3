/** A JavaScript value that may be missing: `undefined` or `null` on one
    side, a present value, even a falsy one such as the empty string, on the
    other. */
module JsValues {

  datatype Option<+T> = None | Some(value: T)
}
