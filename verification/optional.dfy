/** Fields of a stored document that may be absent (`undefined` in JavaScript). */
module Optional {

  datatype Option<T> = None | Some(value: T)

  /** `field || fallback` for a field whose only falsy value equals the
      fallback: the field's value when present, the fallback otherwise. */
  function ValueOr<T>(field: Option<T>, fallback: T): T {
    if field.Some? then field.value else fallback
  }
}
