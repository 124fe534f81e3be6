/** The optional value used for TypeScript's `undefined`, an absent option and a `null` name. */
module Maybe {

  datatype Option<+T> = None | Some(value: T)
}
