/** The optional values and the opaque identifiers shared by the whole model.
    Tokens, UUIDs and the like are only ever compared for equality, so natural numbers stand for them. */
module Options {

  datatype Option<+T> = None | Some(value: T)

  type UserId = nat
  type FamilyId = nat

  /** An opaque string made by `secrets.token_urlsafe`; the blank string is the number 0. */
  type Token = nat

  const BLANK: Token := 0
}
