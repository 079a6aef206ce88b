/** passwordSchema (components/MainCompo.tsx, lines 16-22): the one rule set the
    form checks the password length against. yup skips its min and max tests
    on an absent value, so the rules act as the ordered chain
    required, minimum, maximum, and at most one of them fails. */
module PasswordSchema {

  datatype Option<T> = None | Some(value: T)

  /** The outcome of validating the length field: the accepted length, or the
      message of the rule it breaks. */
  datatype Validation = Accepted(length: int) | Rejected(message: string)

  const MinLength: int := 4
  const MaxLength: int := 16

  const RequiredMessage: string := "Password length is required"
  const TooShortMessage: string := "Password length is too short - should be 4 chars minimum."
  const TooLongMessage: string := "Password length is too long - should be 16 chars maximum."

  /** The length field passes every rule of the schema. */
  predicate InBounds(passwordLength: Option<int>)
  {
    passwordLength.Some? && MinLength <= passwordLength.value <= MaxLength
  }

  function ValidatePasswordLength(passwordLength: Option<int>): (r: Validation)
    ensures r.Accepted? <==> InBounds(passwordLength)
    ensures r.Accepted? ==> r.length == passwordLength.value
    ensures passwordLength.None? ==> r == Rejected(RequiredMessage)
    ensures passwordLength.Some? && passwordLength.value < MinLength ==> r == Rejected(TooShortMessage)
    ensures passwordLength.Some? && passwordLength.value > MaxLength ==> r == Rejected(TooLongMessage)
  {
    match passwordLength
    case None => Rejected(RequiredMessage)
    case Some(n) =>
      if n < MinLength then Rejected(TooShortMessage)
      else if n > MaxLength then Rejected(TooLongMessage)
      else Accepted(n)
  }

  /** The three messages are distinct, so a rejection names the one rule broken. */
  lemma RejectionIdentifiesRule(passwordLength: Option<int>)
    ensures ValidatePasswordLength(passwordLength) == Rejected(RequiredMessage)
        <==> passwordLength.None?
    ensures ValidatePasswordLength(passwordLength) == Rejected(TooShortMessage)
        <==> passwordLength.Some? && passwordLength.value < MinLength
    ensures ValidatePasswordLength(passwordLength) == Rejected(TooLongMessage)
        <==> passwordLength.Some? && passwordLength.value > MaxLength
  {
  }
}
