/** The personal-information step: the contact details are complete when
    each of name, email and phone has something left after trimming. */
module ContactDetails {
  import opened Text

  /** `customerName.trim() && customerEmail.trim() && customerPhone.trim()`.
      The service location is not an argument: choosing in-salon or at-home
      never changes whether the step may be left. The details are complete
      iff each field holds a visible character. */
  function ContactValid(name: string, email: string, phone: string): (valid: bool)
    ensures valid <==> HasVisibleChar(name) && HasVisibleChar(email) && HasVisibleChar(phone)
  {
    TrimEmptyIff(name);
    TrimEmptyIff(email);
    TrimEmptyIff(phone);
    Trim(name) != "" && Trim(email) != "" && Trim(phone) != ""
  }

  /** The step's Continue button is disabled exactly when the details are
      incomplete; its Back button has no `disabled` condition at all. */
  predicate PersonalContinueDisabled(name: string, email: string, phone: string) {
    !ContactValid(name, email, phone)
  }

  /** A field made only of spaces, tabs or line breaks blocks the step. */
  lemma WhitespaceFieldInvalid(name: string, email: string, phone: string)
    requires !HasVisibleChar(name) || !HasVisibleChar(email) || !HasVisibleChar(phone)
    ensures !ContactValid(name, email, phone)
    ensures PersonalContinueDisabled(name, email, phone)
  {
  }

  /** Details accepted here also pass the (untrimmed) emptiness test that
      the confirm handler applies to the same three fields. */
  lemma ContactValidPassesConfirmGuard(name: string, email: string, phone: string)
    requires ContactValid(name, email, phone)
    ensures name != "" && email != "" && phone != ""
  {
    TrimNonEmptyImpliesNonEmpty(name);
    TrimNonEmptyImpliesNonEmpty(email);
    TrimNonEmptyImpliesNonEmpty(phone);
  }

  /** The converse fails: a blank name passes the confirm handler's test
      but not this step's. */
  lemma BlankNameOnlyPassesConfirmGuard()
    ensures " " != "" && !ContactValid(" ", "a", "1")
  {
    assert Trim(" ") == "" by {
      assert TrimStart(" ") == TrimStart(" "[1..]);
      assert " "[1..] == "";
    }
  }
}
