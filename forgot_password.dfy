/** The password-reset request page (src/pages/Auth/ForgotPassword.tsx): one e-mail
    address, checked against the anchored pattern before the (simulated) request is sent.
    The two-second delay of the simulated request is not modelled: the request completes
    within `HandleSubmit`. */
module ForgotPasswordPage {
  import opened Wrappers
  import opened Text
  import opened Patterns
  import opened Forms

  /** The message `handleSubmit` shows for `email`, or `None` when the request is sent. */
  function SubmitError(email: string): Option<string> {
    if IsBlank(email) then Some(EmailRequired)
    else if !StrictEmail(email) then Some(EmailFormat)
    else None
  }

  /** A request is sent exactly for an address the anchored pattern accepts. Such an
      address has no white space and exactly one '@'; it is also accepted by the looser
      check of the other forms. */
  lemma SubmitErrorSpec(email: string)
    ensures SubmitError(email).None? <==> StrictEmail(email)
    ensures SubmitError(email).None? ==> NoSpace(email) && multiset(email)['@'] == 1 && LooseEmail(email)
    ensures IsBlank(email) ==> SubmitError(email) == Some(EmailRequired)
  {
    if StrictEmail(email) {
      StrictShape(email);
      StrictIsLoose(email);
      var a, d :| 0 < a < |email| && 0 < d < |email| && StrictMatchAt(email, a, d);
      assert !IsSpace(email[a]);
    }
  }

  /** The page's state. */
  class Page {
    var email: string
    var isSubmitting: bool
    var isSubmitted: bool
    var error: string

    constructor()
      ensures email == "" && !isSubmitting && !isSubmitted && error == ""
    {
      email := "";
      isSubmitting := false;
      isSubmitted := false;
      error := "";
    }

    /** Typing in the address field. */
    method SetEmail(value: string)
      modifies this
      ensures email == value
      ensures isSubmitting == old(isSubmitting) && isSubmitted == old(isSubmitted) && error == old(error)
    {
      email := value;
    }

    /** `handleSubmit`: clears the message, then either shows why the address is refused
        or sends the request, after which the confirmation is shown and nothing is under way. */
    method HandleSubmit()
      modifies this
      ensures email == old(email)
      ensures SubmitError(email).Some? ==>
                error == SubmitError(email).value && isSubmitted == old(isSubmitted) && isSubmitting == old(isSubmitting)
      ensures SubmitError(email).None? ==> error == "" && isSubmitted && !isSubmitting
    {
      error := "";
      if IsBlank(email) {
        error := EmailRequired;
        return;
      }
      if !StrictEmail(email) {
        error := EmailFormat;
        return;
      }
      isSubmitting := true;
      isSubmitted := true;
      isSubmitting := false;
    }

    /** The "try again" button of the confirmation: back to the form, the address kept. */
    method TryAgain()
      modifies this
      ensures !isSubmitted
      ensures email == old(email) && isSubmitting == old(isSubmitting) && error == old(error)
    {
      isSubmitted := false;
    }
  }
}
