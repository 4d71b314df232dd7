/**
 * The email dialog behind the subscribe buttons: a minimal email check, the
 * call to the subscriber, and the clean-up after it.
 */
module SubscriptionEmailDialog {
  import opened Options

  /** `!email || !email.includes("@")` rejects. */
  predicate AcceptsEmail(email: string) {
    email != "" && '@' in email
  }

  /** The emptiness test adds nothing: containing an `@` is the whole check,
      so "@" alone passes. */
  lemma AtIsTheWholeCheck(email: string)
    ensures AcceptsEmail(email) <==> '@' in email
    ensures AcceptsEmail("@") && !AcceptsEmail("jan.gov.pl")
  {
  }

  /** The dialog's state, with the parent's `open` flag it drives through
      `onOpenChange`. */
  class Dialog {
    var email: string
    var isLoading: bool
    var open: bool

    constructor(isOpen: bool)
      ensures email == "" && !isLoading && open == isOpen
    {
      email := "";
      isLoading := false;
      open := isOpen;
    }

    method SetEmail(text: string)
      modifies this
      ensures email == text && isLoading == old(isLoading) && open == old(open)
    {
      email := text;
    }

    /** `handleSubmit`. `throws` says whether `onSubscribe` throws; the result
        is the email `onSubscribe` was called with, if it was called. A
        rejected email calls nothing and changes nothing; otherwise the
        subscriber is called once, and only when it returns normally is the
        email cleared and the dialog closed. Loading ends in both cases. */
    method HandleSubmit(throws: bool) returns (called: Option<string>)
      modifies this
      ensures !AcceptsEmail(old(email)) ==>
                called == None && email == old(email) && open == old(open) && isLoading == old(isLoading)
      ensures AcceptsEmail(old(email)) ==> called == Some(old(email)) && !isLoading
      ensures AcceptsEmail(old(email)) && !throws ==> email == "" && !open
      ensures AcceptsEmail(old(email)) && throws ==> email == old(email) && open == old(open)
    {
      if email == "" || '@' !in email {
        return None;
      }
      isLoading := true;
      called := Some(email);
      if !throws {
        email := "";
        open := false;
      }
      isLoading := false;
    }

    /** `handleOpenChange`: the email is cleared before the new state is passed on. */
    method HandleOpenChange(newOpen: bool)
      modifies this
      ensures email == "" && open == newOpen && isLoading == old(isLoading)
    {
      email := "";
      open := newOpen;
    }
  }
}
