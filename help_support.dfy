/** The help screen: six questions whose answers open one at a time, and the
    contact form whose submission is only acknowledged (no ticket is stored). */
module HelpSupport {
  import opened Text
  import opened Domain

  /** The number of entries in the question list. */
  const FaqCount: nat := 6

  /** The open question after a click on question `index`: clicking the open
      one closes it, clicking any other opens that one instead. */
  function NextOpen(open: Option<nat>, index: nat): (r: Option<nat>)
    ensures r.None? <==> open == Some(index)
    ensures r.Some? ==> r.value == index
  {
    if open == Some(index) then None else Some(index)
  }

  /** Clicking a question twice in a row leaves it closed whatever was open
      before, unless it was that question, which is then open again. */
  lemma ClickTwice(open: Option<nat>, index: nat)
    ensures NextOpen(NextOpen(open, index), index) == (if open == Some(index) then Some(index) else None)
  {
  }

  /** A text counts as filled in when it is not only white space. */
  predicate Filled(s: string)
  {
    Trim(s) != []
  }

  class SupportScreen {
    var openFaq: Option<nat>
    var subject: string
    var message: string
    var isSending: bool

    /** The open question, if any, is one of the listed ones. */
    predicate Valid()
      reads this
    {
      openFaq.None? || openFaq.value < FaqCount
    }

    /** Question `i`'s answer is drawn. */
    predicate AnswerShown(i: nat)
      reads this
    {
      openFaq == Some(i)
    }

    constructor()
      ensures Valid()
      ensures openFaq.None? && subject == "" && message == "" && !isSending
    {
      openFaq := None;
      subject, message := "", "";
      isSending := false;
    }

    /** A click on the header of question `index` (one of the listed ones). */
    method ToggleFaq(index: nat)
      requires Valid() && index < FaqCount
      modifies this
      ensures Valid()
      ensures openFaq == NextOpen(old(openFaq), index)
      ensures AnswerShown(index) <==> !old(AnswerShown(index))
      ensures forall i :: i != index ==> !AnswerShown(i)
      ensures subject == old(subject) && message == old(message) && isSending == old(isSending)
    {
      openFaq := NextOpen(openFaq, index);
    }

    /** Typing in the subject box. */
    method EditSubject(s: string)
      modifies this
      ensures subject == s
      ensures openFaq == old(openFaq) && message == old(message) && isSending == old(isSending)
    {
      subject := s;
    }

    /** Typing in the message box. */
    method EditMessage(s: string)
      modifies this
      ensures message == s
      ensures openFaq == old(openFaq) && subject == old(subject) && isSending == old(isSending)
    {
      message := s;
    }

    /** The submit button is disabled while a submission is pending. */
    predicate SubmitEnabled()
      reads this
    {
      !isSending
    }

    /** `handleSubmitTicket`: a blank subject or message is refused with an
        error notice and nothing changes; otherwise sending starts and the
        one-second timer is armed (its firing is `TimerFires`). */
    method SubmitTicket() returns (accepted: bool)
      modifies this
      ensures accepted <==> !AllSpace(old(subject)) && !AllSpace(old(message))
      ensures accepted ==> isSending && !SubmitEnabled()
      ensures !accepted ==> isSending == old(isSending)
      ensures openFaq == old(openFaq) && subject == old(subject) && message == old(message)
    {
      if !Filled(subject) || !Filled(message) {
        return false;
      }
      isSending := true;
      accepted := true;
    }

    /** The timer firing: the confirmation notice, an empty form, sending over. */
    method TimerFires()
      modifies this
      ensures subject == "" && message == "" && !isSending
      ensures openFaq == old(openFaq)
    {
      subject, message := "", "";
      isSending := false;
    }
  }

  /** A full accepted round leaves the form empty and ready again, the open
      question untouched. */
  method SubmitRound(screen: SupportScreen) returns (accepted: bool)
    modifies screen
    ensures accepted <==> Filled(old(screen.subject)) && Filled(old(screen.message))
    ensures accepted ==> screen.subject == "" && screen.message == "" && screen.SubmitEnabled()
    ensures !accepted ==> screen.subject == old(screen.subject) && screen.message == old(screen.message)
    ensures screen.openFaq == old(screen.openFaq)
  {
    accepted := screen.SubmitTicket();
    if accepted {
      screen.TimerFires();
    }
  }
}
