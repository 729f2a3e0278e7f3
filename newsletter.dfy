/** `frontend/src/components/common/Newsletter.jsx`: the sign-up form's state machine. The
    submit handler awaits the request, so it is two steps: `Submit` (up to the request) and
    `Settle` (with the request's outcome as a parameter). */
module Newsletter {
  import opened Wrappers

  datatype Status = Idle | Loading | Success | Error

  /** The outcome of `POST /newsletter/subscribe`; a failure may carry the server's `detail`. */
  datatype Outcome = Subscribed | Rejected(detail: Option<string>)

  const ThanksMessage: string := "Thanks for subscribing!"
  const FailedMessage: string := "Subscription failed"

  /** The message after a failure: the server's detail when truthy, else the fixed text. */
  function FailureMessage(detail: Option<string>): (r: string)
    ensures r != ""
    ensures detail.Some? && detail.value != "" ==> r == detail.value
  {
    if detail.Some? && detail.value != "" then detail.value else FailedMessage
  }

  class SignupForm {
    var email: string
    var status: Status
    var message: string

    constructor ()
      ensures email == "" && status == Idle && message == ""
    {
      email := "";
      status := Idle;
      message := "";
    }

    /** The submit button is disabled exactly while a request is in flight. */
    predicate Disabled()
      reads this
    {
      status == Loading
    }

    /** Typing into the input. */
    method SetEmail(value: string)
      modifies this
      ensures email == value && status == old(status) && message == old(message)
    {
      email := value;
    }

    /** `handleSubmit` up to the request: an empty email changes nothing and sends nothing;
        otherwise the status becomes loading and the request is sent. */
    method Submit() returns (sent: bool)
      modifies this
      ensures sent <==> old(email) != ""
      ensures !sent ==> email == old(email) && status == old(status) && message == old(message)
      ensures sent ==> status == Loading && email == old(email) && message == old(message)
    {
      if email == "" {
        return false;
      }
      status := Loading;
      sent := true;
    }

    /** The rest of `handleSubmit`: success thanks the user and clears the email; failure shows
        the server's detail or the fixed text and keeps the email for another try. */
    method Settle(outcome: Outcome)
      modifies this
      ensures outcome.Subscribed? ==> status == Success && message == ThanksMessage && email == ""
      ensures outcome.Rejected? ==> status == Error && message == FailureMessage(outcome.detail) && email == old(email)
      ensures !Disabled()
    {
      match outcome {
        case Subscribed =>
          status := Success;
          message := ThanksMessage;
          email := "";
        case Rejected(detail) =>
          status := Error;
          message := FailureMessage(detail);
      }
    }
  }
}
