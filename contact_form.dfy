/**
 * useContactForm.ts: the contact form's fields and its submit status. A submit posts the
 * fields and ends in success (fields cleared) or in an error message; typing clears the
 * status; resetForm returns to the initial state.
 */
module ContactForm {
  import opened Wrappers

  /** The three inputs of the form, all empty. */
  const EmptyForm: map<string, string> := map["name" := "", "email" := "", "message" := ""]

  const FailedToSend: string := "Failed to send message"
  const Unexpected: string := "An unexpected error occurred"

  /** What the thrown value of the try block was. */
  datatype Thrown = ErrorInstance(message: string) | NonError

  /**
   * How the awaited part of handleSubmit ended: a parsed response with its `ok` flag and the
   * body's `error` field (None when absent), or a throw from fetch or response.json().
   */
  datatype FetchOutcome =
    | Responded(ok: bool, errorField: Option<string>)
    | Threw(thrown: Thrown)

  /** JavaScript truthiness of an optional string: present and not empty. */
  predicate Truthy(s: Option<string>) {
    s.Some? && s.value != ""
  }

  /**
   * The error the catch block stores, or None when the try block completes: a non-ok
   * response becomes an Error whose message is the body's error or the fixed text.
   */
  function SubmitError(outcome: FetchOutcome): (error: Option<string>)
    ensures error.None? <==> outcome.Responded? && outcome.ok
    ensures outcome.Responded? && !outcome.ok ==>
      error.value == (if Truthy(outcome.errorField) then outcome.errorField.value else FailedToSend)
    ensures outcome == Threw(NonError) ==> error == Some(Unexpected)
    ensures outcome.Threw? && outcome.thrown.ErrorInstance? ==> error == Some(outcome.thrown.message)
  {
    var thrown :=
      match outcome
      case Responded(ok, errorField) =>
        if !ok then Some(ErrorInstance(if Truthy(errorField) then errorField.value else FailedToSend))
        else None
      case Threw(t) => Some(t);
    match thrown
    case None => None
    case Some(t) => Some(if t.ErrorInstance? then t.message else Unexpected)
  }

  /** A failed response always carries a non-empty message. */
  lemma FailedResponseHasMessage(outcome: FetchOutcome)
    requires outcome.Responded? && !outcome.ok
    ensures Truthy(SubmitError(outcome))
  {
  }

  class Form {
    var formData: map<string, string>
    var isLoading: bool
    var isSuccess: bool
    var error: Option<string>

    /** Success and an error are never reported together. */
    ghost predicate Valid()
      reads this
    {
      isSuccess ==> error.None?
    }

    predicate IsInitial()
      reads this
    {
      formData == EmptyForm && !isLoading && !isSuccess && error.None?
    }

    constructor ()
      ensures Valid() && IsInitial()
    {
      formData, isLoading, isSuccess, error := EmptyForm, false, false, None;
    }

    /**
     * handleChange for the input called `name`: store its value, keep every other field,
     * clear a truthy error and the success flag.
     */
    method HandleChange(name: string, value: string)
      requires Valid()
      modifies this`formData, this`error, this`isSuccess
      ensures Valid()
      ensures formData == old(formData)[name := value]
      ensures forall other :: other != name && other in old(formData) ==>
                other in formData && formData[other] == old(formData)[other]
      ensures error == (if Truthy(old(error)) then None else old(error))
      ensures !isSuccess && isLoading == old(isLoading)
    {
      formData := formData[name := value];
      if Truthy(error) {
        error := None;
      }
      if isSuccess {
        isSuccess := false;
      }
    }

    /** The synchronous start of handleSubmit; returns the fields posted as the body. */
    method BeginSubmit() returns (body: map<string, string>)
      requires Valid()
      modifies this`isLoading, this`error, this`isSuccess
      ensures Valid() && isLoading && error.None? && !isSuccess
      ensures body == formData && formData == old(formData)
    {
      isLoading := true;
      error := None;
      isSuccess := false;
      body := formData;
    }

    /**
     * The rest of handleSubmit once the request has settled: success clears the fields,
     * failure stores the error and keeps them; loading ends either way. It starts from the
     * state BeginSubmit left, with neither an error nor success (HandleChange keeps it so).
     */
    method CompleteSubmit(outcome: FetchOutcome)
      requires Valid() && error.None? && !isSuccess
      modifies this`isLoading, this`error, this`isSuccess, this`formData
      ensures Valid() && !isLoading
      ensures error == SubmitError(outcome)
      ensures isSuccess <==> error.None?
      ensures formData == (if isSuccess then EmptyForm else old(formData))
    {
      var failure := SubmitError(outcome);
      if failure.None? {
        isSuccess := true;
        formData := EmptyForm;
      } else {
        error := failure;
      }
      isLoading := false;
    }

    /** resetForm: back to the initial state. */
    method ResetForm()
      modifies this
      ensures Valid() && IsInitial()
    {
      formData := EmptyForm;
      error := None;
      isSuccess := false;
      isLoading := false;
    }
  }
}
