/** The idea submission page (frontend/src/pages/SubmitIdea.js): the checks
    run before the idea is sent, the reset after success, and which message
    a failed submission shows. */
module SubmitIdeaPage {
  import opened Wrappers
  import opened JsRuntime
  import opened Http

  const FillAll := "Please fill in all fields"
  const TitleTooShort := "Title must be at least 10 characters long"
  const DescriptionTooShort := "Description must be at least 50 characters long"
  const Submitted := "Your idea has been submitted successfully!"
  const SubmitFailed := "Failed to submit idea. Please try again."
  const TitleMinLength: nat := 10
  const DescriptionMinLength: nat := 50
  const IdeasPath := "/api/ideas/"

  /** One of the two fields is only white space. */
  predicate BlankField(title: string, description: string) {
    Trim(title) == "" || Trim(description) == ""
  }

  /** The first failing check: blank fields (after trimming), then the title
      length, then the description length, both measured untrimmed. */
  function IdeaValidation(title: string, description: string): (r: Option<string>)
    ensures r == Some(FillAll) <==> BlankField(title, description)
    ensures r == Some(TitleTooShort) <==> !BlankField(title, description) && |title| < TitleMinLength
    ensures r == Some(DescriptionTooShort) <==> (!BlankField(title, description) && |title| >= TitleMinLength
      && |description| < DescriptionMinLength)
    ensures r.None? <==> (!BlankField(title, description) && |title| >= TitleMinLength
      && |description| >= DescriptionMinLength)
  {
    if BlankField(title, description) then Some(FillAll)
    else if |title| < TitleMinLength then Some(TitleTooShort)
    else if |description| < DescriptionMinLength then Some(DescriptionTooShort)
    else None
  }

  /** The blank check is exactly "one of the fields is all white space". */
  lemma BlankFieldIffWhiteSpace(title: string, description: string)
    ensures BlankField(title, description) <==> IsBlank(title) || IsBlank(description)
  {
    TrimEmptyIffBlank(title);
    TrimEmptyIffBlank(description);
  }

  /** The message for a failed submission: the first title error, else the
      first description error, else the generic text. */
  function SubmitFailureMessage(data: Option<Json>): (m: Json)
    ensures Truthy(m)
    ensures Index0(Member(data, "title")).Some? && Truthy(Index0(Member(data, "title")).value)
      ==> m == Index0(Member(data, "title")).value
    ensures !(Index0(Member(data, "title")).Some? && Truthy(Index0(Member(data, "title")).value))
      && Index0(Member(data, "description")).Some? && Truthy(Index0(Member(data, "description")).value)
      ==> m == Index0(Member(data, "description")).value
    ensures m != JString(SubmitFailed) ==> (m == Index0(Member(data, "title")).GetOr(JNull)
      || m == Index0(Member(data, "description")).GetOr(JNull))
  {
    Or(Index0(Member(data, "title")), Or(Index0(Member(data, "description")), JString(SubmitFailed)))
  }

  /** The request body: the form as it stands. */
  function IdeaBody(title: string, description: string): Json {
    JObject([("title", JString(title)), ("description", JString(description))])
  }

  /** The route of the idea page the page moves to after a success,
      `/idea/${response.data.id}`. */
  function DetailRoute(data: Json): (route: string)
    ensures route == "/idea/" + StringOf(Member(Some(data), "id"))
    ensures Member(Some(data), "id").None? ==> route == "/idea/undefined"
  {
    "/idea/" + StringOf(Member(Some(data), "id"))
  }

  /** The answer to the submission: 2xx with the response body, or a
      failure with the response body, if there was a response. */
  datatype SubmitOutcome = IdeaCreated(body: Json) | SubmissionRejected(data: Option<Json>)

  class SubmitIdeaForm {
    var title: string
    var description: string
    var error: Json
    var success: string
    var loading: bool
    var redirect: Option<string>

    constructor ()
      ensures title == "" && description == "" && error == JString("") && success == "" && !loading
      ensures redirect == None
    {
      redirect := None;
      title := "";
      description := "";
      error := JString("");
      success := "";
      loading := false;
    }

    /** `handleSubmit`. A failed check shows its message and sends nothing.
        Otherwise the form is posted and `outcome` is the answer: success
        shows the success message, empties both fields and sets the route
        the page moves to two seconds later; failure shows the chosen message
        and keeps the fields. `loading` is false afterwards on every path. */
    method Submit(outcome: SubmitOutcome) returns (request: Option<Request>)
      modifies this
      ensures !loading
      ensures IdeaValidation(old(title), old(description)).Some? ==> (request == None
        && error == JString(IdeaValidation(old(title), old(description)).value)
        && success == "" && title == old(title) && description == old(description))
      ensures IdeaValidation(old(title), old(description)).None? ==> request == Some(Post(IdeasPath, Some(IdeaBody(old(title), old(description)))))
      ensures IdeaValidation(old(title), old(description)).None? && outcome.IdeaCreated? ==> (success == Submitted
        && error == JString("") && title == "" && description == "" && redirect == Some(DetailRoute(outcome.body)))
      ensures !(IdeaValidation(old(title), old(description)).None? && outcome.IdeaCreated?) ==> redirect == old(redirect)
      ensures IdeaValidation(old(title), old(description)).None? && outcome.SubmissionRejected? ==> (success == ""
        && error == SubmitFailureMessage(outcome.data) && title == old(title) && description == old(description))
    {
      var check := IdeaValidation(title, description);
      error := JString("");
      success := "";
      loading := true;
      if check.Some? {
        error := JString(check.value);
        loading := false;
        return None;
      }
      request := Some(Post(IdeasPath, Some(IdeaBody(title, description))));
      match outcome {
        case IdeaCreated(body) =>
          success := Submitted;
          title := "";
          description := "";
          redirect := Some(DetailRoute(body));
        case SubmissionRejected(data) =>
          error := SubmitFailureMessage(data);
      }
      loading := false;
    }
  }
}
