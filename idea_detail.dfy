/** The idea page (frontend/src/pages/IdeaDetail.js): the fetch of one idea,
    the page's own like state (the same rule as the card), the comment list
    and the comment input. */
module IdeaDetailPage {
  import opened Wrappers
  import opened JsRuntime
  import opened Http
  import opened ApiSerializers
  import opened IdeaCardComponent

  const InvalidIdMessage := "Invalid idea ID. Please return to the home page and select a valid idea."
  const FetchFailedMessage := "Failed to load idea"
  const NotFoundMessage := "Idea not found"

  /** The route parameter names an idea: it is present, not empty and not
      the text "undefined". */
  predicate ValidId(id: Option<string>) {
    id.Some? && id.value != "" && id.value != "undefined"
  }

  function IdeaPath(id: string): string {
    "/api/ideas/" + id + "/"
  }

  /** The answer to the idea request: the served idea, or a failure. */
  datatype FetchOutcome = Fetched(idea: IdeaData) | FetchFailed

  /** The answer to the comment request: the stored comment, or a failure. */
  datatype CommentOutcome = Posted(comment: CommentData) | PostFailed

  /** The comment request: the input text as typed, untrimmed. */
  function CommentRequest(id: string, content: string): Request {
    Post("/api/ideas/" + id + "/add_comment/", Some(JObject([("content", JString(content))])))
  }

  /** The comment button is enabled, and the handler goes on, only for input
      that is not blank and while no comment is being posted. */
  predicate MaySubmit(newComment: string, commentLoading: bool) {
    !commentLoading && Trim(newComment) != ""
  }

  /** Blank input never leads to a request. */
  lemma BlankNeverSubmitted(newComment: string, commentLoading: bool)
    ensures MaySubmit(newComment, commentLoading) ==> !IsBlank(newComment)
    ensures IsBlank(newComment) ==> !MaySubmit(newComment, commentLoading)
  {
    TrimEmptyIffBlank(newComment);
  }

  /** What the page shows, in the order the component tests for it. */
  datatype Screen =
    | InvalidIdError
    | Spinner
    | ErrorBox(message: string)
    | DetailView(idea: IdeaData, likes: int, isLiked: bool, comments: seq<CommentData>, commentForm: bool)

  class IdeaDetail {
    const id: Option<string>
    var idea: Option<IdeaData>
    var comments: seq<CommentData>
    var newComment: string
    var loading: bool
    var commentLoading: bool
    var likes: int
    var isLiked: bool
    var likeLoading: bool
    var error: string

    /** The initial state: spinner on, nothing loaded. */
    constructor (id: Option<string>)
      ensures this.id == id && idea == None && comments == [] && newComment == ""
      ensures loading && !commentLoading && likes == 0 && !isLiked && !likeLoading && error == ""
    {
      this.id := id;
      idea := None;
      comments := [];
      newComment := "";
      loading := true;
      commentLoading := false;
      likes := 0;
      isLiked := false;
      likeLoading := false;
      error := "";
    }

    /** What is on screen: the invalid-id message before anything else, then
        the spinner, then the error (or "Idea not found"), then the idea. */
    function View(authenticated: bool): (s: Screen)
      reads this
      ensures !ValidId(id) ==> s == InvalidIdError
      ensures ValidId(id) && loading ==> s == Spinner
      ensures s.DetailView? <==> ValidId(id) && !loading && error == "" && idea.Some?
      ensures s.DetailView? ==> s.likes == likes && s.isLiked == isLiked && s.comments == comments && s.commentForm == authenticated
      ensures ValidId(id) && !loading && error != "" ==> s == ErrorBox(error)
      ensures ValidId(id) && !loading && error == "" && idea.None? ==> s == ErrorBox(NotFoundMessage)
    {
      if !ValidId(id) then InvalidIdError
      else if loading then Spinner
      else if error != "" || idea.None? then ErrorBox(if error != "" then error else NotFoundMessage)
      else DetailView(idea.value, likes, isLiked, comments, authenticated)
    }

    /** The effect on mount: the idea is fetched only for a valid id. */
    method Mount() returns (request: Option<Request>)
      modifies this`loading
      ensures request.Some? <==> ValidId(id)
      ensures ValidId(id) ==> request == Some(Get(IdeaPath(id.value))) && loading
      ensures idea == old(idea) && comments == old(comments) && likes == old(likes) && isLiked == old(isLiked)
      ensures error == old(error) && newComment == old(newComment)
      ensures !ValidId(id) ==> loading == old(loading)
    {
      request := None;
      if id.Some? && id.value != "" && id.value != "undefined" {
        loading := true;
        request := Some(Get(IdeaPath(id.value)));
      }
    }

    /** `fetchIdea` after the answer: on success the idea, its comments, its
        count and `is_liked` are taken over, all from the one response body
        (its `comments` member is an array, so `|| []` keeps it); on failure
        only the error is set. `loading` ends either way. */
    method CompleteFetch(outcome: FetchOutcome)
      requires ValidId(id)
      modifies this`idea, this`comments, this`likes, this`isLiked, this`error, this`loading
      ensures !loading
      ensures outcome.Fetched? ==> (idea == Some(outcome.idea) && comments == outcome.idea.comments
        && likes == outcome.idea.likesCount && isLiked == outcome.idea.isLiked && error == old(error))
      ensures outcome.FetchFailed? ==> (error == FetchFailedMessage && idea == old(idea) && comments == old(comments)
        && likes == old(likes) && isLiked == old(isLiked))
      ensures newComment == old(newComment) && commentLoading == old(commentLoading) && likeLoading == old(likeLoading)
    {
      match outcome {
        case Fetched(data) =>
          idea := Some(data);
          comments := data.comments;
          likes := data.likesCount;
          isLiked := data.isLiked;
        case FetchFailed =>
          error := FetchFailedMessage;
      }
      loading := false;
    }

    /** A click on the page's like button: the card's rule, with the request
        on the id from the route. */
    method ClickLike(authenticated: bool) returns (request: Option<Request>)
      requires ValidId(id)
      modifies this`likeLoading
      ensures !authenticated || old(likeLoading) ==> request == None && likeLoading == old(likeLoading)
      ensures authenticated && !old(likeLoading) ==> request == Some(Post("/api/ideas/" + id.value + "/like/", None)) && likeLoading
      ensures likes == old(likes) && isLiked == old(isLiked) && comments == old(comments) && newComment == old(newComment)
    {
      if likeLoading || !authenticated {
        return None;
      }
      likeLoading := true;
      request := Some(Post("/api/ideas/" + id.value + "/like/", None));
    }

    method CompleteLike(outcome: LikeOutcome)
      requires likeLoading
      modifies this`likes, this`isLiked, this`likeLoading
      ensures (likes, isLiked) == AfterLikeAnswer(old(likes), old(isLiked), outcome)
      ensures !likeLoading
      ensures comments == old(comments) && newComment == old(newComment) && idea == old(idea)
    {
      match outcome {
        case LikeAnswered(data) =>
          if data != JNull {
            if SaysLiked(data) {
              likes := likes + 1;
              isLiked := true;
            } else {
              likes := likes - 1;
              isLiked := false;
            }
          }
        case LikeFailed =>
      }
      likeLoading := false;
    }

    /** Typing into the comment box. */
    method EditComment(text: string)
      modifies this`newComment
      ensures newComment == text
      ensures comments == old(comments) && commentLoading == old(commentLoading)
    {
      newComment := text;
    }

    /** Submitting the comment form, which is only shown to a signed-in user:
        blank input, or a comment already on its way, sends nothing. */
    method SubmitComment(authenticated: bool) returns (request: Option<Request>)
      requires ValidId(id)
      modifies this`commentLoading
      ensures request.Some? <==> authenticated && MaySubmit(old(newComment), old(commentLoading))
      ensures request.Some? ==> request.value == CommentRequest(id.value, newComment) && commentLoading
      ensures request.None? ==> commentLoading == old(commentLoading)
      ensures comments == old(comments) && newComment == old(newComment)
    {
      if !authenticated || commentLoading || Trim(newComment) == "" {
        return None;
      }
      commentLoading := true;
      request := Some(CommentRequest(id.value, newComment));
    }

    /** The answer to the comment request: a stored comment goes to the top
        of the list and the input is cleared; a failure keeps both.
        `commentLoading` ends either way. */
    method CompleteComment(outcome: CommentOutcome)
      requires commentLoading
      modifies this`comments, this`newComment, this`commentLoading
      ensures outcome.Posted? ==> comments == [outcome.comment] + old(comments) && newComment == ""
      ensures outcome.PostFailed? ==> comments == old(comments) && newComment == old(newComment)
      ensures !commentLoading
      ensures likes == old(likes) && isLiked == old(isLiked) && idea == old(idea)
    {
      if outcome.Posted? {
        comments := [outcome.comment] + comments;
        newComment := "";
      }
      commentLoading := false;
    }
  }
}
