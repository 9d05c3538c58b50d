/** The idea card (frontend/src/components/IdeaCard.js): its own `likes`,
    `isLiked` and `loading` state around the like request, and the
    description preview. The count changes only once the server has
    answered; nothing is updated ahead of the answer. */
module IdeaCardComponent {
  import opened Wrappers
  import opened JsRuntime
  import opened Http
  import opened ApiModels
  import opened ApiSerializers

  /** The answer to a like request: a 2xx response with its body, or a
      rejected request (a network error or an error status). */
  datatype LikeOutcome = LikeAnswered(data: Json) | LikeFailed

  /** `response.data.status === 'liked'`. */
  predicate SaysLiked(data: Json) {
    Member(Some(data), "status") == Some(JString("liked"))
  }

  /** The `(likes, isLiked)` pair after the answer arrives. An answer with
      status 'liked' adds one and marks the idea liked; any other answer
      takes one away and marks it not liked. A `null` body makes reading
      `.status` throw, which lands in the same `catch` as a failed request:
      the pair is kept. */
  function AfterLikeAnswer(likes: int, isLiked: bool, outcome: LikeOutcome): (r: (int, bool))
    ensures outcome.LikeFailed? || outcome.data == JNull ==> r == (likes, isLiked)
    ensures outcome.LikeAnswered? && SaysLiked(outcome.data) ==> r == (likes + 1, true)
    ensures outcome.LikeAnswered? && outcome.data != JNull && !SaysLiked(outcome.data) ==> r == (likes - 1, false)
  {
    match outcome
    case LikeFailed => (likes, isLiked)
    case LikeAnswered(data) =>
      if data == JNull then (likes, isLiked)
      else if SaysLiked(data) then (likes + 1, true)
      else (likes - 1, false)
  }

  /** An answer moves the count by exactly one, up when the idea becomes
      liked and down when it does not; a kept pair is a failure. */
  lemma AnswerMovesByOne(likes: int, isLiked: bool, outcome: LikeOutcome)
    ensures var (l, liked) := AfterLikeAnswer(likes, isLiked, outcome);
      (l, liked) == (likes, isLiked)
      || (l == likes + 1 && liked)
      || (l == likes - 1 && !liked)
  {
  }

  /** The like request for an idea: `POST /api/ideas/{id}/like/` without a body. */
  function LikeRequest(id: IdeaId): Request {
    Post("/api/ideas/" + IntText(id) + "/like/", None)
  }

  /** `truncateText(text, maxLength)`: short texts unchanged, longer ones cut
      to `maxLength` characters followed by "...". */
  function TruncateText(text: string, maxLength: nat): (r: string)
    ensures |text| <= maxLength ==> r == text
    ensures |text| > maxLength ==> |r| == maxLength + 3 && r[..maxLength] == text[..maxLength] && r[maxLength..] == "..."
  {
    if |text| <= maxLength then text else text[..maxLength] + "..."
  }

  /** Cutting a cut text again changes nothing, and no result is longer than
      `maxLength + 3`. */
  lemma TruncateIdempotent(text: string, maxLength: nat)
    ensures TruncateText(TruncateText(text, maxLength), maxLength) == TruncateText(text, maxLength)
    ensures |TruncateText(text, maxLength)| <= maxLength + 3
  {
    var r := TruncateText(text, maxLength);
    if |text| > maxLength {
      assert r[..maxLength] + "..." == r;
    }
  }

  const PreviewLength: nat := 150

  /** The description as the card shows it. */
  function Preview(idea: IdeaData): (r: string)
    ensures |r| <= PreviewLength + 3
    ensures |idea.description| <= PreviewLength ==> r == idea.description
  {
    TruncateText(idea.description, PreviewLength)
  }

  /** One card on the list pages. */
  class IdeaCard {
    const ideaId: IdeaId
    var likes: int
    var isLiked: bool
    var loading: bool

    /** The state starts from the idea as the server sent it. */
    constructor (idea: IdeaData)
      ensures ideaId == idea.id && likes == idea.likesCount && isLiked == idea.isLiked && !loading
    {
      ideaId := idea.id;
      likes := idea.likesCount;
      isLiked := idea.isLiked;
      loading := false;
    }

    /** A click on the like button. While `loading` the button is disabled and
        a click does nothing; a signed-out user only gets an alert. Otherwise
        the request goes out and `loading` is set; the pair is untouched. */
    method Click(authenticated: bool) returns (request: Option<Request>)
      modifies this
      ensures !authenticated || old(loading) ==> request == None && likes == old(likes) && isLiked == old(isLiked) && loading == old(loading)
      ensures authenticated && !old(loading) ==> request == Some(LikeRequest(ideaId)) && loading
      ensures likes == old(likes) && isLiked == old(isLiked)
    {
      if loading || !authenticated {
        return None;
      }
      loading := true;
      request := Some(LikeRequest(ideaId));
    }

    /** The answer to the request in flight; `loading` ends on every path. */
    method Complete(outcome: LikeOutcome)
      requires loading
      modifies this
      ensures (likes, isLiked) == AfterLikeAnswer(old(likes), old(isLiked), outcome)
      ensures !loading
    {
      match outcome {
        case LikeAnswered(data) =>
          if data != JNull {
            if SaysLiked(data) {
              likes := likes + 1;
              isLiked := true;
            } else {
              likes := likes - 1;
              isLiked := false;
            }
          }
        case LikeFailed =>
      }
      loading := false;
    }
  }
}
