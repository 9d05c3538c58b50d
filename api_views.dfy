/** The server's views (backend/api/views.py): the owner-or-read-only
    permission, the like toggle, idea and comment creation, the top-ideas
    list, and the login and registration endpoints. Token issuing,
    `authenticate` and user creation are library calls and come in as
    parameters. */
module ApiViews {
  import opened Wrappers
  import opened ApiModels
  import opened ApiSerializers
  import Ordering
  import PyRuntime

  datatype HttpMethod = GET | HEAD | OPTIONS | POST | PUT | PATCH | DELETE

  /** `permissions.SAFE_METHODS`. */
  predicate IsSafe(m: HttpMethod) {
    m == GET || m == HEAD || m == OPTIONS
  }

  /** `IsOwnerOrReadOnly.has_object_permission` on an idea pitched by
      `pitcher`: reading is always allowed, anything else only to the pitcher
      (an anonymous user is never the pitcher). */
  function HasObjectPermission(m: HttpMethod, requester: Requester, pitcher: UserId): (allowed: bool)
    ensures IsSafe(m) ==> allowed
    ensures !IsSafe(m) ==> (allowed <==> requester.SignedIn? && requester.id == pitcher)
  {
    IsSafe(m) || requester == SignedIn(pitcher)
  }

  /** The viewset's `[IsAuthenticatedOrReadOnly, IsOwnerOrReadOnly]`: only
      the pitcher may change or delete an idea, and a safe request is always
      let through. */
  function MayAccessIdea(m: HttpMethod, requester: Requester, pitcher: UserId): (allowed: bool)
    ensures allowed && !IsSafe(m) ==> requester == SignedIn(pitcher)
    ensures IsSafe(m) ==> allowed
    ensures requester == SignedIn(pitcher) ==> allowed
  {
    (IsSafe(m) || requester.SignedIn?) && HasObjectPermission(m, requester, pitcher)
  }

  /** The answers of the like action. */
  datatype LikeReply =
    | Liked            // {'status': 'liked'}, 201
    | Unliked          // {'status': 'unliked'}, 200
    | NotAuthenticated // refused by `IsAuthenticated` before the idea is looked up
    | NotFound         // `get_object` finds no such idea

  /** The HTTP status of each answer; a refused anonymous request is given
      401 by the bearer-token authentication. */
  function StatusCode(reply: LikeReply): (code: int)
    ensures 200 <= code < 300 <==> reply.Liked? || reply.Unliked?
    ensures code == 201 <==> reply.Liked?
    ensures reply.NotAuthenticated? <==> code == 401
  {
    match reply
    case Liked => 201
    case Unliked => 200
    case NotAuthenticated => 401
    case NotFound => 404
  }

  /** The like table after `user` toggles `idea`: the pair is added when
      absent and removed when present. */
  function ToggledLikes(likes: LikeTable, user: UserId, idea: IdeaId): (r: LikeTable)
    ensures ((user, idea) in r) != ((user, idea) in likes)
    ensures forall p :: p != (user, idea) ==> (p in r <==> p in likes)
  {
    if (user, idea) in likes then likes - {(user, idea)} else likes + {(user, idea)}
  }

  /** What the like action answers, given the tables before it runs. */
  function LikeReplyFor(ideas: map<IdeaId, Idea>, likes: LikeTable, request: Requester, pk: IdeaId): (r: LikeReply)
    ensures r == NotAuthenticated <==> request.Anonymous?
    ensures r == NotFound <==> request.SignedIn? && pk !in ideas
    ensures r == Unliked <==> request.SignedIn? && pk in ideas && (request.id, pk) in likes
    ensures r == Liked <==> request.SignedIn? && pk in ideas && (request.id, pk) !in likes
  {
    if request.Anonymous? then NotAuthenticated
    else if pk !in ideas then NotFound
    else if (request.id, pk) in likes then Unliked
    else Liked
  }

  /** Toggling twice restores the like table. */
  lemma ToggleTwice(likes: LikeTable, user: UserId, idea: IdeaId)
    ensures ToggledLikes(ToggledLikes(likes, user, idea), user, idea) == likes
  {
  }

  /** A toggle moves the idea's like count by one, in the direction of the
      answer, and no other idea's count. */
  lemma ToggleRecount(likes: LikeTable, user: UserId, idea: IdeaId, other: IdeaId)
    ensures LikeCount(ToggledLikes(likes, user, idea), idea)
         == LikeCount(likes, idea) + (if (user, idea) in likes then -1 else 1)
    ensures other != idea ==> LikeCount(ToggledLikes(likes, user, idea), other) == LikeCount(likes, other)
  {
    if (user, idea) in likes {
      DeleteRecount(likes, user, idea, other);
    } else {
      SaveRecount(likes, user, idea, other);
    }
  }

  /** `IdeaViewSet.like`: `Like.objects.get_or_create(user, idea)`; a like
      that already existed is deleted. Both paths go through the overridden
      `Like.save`/`Like.delete`, so the idea's `likes_count` follows. */
  method Like(db: Database, request: Requester, pk: IdeaId, now: int) returns (reply: LikeReply)
    requires db.Valid()
    modifies db
    ensures db.Valid()
    ensures reply == LikeReplyFor(old(db.ideas), old(db.likes), request, pk)
    ensures reply.Liked? || reply.Unliked? ==>
      && db.likes == ToggledLikes(old(db.likes), request.id, pk)
      && pk in db.ideas
      && db.ideas[pk].likesCount == old(db.ideas)[pk].likesCount + (if reply.Liked? then 1 else -1)
      && db.ideas == old(db.ideas)[pk := old(db.ideas)[pk].(likesCount := LikeCount(db.likes, pk), updatedAt := now)]
    ensures reply.NotAuthenticated? || reply.NotFound? ==> db.likes == old(db.likes) && db.ideas == old(db.ideas)
  {
    if request.Anonymous? {
      return NotAuthenticated;
    }
    if pk !in db.ideas {
      return NotFound;
    }
    var created := db.SaveLike(request.id, pk, now);
    if !created {
      db.DeleteLike(request.id, pk, now);
      return Unliked;
    }
    return Liked;
  }

  /** The answers of a create endpoint. */
  datatype CreateReply<T> =
    | Created(row: T)               // 201
    | Refused(status: int)          // 401 not signed in, 400 invalid, 500 missing idea

  /** `IdeaViewSet.create` and its `perform_create`: a signed-in user sends
      title and description, each is cleaned (stripped, and refused when
      blank), the validators of the model fields run on the cleaned values,
      and the new idea is saved with them, `pitcher = request.user` and the
      default count. */
  function CreateIdea(request: Requester, data: map<string, string>, id: IdeaId, now: int): (r: CreateReply<Idea>)
    ensures r.Created? <==> (request.SignedIn? && IdeaCreateFields(data).Some?
      && ValidTitle(IdeaCreateFields(data).value.0) && ValidDescription(IdeaCreateFields(data).value.1))
    ensures r.Created? ==> (r.row.pitcher == request.id && r.row.likesCount == DefaultLikesCount
      && r.row.title == PyRuntime.Strip(data["title"]) && r.row.description == PyRuntime.Strip(data["description"])
      && r.row.id == id)
    ensures request.Anonymous? ==> r == Refused(401)
  {
    if request.Anonymous? then Refused(401)
    else match IdeaCreateFields(data)
      case None => Refused(400)
      case Some((title, description)) =>
        if !ValidTitle(title) || !ValidDescription(description) then Refused(400)
        else Created(Idea(id, title, description, request.id, now, now, DefaultLikesCount))
  }

  /** `CommentViewSet.create` and its `perform_create`: the content is
      cleaned and validated first; then the idea named in the URL is fetched
      (a missing one raises, a server error) and the comment is saved with
      the cleaned content, `commenter = request.user` and that idea,
      whatever the body says. */
  function CreateComment(request: Requester, ideaPk: IdeaId, ideas: map<IdeaId, Idea>,
                         data: map<string, string>, id: CommentId, now: int): (r: CreateReply<Comment>)
    ensures r.Created? <==> (request.SignedIn? && CommentCreateContent(data).Some?
      && ValidContent(CommentCreateContent(data).value) && ideaPk in ideas)
    ensures r.Created? ==> r.row == Comment(id, ideaPk, request.id, PyRuntime.Strip(data["content"]), now)
    ensures request.SignedIn? && CommentCreateContent(data).Some? && ValidContent(CommentCreateContent(data).value)
      && ideaPk !in ideas
      ==> r == Refused(500)
  {
    if request.Anonymous? then Refused(401)
    else match CommentCreateContent(data)
      case None => Refused(400)
      case Some(content) =>
        if !ValidContent(content) then Refused(400)
        else if ideaPk !in ideas then Refused(500)
        else Created(Comment(id, ideaPk, request.id, content, now))
  }

  const TopIdeasLimit: nat := 5

  /** `TopIdeasView.get`: `Idea.objects.all()[:5]` under the model ordering:
      five ideas (all of them when there are fewer), served in the model
      ordering, each listed before every idea it leaves out. */
  function TopIdeas(ideas: seq<Idea>): (r: seq<Idea>)
    ensures |r| == if |ideas| < TopIdeasLimit then |ideas| else TopIdeasLimit
    ensures multiset(r) <= multiset(ideas)
    ensures forall i, j :: 0 <= i < j < |r| ==>
      r[i].likesCount > r[j].likesCount || (r[i].likesCount == r[j].likesCount && r[i].createdAt >= r[j].createdAt)
    ensures forall a, b :: a in r && b in multiset(ideas) - multiset(r) ==>
      a.likesCount > b.likesCount || (a.likesCount == b.likesCount && a.createdAt >= b.createdAt)
  {
    var ordered := IdeasInModelOrder(ideas);
    assert |ordered| == |ideas| by {
      assert |multiset(ordered)| == |multiset(ideas)|;
    }
    var n := if |ordered| < TopIdeasLimit then |ordered| else TopIdeasLimit;
    var r := ordered[..n];
    assert forall k :: 0 <= k < n ==> r[k] == ordered[k];
    Ordering.PrefixListsBeforeRest(IdeaKey, ordered, n);
    forall a, b | a in r && b in multiset(ideas) - multiset(r)
      ensures a.likesCount > b.likesCount || (a.likesCount == b.likesCount && a.createdAt >= b.createdAt)
    {
      assert Ordering.ListsBefore(IdeaKey, a, b);
    }
    r
  }

  /** The bodies the authentication endpoints answer with. */
  datatype AuthBody =
    | Tokens(user: UserData, refresh: string, access: string)
    | Message(error: string)
    | FieldErrors(errors: ErrorMap)

  datatype AuthReply = AuthReply(status: int, body: AuthBody)

  const ProvideBoth := "Please provide both username and password"
  const InvalidCredentials := "Invalid credentials"

  /** `not value` for a request field: absent or empty. */
  predicate Missing(value: Option<string>) {
    value.None? || value.value == ""
  }

  /** `UserLoginView.post`. `authenticate` is Django's credential check and
      `issue` gives the (refresh, access) pair of `RefreshToken.for_user`. */
  function LoginView(username: Option<string>, password: Option<string>,
                     authenticate: (string, string) -> Option<User>,
                     issue: User -> (string, string)): (r: AuthReply)
    ensures r.status == 400 <==> Missing(username) || Missing(password)
    ensures r.status == 400 ==> r.body == Message(ProvideBoth)
    ensures r.body.Tokens? <==> (!Missing(username) && !Missing(password)
                                 && authenticate(username.value, password.value).Some?)
    ensures r.body.Tokens? ==> (r.status == 200
      && r.body.user == UserRepresentation(authenticate(username.value, password.value).value)
      && (r.body.refresh, r.body.access) == issue(authenticate(username.value, password.value).value))
    ensures r.status == 401 <==> (!Missing(username) && !Missing(password)
                                  && authenticate(username.value, password.value).None?)
    ensures r.status == 401 ==> r.body == Message(InvalidCredentials)
  {
    if Missing(username) || Missing(password) then AuthReply(400, Message(ProvideBoth))
    else match authenticate(username.value, password.value)
      case Some(user) =>
        var (refresh, access) := issue(user);
        AuthReply(200, Tokens(UserRepresentation(user), refresh, access))
      case None => AuthReply(401, Message(InvalidCredentials))
  }

  /** `UserRegistrationView.post`: a valid request creates the user (with the
      id `newId`) and answers 201 with the user and tokens; otherwise 400
      with the serializer's errors. `before` and `after` are the field errors
      of the fields other than the passwords, as in `RegistrationErrors`;
      `lower` and `nfkc` are the Unicode mappings `create_user` applies, as in
      `Create`. */
  function RegistrationView(data: RegistrationData, before: ErrorMap, after: ErrorMap, newId: UserId,
                            lower: string -> string, nfkc: string -> string,
                            issue: User -> (string, string)): (r: AuthReply)
    ensures r.status == 201 <==> (before == [] && after == []
      && !PyRuntime.IsBlank(data.password) && !PyRuntime.IsBlank(data.passwordConfirm)
      && '\0' !in data.password && '\0' !in data.passwordConfirm
      && PyRuntime.Strip(data.password) == PyRuntime.Strip(data.passwordConfirm))
    ensures r.status == 201 ==> (r.body.Tokens?
      && r.body.user == UserData(newId, nfkc(PyRuntime.Strip(data.username)),
                                 NormalizeEmail(PyRuntime.Strip(data.email), lower),
                                 PyRuntime.Strip(data.firstName), PyRuntime.Strip(data.lastName))
      && (r.body.refresh, r.body.access) == issue(Create(newId, data, lower, nfkc)))
    ensures r.status != 201 ==> (r.status == 400 && r.body.FieldErrors?
      && r.body.errors == RegistrationErrors(data, before, after) && r.body.errors != [])
    ensures r.status != 201 && before + PasswordErrors(data) + after == []
      ==> r.body.errors == [(NonFieldErrors, [PasswordsDontMatch])]
  {
    var errors := RegistrationErrors(data, before, after);
    if errors == [] then
      var user := Create(newId, data, lower, nfkc);
      var (refresh, access) := issue(user);
      AuthReply(201, Tokens(UserRepresentation(user), refresh, access))
    else AuthReply(400, FieldErrors(errors))
  }
}
