/** How the client's state follows the server's: the like counter of a card
    against the like table, the comment list against the comment ordering,
    the error texts the pages show for the server's error bodies, and how the
    client-side form checks relate to the server's validators. The server's
    answers are rendered to JSON the way the REST framework writes them. */
module Consistency {
  import opened Wrappers
  import opened JsRuntime
  import opened ApiModels
  import opened ApiSerializers
  import opened ApiViews
  import opened AuthContext
  import opened IdeaCardComponent
  import opened RegisterPage
  import LoginPage
  import SubmitIdeaPage
  import IdeaDetailPage
  import PyRuntime
  import Whitespace

  // ----- Likes -----

  /** The body of a like answer, `{'status': ...}`. */
  function StatusBody(status: string): Json {
    JObject([("status", JString(status))])
  }

  /** What the client receives for the like action's reply: a 2xx reply
      reaches the `try` with its body, an error status makes axios reject. */
  function ClientOutcome(reply: LikeReply): (o: LikeOutcome)
    ensures o.LikeAnswered? <==> 200 <= StatusCode(reply) < 300
    ensures o.LikeAnswered? ==> (SaysLiked(o.data) <==> reply.Liked?) && o.data != JNull
  {
    match reply
    case Liked => LikeAnswered(StatusBody("liked"))
    case Unliked =>
      assert Member(Some(StatusBody("unliked")), "status") == Some(JString("unliked"));
      LikeAnswered(StatusBody("unliked"))
    case _ => LikeFailed
  }

  /** The like table after the like action, as `ApiViews.Like` leaves it. */
  function TableAfterLike(ideas: map<IdeaId, Idea>, likes: LikeTable, request: Requester, pk: IdeaId): LikeTable {
    var reply := LikeReplyFor(ideas, likes, request, pk);
    if reply.Liked? || reply.Unliked? then ToggledLikes(likes, request.id, pk) else likes
  }

  /** A view's `(likes, isLiked)` agree with the server for user `user` and
      idea `idea`: the count is the number of like rows of the idea and the
      flag says whether the user has one. */
  predicate Consistent(likes: int, isLiked: bool, table: LikeTable, user: UserId, idea: IdeaId) {
    likes == LikeCount(table, idea) && isLiked == ((user, idea) in table)
  }

  /** A consistent card stays consistent through a like: the client's one-up
      or one-down on the answer is the server's toggle and recount, and a
      refused request changes neither side. */
  lemma {:induction false} CardStaysConsistent(ideas: map<IdeaId, Idea>, table: LikeTable, user: UserId,
                                               idea: IdeaId, likes: int, isLiked: bool)
    requires Consistent(likes, isLiked, table, user, idea)
    ensures var reply := LikeReplyFor(ideas, table, SignedIn(user), idea);
      var after := AfterLikeAnswer(likes, isLiked, ClientOutcome(reply));
      Consistent(after.0, after.1, TableAfterLike(ideas, table, SignedIn(user), idea), user, idea)
  {
    var reply := LikeReplyFor(ideas, table, SignedIn(user), idea);
    if reply.Liked? || reply.Unliked? {
      ToggleRecount(table, user, idea, idea);
    }
  }

  /** A card built from the server's representation of a stored idea, for a
      signed-in user, starts consistent. */
  lemma FreshCardConsistent(ideas: map<IdeaId, Idea>, likes: LikeTable, users: map<UserId, User>,
                            comments: seq<Comment>, id: IdeaId, user: UserId)
    requires id in ideas && UsersKnown(ideas[id], comments, users)
    requires ideas[id].id == id && CountsAgree(ideas, likes)
    ensures var data := IdeaRepresentation(ideas[id], users, comments, likes, Some(SignedIn(user)));
      Consistent(data.likesCount, data.isLiked, likes, user, id)
  {
  }

  /** The whole exchange on the stored tables: the card's click, the server's
      like action, and the card's handling of the answer keep the card
      consistent with the database. */
  method LikeRoundTrip(db: Database, card: IdeaCard, user: UserId, now: int)
    requires db.Valid() && !card.loading
    requires Consistent(card.likes, card.isLiked, db.likes, user, card.ideaId)
    modifies db, card
    ensures db.Valid() && !card.loading
    ensures Consistent(card.likes, card.isLiked, db.likes, user, card.ideaId)
  {
    var request := card.Click(true);
    ghost var ideas, table := db.ideas, db.likes;
    var reply := Like(db, SignedIn(user), card.ideaId, now);
    assert db.likes == TableAfterLike(ideas, table, SignedIn(user), card.ideaId);
    CardStaysConsistent(ideas, table, user, card.ideaId, card.likes, card.isLiked);
    card.Complete(ClientOutcome(reply));
  }

  // ----- Comments -----

  /** Newest first, on the comments the client holds. */
  predicate NewestFirstData(cs: seq<CommentData>) {
    forall i, j :: 0 <= i < j < |cs| ==> cs[i].createdAt >= cs[j].createdAt
  }

  /** Putting a comment no older than the first one in front keeps the list
      newest first, so the page's prepend agrees with the server's ordering.
      The hypothesis stands for a server clock that never runs backwards: the
      new comment's time is the `now` of `CreateComment`, and nothing in the
      model orders the successive values of `now`. */
  lemma {:induction false} PrependKeepsNewestFirst(c: CommentData, cs: seq<CommentData>)
    requires NewestFirstData(cs)
    requires |cs| == 0 || c.createdAt >= cs[0].createdAt
    ensures NewestFirstData([c] + cs)
  {
    var r := [c] + cs;
    forall i, j | 0 <= i < j < |r| ensures r[i].createdAt >= r[j].createdAt {
      if i == 0 {
        assert r[j] == cs[j - 1];
        if j > 1 { assert cs[0].createdAt >= cs[j - 1].createdAt; }
      } else {
        assert r[i] == cs[i - 1] && r[j] == cs[j - 1];
      }
    }
  }

  // ----- Error bodies -----

  /** The messages as JSON strings. */
  function Strings(ms: seq<string>): (r: seq<Json>)
    ensures |r| == |ms| && forall k :: 0 <= k < |ms| ==> r[k] == JString(ms[k])
  {
    seq(|ms|, k requires 0 <= k < |ms| => JString(ms[k]))
  }

  /** `serializer.errors` as a JSON object of string arrays. */
  function ErrorsJson(errors: ErrorMap): (r: Json)
    ensures r.JObject? && |r.members| == |errors|
    ensures forall k :: 0 <= k < |errors| ==> r.members[k] == (errors[k].0, JArray(Strings(errors[k].1)))
  {
    JObject(seq(|errors|, k requires 0 <= k < |errors| => (errors[k].0, JArray(Strings(errors[k].1)))))
  }

  /** All messages of an error map, field after field. */
  function Messages(errors: ErrorMap): seq<string> {
    if |errors| == 0 then [] else errors[0].1 + Messages(errors[1..])
  }

  /** The value arrays of the error object, flattened, are the messages. */
  lemma {:induction false} FlatErrorValues(errors: ErrorMap)
    ensures Flat(Values(ErrorsJson(errors))) == Strings(Messages(errors))
  {
    if |errors| > 0 {
      FlatErrorValues(errors[1..]);
      var vs := Values(ErrorsJson(errors));
      assert vs[0] == JArray(Strings(errors[0].1));
      assert vs[1..] == Values(ErrorsJson(errors[1..]));
      assert Strings(errors[0].1 + Messages(errors[1..])) == Strings(errors[0].1) + Strings(Messages(errors[1..]));
    }
  }

  /** Joining JSON strings is joining their texts. */
  lemma JoinStrings(ms: seq<string>, sep: string)
    ensures JoinValues(Strings(ms), sep) == Join(ms, sep)
  {
    assert seq(|ms|, k requires 0 <= k < |ms| => ElementText(Strings(ms)[k])) == ms;
  }

  /** A registration refused by the server shows every message of its error
      map, in order, separated by ", ". */
  lemma RegisterErrorShown(errors: ErrorMap)
    ensures ErrorText(RegisterError(Some(ErrorsJson(errors)))) == JString(Join(Messages(errors), ", "))
  {
    FlatErrorValues(errors);
    JoinStrings(Messages(errors), ", ");
  }

  /** Passwords that differ once stripped, neither of them blank nor holding
      U+0000, with no other field error, show the server's own message. */
  lemma MismatchShown(data: RegistrationData, newId: UserId, lower: string -> string, nfkc: string -> string,
                      issue: User -> (string, string))
    requires !PyRuntime.IsBlank(data.password) && !PyRuntime.IsBlank(data.passwordConfirm)
    requires '\0' !in data.password && '\0' !in data.passwordConfirm
    requires PyRuntime.Strip(data.password) != PyRuntime.Strip(data.passwordConfirm)
    ensures var r := RegistrationView(data, [], [], newId, lower, nfkc, issue);
      r.status == 400 && ErrorText(RegisterError(Some(ErrorsJson(r.body.errors)))) == JString(PasswordsDontMatch)
  {
    RegisterErrorShown([(NonFieldErrors, [PasswordsDontMatch])]);
  }

  /** The JSON the authentication endpoints write. The user object is
      reduced to its id, which is all the client keeps apart from passing
      it on. */
  function AuthBodyJson(body: AuthBody): Json {
    match body
    case Tokens(user, refresh, access) =>
      JObject([("user", JNumber(user.id)), ("refresh", JString(refresh)), ("access", JString(access))])
    case Message(error) => JObject([("error", JString(error))])
    case FieldErrors(errors) => ErrorsJson(errors)
  }

  /** What `login` and `register` receive for a reply of the two views: a
      2xx reply with its tokens, or the rejected reply's body. */
  function ClientAuthOutcome(r: AuthReply): (o: AuthOutcome)
    ensures o.Accepted? <==> 200 <= r.status < 300 && r.body.Tokens?
    ensures o.Accepted? ==> o.access == r.body.access && o.user == r.body.user
  {
    if 200 <= r.status < 300 && r.body.Tokens? then Accepted(r.body.access, r.body.user)
    else Rejected(Some(AuthBodyJson(r.body)))
  }

  /** Signing in through the login view: the session becomes authenticated
      exactly when the credentials are accepted, and bad credentials report
      the server's "Invalid credentials". */
  lemma LoginRoundTrip(s: Session, username: string, password: string,
                       authenticate: (string, string) -> Option<User>, issue: User -> (string, string))
    requires username != "" && password != ""
    ensures var (s', result) := AfterAuth(s, ClientAuthOutcome(LoginView(Some(username), Some(password), authenticate, issue)), LoginError);
      && (s'.IsAuthenticated() <==> s.IsAuthenticated() || authenticate(username, password).Some?)
      && (result.success <==> authenticate(username, password).Some?)
      && (authenticate(username, password).Some? ==> s'.user == Some(UserRepresentation(authenticate(username, password).value)))
      && (authenticate(username, password).None? ==> result.error == Some(JString(InvalidCredentials)) && s' == s)
  {
    var r := LoginView(Some(username), Some(password), authenticate, issue);
    if authenticate(username, password).None? {
      assert r.body == Message(InvalidCredentials);
    }
  }

  /** A login attempt the page lets through never gets the server's
      "provide both" answer. */
  lemma LoginCheckCoversServer(username: string, password: string,
                               authenticate: (string, string) -> Option<User>, issue: User -> (string, string))
    ensures LoginPage.LoginValidation(username, password).None? <==>
      LoginView(Some(username), Some(password), authenticate, issue).status != 400
  {
  }

  // ----- The idea page reached after a submission -----

  /** The body `IdeaViewSet.create` answers with, as written: the data of
      `IdeaCreateSerializer`, whose only fields are title and description. */
  function CreatedIdeaJson(idea: Idea): (r: Json)
    ensures Member(Some(r), "id").None?
    ensures Member(Some(r), "title") == Some(JString(idea.title))
  {
    JObject([("title", JString(idea.title)), ("description", JString(idea.description))])
  }

  /** As written, the page's redirect after a successful submission goes to
      `/idea/undefined`, which the idea page rejects as an invalid id. */
  lemma CreatedIdeaLinksToUndefined(idea: Idea)
    ensures SubmitIdeaPage.DetailRoute(CreatedIdeaJson(idea)) == "/idea/undefined"
    ensures !IdeaDetailPage.ValidId(Some("undefined"))
  {
  }

  /** Corrected: the body also carries the new idea's id, as
      `IdeaSerializer` would write it. */
  function CreatedIdeaJsonWithId(idea: Idea): (r: Json)
    ensures Member(Some(r), "id") == Some(JNumber(idea.id))
    ensures Member(Some(r), "title") == Some(JString(idea.title))
  {
    var ms := [("id", JNumber(idea.id)), ("title", JString(idea.title)), ("description", JString(idea.description))];
    assert Lookup(ms, "title") == Lookup(ms[1..], "title");
    JObject(ms)
  }

  /** What the submission page receives for a reply of the create endpoint,
      with the corrected body. */
  function ClientSubmitOutcome(r: CreateReply<Idea>): (o: SubmitIdeaPage.SubmitOutcome)
    ensures o.IdeaCreated? <==> r.Created?
    ensures r.Created? ==> o.body == CreatedIdeaJsonWithId(r.row)
  {
    match r
    case Created(idea) => SubmitIdeaPage.IdeaCreated(CreatedIdeaJsonWithId(idea))
    case Refused(_) => SubmitIdeaPage.SubmissionRejected(None)
  }

  /** With the corrected body, a created idea sends the page to that idea's
      own page, whose id is valid and is fetched on mount. */
  lemma CreatedIdeaLinksToIdea(request: Requester, data: map<string, string>, id: IdeaId, now: int)
    requires CreateIdea(request, data, id, now).Created?
    ensures var o := ClientSubmitOutcome(CreateIdea(request, data, id, now));
      && SubmitIdeaPage.DetailRoute(o.body) == "/idea/" + NatText(id)
      && IdeaDetailPage.ValidId(Some(NatText(id)))
  {
    NatTextDigits(id);
    var t := NatText(id);
    assert '0' <= t[0] <= '9';
    assert "undefined"[0] == 'u';
  }

  // ----- Form checks against the server's validators -----

  /** An idea the page lets through, with a title of at most 200
      characters, no white space around either field and no U+0000 in
      either, is created by the server for a signed-in user. */
  lemma IdeaCheckImpliesCreated(title: string, description: string, user: UserId, id: IdeaId, now: int)
    requires SubmitIdeaPage.IdeaValidation(title, description).None? && |title| <= TitleMaxLength
    requires PyRuntime.Strip(title) == title && PyRuntime.Strip(description) == description
    requires '\0' !in title && '\0' !in description
    ensures CreateIdea(SignedIn(user), map["title" := title, "description" := description], id, now).Created?
  {
  }

  /** A title of ten spaces is refused by both sides: the page finds it blank
      after `trim`, and the server's field finds it blank after `strip`. */
  lemma BlankTitleRefusedByBoth(description: string, user: UserId, id: IdeaId, now: int)
    ensures SubmitIdeaPage.IdeaValidation("          ", description) == Some(SubmitIdeaPage.FillAll)
    ensures CreateIdea(SignedIn(user), map["title" := "          ", "description" := description], id, now) == Refused(400)
  {
    var t := "          ";
    assert forall k :: 0 <= k < |t| ==> t[k] == ' ';
    assert IsBlank(t);
    assert PyRuntime.IsBlank(t);
    TrimEmptyIffBlank(t);
    assert SubmitIdeaPage.BlankField(t, description);
  }

  /** The page measures the title before trimming and the server after
      stripping, so "Idea" followed by six spaces passes the page and is
      refused by the server's ten-character minimum. */
  lemma PaddedTitleOnlyRefusedByServer(description: string, user: UserId, id: IdeaId, now: int)
    requires |description| >= SubmitIdeaPage.DescriptionMinLength && !IsBlank(description)
    ensures SubmitIdeaPage.IdeaValidation("Idea      ", description).None?
    ensures CreateIdea(SignedIn(user), map["title" := "Idea      ", "description" := description], id, now) == Refused(400)
  {
    var t := "Idea      ";
    assert !IsSpace(t[0]) && !PyRuntime.IsSpace(t[0]);
    TrimEmptyIffBlank(t);
    TrimEmptyIffBlank(description);
    var i, j := Whitespace.StripBounds(PyRuntime.IsSpace, t);
    assert forall k :: 4 <= k < |t| ==> t[k] == ' ';
    assert j <= 4;
    assert |PyRuntime.Strip(t)| <= 4;
  }

  /** The page has no rule about U+0000, and the server's fields refuse it:
      a title holding one passes the page and is refused with 400. */
  lemma NullTitleOnlyRefusedByServer(description: string, user: UserId, id: IdeaId, now: int)
    requires |description| >= SubmitIdeaPage.DescriptionMinLength && !IsBlank(description)
    ensures SubmitIdeaPage.IdeaValidation("Ten chars\0 long", description).None?
    ensures CreateIdea(SignedIn(user), map["title" := "Ten chars\0 long", "description" := description], id, now) == Refused(400)
  {
    var t := "Ten chars\0 long";
    assert !IsSpace(t[0]) && !PyRuntime.IsSpace(t[0]) && t[9] == '\0';
    TrimEmptyIffBlank(t);
    TrimEmptyIffBlank(description);
  }

  /** A form the page lets through, with passwords that are not all white
      space and hold no U+0000, passes every check of the serializer that the
      model performs: only the framework's other field errors (a taken
      username, ...) can refuse it. */
  lemma RegisterCheckImpliesServer(form: RegistrationData)
    requires RegisterValidation(form).None? && !PyRuntime.IsBlank(form.password)
    requires '\0' !in form.password
    ensures RegistrationErrors(form, [], []) == []
    ensures Validate(Cleaned(form)).None?
  {
  }

  /** The eight-character minimum is the client's alone: a five-character
      password is refused by the page and registered by the server. */
  lemma ShortPasswordOnlyRefusedByClient(newId: UserId, lower: string -> string, nfkc: string -> string,
                                         issue: User -> (string, string))
    ensures var form := RegistrationData("ada", "ada@example.com", "short", "short", "", "");
      RegisterValidation(form) == Some(PasswordTooShort) && RegistrationView(form, [], [], newId, lower, nfkc, issue).status == 201
  {
    var p := "short";
    assert !PyRuntime.IsSpace(p[0]);
    assert !PyRuntime.IsBlank(p);
  }

  /** Eight spaces pass the page's password checks, and the server refuses
      them as blank. */
  lemma BlankPasswordOnlyRefusedByServer(newId: UserId, lower: string -> string, nfkc: string -> string,
                                         issue: User -> (string, string))
    ensures var form := RegistrationData("ada", "ada@example.com", "        ", "        ", "", "");
      && RegisterValidation(form).None?
      && var r := RegistrationView(form, [], [], newId, lower, nfkc, issue);
         r.status == 400 && ("password", [MayNotBeBlank]) in r.body.errors
  {
    var p := "        ";
    assert forall k :: 0 <= k < |p| ==> p[k] == ' ';
    assert PyRuntime.IsBlank(p);
  }

  /** A password holding U+0000, typed twice, passes the page's checks, and
      the server refuses both password fields with the null-character
      message. */
  lemma NullPasswordOnlyRefusedByServer(newId: UserId, lower: string -> string, nfkc: string -> string,
                                        issue: User -> (string, string))
    ensures var form := RegistrationData("ada", "ada@example.com", "abcd\0efgh", "abcd\0efgh", "", "");
      && RegisterValidation(form).None?
      && var r := RegistrationView(form, [], [], newId, lower, nfkc, issue);
         && r.status == 400 && ("password", [NullCharactersNotAllowed]) in r.body.errors
         && ("password_confirm", [NullCharactersNotAllowed]) in r.body.errors
  {
    var p := "abcd\0efgh";
    assert !PyRuntime.IsSpace(p[0]) && p[4] == '\0';
    assert !PyRuntime.IsBlank(p);
  }

  /** The page compares the passwords as typed and the server after
      stripping, so passwords that differ only in a trailing space are
      refused by the page and registered by the server. */
  lemma PaddedPasswordsOnlyRefusedByClient(newId: UserId, lower: string -> string, nfkc: string -> string,
                                           issue: User -> (string, string))
    ensures var form := RegistrationData("ada", "ada@example.com", "secret123 ", "secret123", "", "");
      && RegisterValidation(form) == Some(PasswordsDoNotMatch)
      && RegistrationView(form, [], [], newId, lower, nfkc, issue).status == 201
  {
    var p, c := "secret123 ", "secret123";
    assert !PyRuntime.IsSpace(p[0]) && !PyRuntime.IsSpace(p[8]) && p[9..] == " " && PyRuntime.IsSpace(p[9]);
    assert p[..0] == [] && c[..0] == [] && c[9..] == [];
    Whitespace.StripExactly(PyRuntime.IsSpace, p, 0, 9);
    Whitespace.StripExactly(PyRuntime.IsSpace, c, 0, 9);
    assert p[0..9] == c[0..9] == c;
    assert PyRuntime.Strip(p) == PyRuntime.Strip(c);
    assert !PyRuntime.IsBlank(c);
  }

  /** The comment form sends any text that is not blank, such as "ok", and
      the comment endpoint (`CommentViewSet.create`, routed at the nested
      `comments/` path) refuses content shorter than five characters. The
      page's own request goes to a path without a route, so this relates the
      form to the endpoint meant to receive it, not to the answer the page
      gets. */
  lemma ShortCommentSentThenRefused(ideas: map<IdeaId, Idea>, user: UserId, idea: IdeaId, id: CommentId, now: int)
    ensures IdeaDetailPage.MaySubmit("ok", false)
    ensures CreateComment(SignedIn(user), idea, ideas, map["content" := "ok"], id, now) == Refused(400)
  {
    var t := "ok";
    assert t[0] == 'o' && !IsSpace(t[0]) && !PyRuntime.IsSpace(t[0]);
    TrimEmptyIffBlank(t);
  }
}
