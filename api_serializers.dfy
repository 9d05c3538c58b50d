/** The server's serializers (backend/api/serializers.py): what an idea, a
    comment and a user look like on the wire, `get_is_liked`, the fields a
    client may write, and the registration serializer's `validate` and
    `create`. */
module ApiSerializers {
  import opened Wrappers
  import opened ApiModels
  import PyRuntime

  /** A row of Django's user table; `password` is the stored password. */
  datatype User = User(
    id: UserId,
    username: string,
    email: string,
    firstName: string,
    lastName: string,
    password: string)

  /** `UserSerializer`: id, username, email, first_name and last_name. The
      type has no password field, so no representation of a user carries one. */
  datatype UserData = UserData(
    id: UserId,
    username: string,
    email: string,
    firstName: string,
    lastName: string)

  function UserRepresentation(u: User): (r: UserData)
    ensures r.id == u.id && r.username == u.username && r.email == u.email
    ensures r.firstName == u.firstName && r.lastName == u.lastName
  {
    UserData(u.id, u.username, u.email, u.firstName, u.lastName)
  }

  /** The stored password never influences what is sent about a user. */
  lemma PasswordNeverSent(u: User, password: string)
    ensures UserRepresentation(u.(password := password)) == UserRepresentation(u)
  {
  }

  /** `CommentSerializer`: id, content, commenter and created_at. */
  datatype CommentData = CommentData(
    id: CommentId,
    content: string,
    commenter: UserData,
    createdAt: int)

  /** `IdeaSerializer`: the idea with its pitcher, its comments and `is_liked`. */
  datatype IdeaData = IdeaData(
    id: IdeaId,
    title: string,
    description: string,
    pitcher: UserData,
    createdAt: int,
    updatedAt: int,
    likesCount: int,
    comments: seq<CommentData>,
    isLiked: bool)

  /** The user a request is made by (`request.user`). */
  datatype Requester = Anonymous | SignedIn(id: UserId)

  /** `get_is_liked`: without a request in the context, or for an anonymous
      user, false; otherwise whether that user has a like row for the idea. */
  function GetIsLiked(likes: LikeTable, request: Option<Requester>, idea: IdeaId): (liked: bool)
    ensures liked ==> request.Some? && request.value.SignedIn?
    ensures request.Some? && request.value.SignedIn? ==> (liked <==> request.value.id in Likers(likes, idea))
  {
    match request
    case Some(SignedIn(u)) => (u, idea) in likes
    case _ => false
  }

  /** The comments of one idea: `idea.comments`, before ordering. */
  function CommentsOf(comments: seq<Comment>, idea: IdeaId): (r: seq<Comment>)
    ensures forall c :: c in r <==> c in comments && c.idea == idea
    ensures forall c :: multiset(r)[c] == if c.idea == idea then multiset(comments)[c] else 0
  {
    if |comments| == 0 then []
    else
      var rest := CommentsOf(comments[1..], idea);
      assert comments == [comments[0]] + comments[1..];
      (if comments[0].idea == idea then [comments[0]] else []) + rest
  }

  /** One comment on the wire: its own id, content and creation time, and
      the representation of the user who wrote it. The idea it belongs to is
      not part of it. */
  function CommentRepresentation(c: Comment, users: map<UserId, User>): (r: CommentData)
    requires c.commenter in users
    ensures r.id == c.id && r.content == c.content && r.createdAt == c.createdAt
    ensures r.commenter == UserRepresentation(users[c.commenter])
  {
    CommentData(c.id, c.content, UserRepresentation(users[c.commenter]), c.createdAt)
  }

  /** `CommentSerializer(comments, many=True).data`, in the given order. */
  function CommentsRepresentation(cs: seq<Comment>, users: map<UserId, User>): (r: seq<CommentData>)
    requires forall c :: c in cs ==> c.commenter in users
    ensures |r| == |cs| && forall k :: 0 <= k < |cs| ==> r[k] == CommentRepresentation(cs[k], users)
  {
    seq(|cs|, k requires 0 <= k < |cs| => CommentRepresentation(cs[k], users))
  }

  /** `idea.comments.all()`: the idea's own comments, in the comment ordering. */
  function OwnComments(comments: seq<Comment>, idea: IdeaId): (r: seq<Comment>)
    ensures forall c :: c in r <==> c in comments && c.idea == idea
    ensures forall i, j :: 0 <= i < j < |r| ==> r[i].createdAt >= r[j].createdAt
    ensures |r| == |CommentsOf(comments, idea)|
    ensures multiset(r) == multiset(CommentsOf(comments, idea))
  {
    var mine := CommentsOf(comments, idea);
    var own := CommentsInModelOrder(mine);
    forall c ensures c in own <==> c in mine {
      assert c in own <==> c in multiset(own);
      assert c in mine <==> c in multiset(mine);
    }
    assert |own| == |mine| by {
      assert |multiset(own)| == |multiset(mine)|;
    }
    own
  }

  /** Each comment of a list is represented in the list's serialization. */
  lemma RepresentationsOfMembers(cs: seq<Comment>, users: map<UserId, User>)
    requires forall c :: c in cs ==> c.commenter in users
    ensures forall c :: c in cs ==> CommentRepresentation(c, users) in CommentsRepresentation(cs, users)
  {
    forall c | c in cs ensures CommentRepresentation(c, users) in CommentsRepresentation(cs, users) {
      var k :| 0 <= k < |cs| && cs[k] == c;
      assert CommentsRepresentation(cs, users)[k] == CommentRepresentation(c, users);
    }
  }

  /** Every user a row refers to is stored (the foreign keys hold). */
  predicate UsersKnown(idea: Idea, comments: seq<Comment>, users: map<UserId, User>) {
    idea.pitcher in users && forall c :: c in comments ==> c.commenter in users
  }

  /** `IdeaSerializer(idea, context={'request': request}).data`: the idea's
      stored fields, its pitcher, its own comments newest first, its stored
      `likes_count`, and `is_liked` for the requesting user. */
  function IdeaRepresentation(idea: Idea, users: map<UserId, User>, comments: seq<Comment>,
                              likes: LikeTable, request: Option<Requester>): (r: IdeaData)
    requires UsersKnown(idea, comments, users)
    ensures r.id == idea.id && r.title == idea.title && r.description == idea.description
    ensures r.createdAt == idea.createdAt && r.updatedAt == idea.updatedAt
    ensures r.likesCount == idea.likesCount
    ensures r.isLiked == GetIsLiked(likes, request, idea.id)
    ensures r.pitcher == UserRepresentation(users[idea.pitcher])
    ensures forall i, j :: 0 <= i < j < |r.comments| ==> r.comments[i].createdAt >= r.comments[j].createdAt
    ensures |r.comments| == |CommentsOf(comments, idea.id)|
  {
    var own := OwnComments(comments, idea.id);
    IdeaData(idea.id, idea.title, idea.description, UserRepresentation(users[idea.pitcher]),
             idea.createdAt, idea.updatedAt, idea.likesCount, CommentsRepresentation(own, users),
             GetIsLiked(likes, request, idea.id))
  }

  /** The comments sent with an idea are exactly the idea's own comments:
      each one represents a comment of this idea, and each comment of this
      idea is among them. */
  lemma ServedCommentsAreOwn(idea: Idea, users: map<UserId, User>, comments: seq<Comment>,
                             likes: LikeTable, request: Option<Requester>)
    requires UsersKnown(idea, comments, users)
    ensures var r := IdeaRepresentation(idea, users, comments, likes, request);
      && (forall k :: 0 <= k < |r.comments| ==>
            exists c :: c in comments && c.idea == idea.id && r.comments[k] == CommentRepresentation(c, users))
      && (forall c :: c in comments && c.idea == idea.id ==> CommentRepresentation(c, users) in r.comments)
  {
    var own := OwnComments(comments, idea.id);
    var cs := CommentsRepresentation(own, users);
    assert IdeaRepresentation(idea, users, comments, likes, request).comments == cs;
    RepresentationsOfMembers(own, users);
    forall k | 0 <= k < |cs|
      ensures exists c :: c in comments && c.idea == idea.id && cs[k] == CommentRepresentation(c, users)
    {
      assert own[k] in own;
    }
  }

  const MayNotBeBlank := "This field may not be blank."
  const NullCharactersNotAllowed := "Null characters are not allowed."

  /** The messages a serializer `CharField` that may not be blank reports for
      a submitted value: the framework's defaults strip the value of
      surrounding white space and refuse it when it is then empty; otherwise
      the field's `ProhibitNullCharactersValidator` refuses a value holding
      U+0000. Stripping never removes U+0000, so the raw value holds one
      exactly when the stripped one does. */
  function CharFieldMessages(value: string): (r: seq<string>)
    ensures r == [] <==> !PyRuntime.IsBlank(value) && '\0' !in value
    ensures r == [MayNotBeBlank] <==> PyRuntime.IsBlank(value)
    ensures r == [NullCharactersNotAllowed] <==> !PyRuntime.IsBlank(value) && '\0' in value
  {
    var v := PyRuntime.Strip(value);
    PyRuntime.StripKeeps(value, '\0');
    if v == "" then [MayNotBeBlank]
    else if '\0' in v then [NullCharactersNotAllowed]
    else []
  }

  /** A serializer `CharField` for a model field that may not be blank, on
      the submitted value under `key`: missing ("This field is required."),
      blank or holding U+0000 (`CharFieldMessages`) it is refused; otherwise
      the field's own validators then see the stripped value, and the stripped
      value is what is stored. */
  function CleanCharField(data: map<string, string>, key: string): (r: Option<string>)
    ensures r.Some? <==> key in data && !PyRuntime.IsBlank(data[key]) && '\0' !in data[key]
    ensures r.Some? ==> r.value == PyRuntime.Strip(data[key]) && r.value != ""
  {
    if key in data && CharFieldMessages(data[key]) == [] then Some(PyRuntime.Strip(data[key])) else None
  }

  /** `IdeaCreateSerializer`: of the request body only title and description
      are read; id, pitcher, timestamps and likes_count sent by a client are
      ignored. Both are cleaned by `CleanCharField`; None when either is
      refused. */
  function IdeaCreateFields(data: map<string, string>): (r: Option<(string, string)>)
    ensures r.Some? <==> ("title" in data && "description" in data
      && !PyRuntime.IsBlank(data["title"]) && !PyRuntime.IsBlank(data["description"])
      && '\0' !in data["title"] && '\0' !in data["description"])
    ensures r.Some? ==> r.value == (PyRuntime.Strip(data["title"]), PyRuntime.Strip(data["description"]))
  {
    match (CleanCharField(data, "title"), CleanCharField(data, "description"))
    case (Some(title), Some(description)) => Some((title, description))
    case _ => None
  }

  /** `CommentSerializer` on input: only `content` is writable (id,
      commenter and created_at are read-only), and it is cleaned by
      `CleanCharField`. */
  function CommentCreateContent(data: map<string, string>): (r: Option<string>)
    ensures r.Some? <==> "content" in data && !PyRuntime.IsBlank(data["content"]) && '\0' !in data["content"]
    ensures r.Some? ==> r.value == PyRuntime.Strip(data["content"])
  {
    CleanCharField(data, "content")
  }

  /** What a client may write when creating an idea is decided by title and
      description alone. */
  lemma IdeaCreateIgnoresReadOnly(data: map<string, string>, data': map<string, string>)
    requires forall k :: k in {"title", "description"} ==> (k in data <==> k in data') && (k in data ==> data[k] == data'[k])
    ensures IdeaCreateFields(data) == IdeaCreateFields(data')
  {
    assert "title" in {"title", "description"} && "description" in {"title", "description"};
  }

  /** The body of a registration request. */
  datatype RegistrationData = RegistrationData(
    username: string,
    email: string,
    password: string,
    passwordConfirm: string,
    firstName: string,
    lastName: string)

  /** `serializer.errors`: each field (or "non_field_errors") with its
      messages, in the order the framework reports them. */
  type ErrorMap = seq<(string, seq<string>)>

  const NonFieldErrors := "non_field_errors"
  const PasswordsDontMatch := "Passwords don't match"

  /** The errors of the two declared password fields. Each is a `CharField`,
      so a password that is empty after stripping, or that holds U+0000, is
      refused with the field's message. */
  function PasswordErrors(data: RegistrationData): (r: ErrorMap)
    ensures r == [] <==> (!PyRuntime.IsBlank(data.password) && !PyRuntime.IsBlank(data.passwordConfirm)
      && '\0' !in data.password && '\0' !in data.passwordConfirm)
    ensures ("password", [MayNotBeBlank]) in r <==> PyRuntime.IsBlank(data.password)
    ensures ("password_confirm", [MayNotBeBlank]) in r <==> PyRuntime.IsBlank(data.passwordConfirm)
    ensures ("password", [NullCharactersNotAllowed]) in r <==> !PyRuntime.IsBlank(data.password) && '\0' in data.password
    ensures ("password_confirm", [NullCharactersNotAllowed]) in r
      <==> !PyRuntime.IsBlank(data.passwordConfirm) && '\0' in data.passwordConfirm
  {
    var p, c := CharFieldMessages(data.password), CharFieldMessages(data.passwordConfirm);
    (if p != [] then [("password", p)] else []) + (if c != [] then [("password_confirm", c)] else [])
  }

  /** The values the fields hand on to `validate` and `create`: every field
      of the form is a `CharField` (or an `EmailField`, which is one), so each
      comes out stripped. */
  function Cleaned(data: RegistrationData): RegistrationData {
    RegistrationData(PyRuntime.Strip(data.username), PyRuntime.Strip(data.email),
                     PyRuntime.Strip(data.password), PyRuntime.Strip(data.passwordConfirm),
                     PyRuntime.Strip(data.firstName), PyRuntime.Strip(data.lastName))
  }

  /** Cleaning values that were already cleaned changes nothing. */
  lemma CleanedIsStable(data: RegistrationData)
    ensures Cleaned(Cleaned(data)) == Cleaned(data)
  {
    PyRuntime.StripIdempotent(data.username);
    PyRuntime.StripIdempotent(data.email);
    PyRuntime.StripIdempotent(data.password);
    PyRuntime.StripIdempotent(data.passwordConfirm);
    PyRuntime.StripIdempotent(data.firstName);
    PyRuntime.StripIdempotent(data.lastName);
  }

  /** `UserRegistrationSerializer.validate`, on the cleaned values: the only
      object-level rule is that the two passwords are equal. There is no
      length rule here. The framework reports the raised message under
      "non_field_errors". */
  function Validate(data: RegistrationData): (r: Option<ErrorMap>)
    ensures r.None? <==> data.password == data.passwordConfirm
    ensures r.Some? ==> r.value == [(NonFieldErrors, [PasswordsDontMatch])]
  {
    if data.password != data.passwordConfirm then Some([(NonFieldErrors, [PasswordsDontMatch])]) else None
  }

  /** `is_valid()` and `errors`. The fields are checked in the order they
      are declared: `before` holds the errors the framework finds for username
      and email (a taken username, a malformed address, ...), then come the
      two password fields, then `after`, the errors for first and last name.
      Only when no field failed does `validate` run, on the cleaned values. */
  function RegistrationErrors(data: RegistrationData, before: ErrorMap, after: ErrorMap): (r: ErrorMap)
    ensures r == [] <==> (before == [] && after == []
      && !PyRuntime.IsBlank(data.password) && !PyRuntime.IsBlank(data.passwordConfirm)
      && '\0' !in data.password && '\0' !in data.passwordConfirm
      && PyRuntime.Strip(data.password) == PyRuntime.Strip(data.passwordConfirm))
    ensures before + PasswordErrors(data) + after != [] ==> r == before + PasswordErrors(data) + after
    ensures (before + PasswordErrors(data) + after == []
      && PyRuntime.Strip(data.password) != PyRuntime.Strip(data.passwordConfirm))
      ==> r == [(NonFieldErrors, [PasswordsDontMatch])]
  {
    var fieldErrors := before + PasswordErrors(data) + after;
    if fieldErrors != [] then fieldErrors
    else match Validate(Cleaned(data))
      case Some(errors) => errors
      case None => []
  }

  /** `validated_data` for a request that passed validation, given the
      cleaned values. */
  function ValidatedData(v: RegistrationData): map<string, string> {
    map["username" := v.username, "email" := v.email, "password" := v.password,
        "password_confirm" := v.passwordConfirm, "first_name" := v.firstName,
        "last_name" := v.lastName]
  }

  /** `validated_data.pop('password_confirm')`: the keyword arguments left
      for `create_user`. */
  function CreateArguments(validated: map<string, string>): (r: map<string, string>)
    requires "password_confirm" in validated
    ensures "password_confirm" !in r
    ensures forall k :: k in validated && k != "password_confirm" ==> k in r && r[k] == validated[k]
    ensures forall k :: k in r ==> k in validated
  {
    validated - {"password_confirm"}
  }

  /** Django's `BaseUserManager.normalize_email`: the address is split at
      its last "@" after stripping, and the domain part is lowercased with
      `lower` (Python's `str.lower`); an address without "@" is kept as
      given. */
  function NormalizeEmail(email: string, lower: string -> string): (r: string)
    ensures '@' !in PyRuntime.Strip(email) ==> r == email
  {
    match PyRuntime.RSplitOnce(PyRuntime.Strip(email), '@')
    case None => email
    case Some((name, domain)) => name + "@" + lower(domain)
  }

  /** For an address with no white space around it, the part before the
      last "@" is kept and the part after it is lowercased. */
  lemma NormalizeEmailLowersDomain(name: string, domain: string, lower: string -> string)
    requires '@' !in domain && PyRuntime.Strip(name + "@" + domain) == name + "@" + domain
    ensures NormalizeEmail(name + "@" + domain, lower) == name + "@" + lower(domain)
  {
    PyRuntime.RSplitOnceOfJoin(name, domain, '@');
  }

  /** `User.objects.create_user(**arguments)`: a new user row with the next
      id. The username goes through `normalize_username`, which is
      `nfkc` (Unicode NFKC normalisation), and the email through
      `NormalizeEmail`; a missing email is "". Password hashing is not
      modelled. */
  function CreateUser(id: UserId, arguments: map<string, string>,
                      lower: string -> string, nfkc: string -> string): User
    requires "username" in arguments
  {
    User(id, nfkc(arguments["username"]),
         NormalizeEmail(if "email" in arguments then arguments["email"] else "", lower),
         if "first_name" in arguments then arguments["first_name"] else "",
         if "last_name" in arguments then arguments["last_name"] else "",
         if "password" in arguments then arguments["password"] else "")
  }

  /** `UserRegistrationSerializer.create`: `create_user` receives exactly the
      five user fields, and the new user carries the submitted values as the
      fields cleaned them, stripped of surrounding white space, with the
      username NFKC-normalised and the email's domain lowercased. */
  function Create(id: UserId, data: RegistrationData, lower: string -> string, nfkc: string -> string): (u: User)
    ensures CreateArguments(ValidatedData(Cleaned(data))).Keys == {"username", "email", "password", "first_name", "last_name"}
    ensures u == User(id, nfkc(PyRuntime.Strip(data.username)), NormalizeEmail(PyRuntime.Strip(data.email), lower),
                      PyRuntime.Strip(data.firstName), PyRuntime.Strip(data.lastName), PyRuntime.Strip(data.password))
  {
    var v := Cleaned(data);
    var arguments := CreateArguments(ValidatedData(v));
    assert arguments.Keys == {"username", "email", "password", "first_name", "last_name"};
    assert arguments["username"] == v.username && arguments["email"] == v.email && arguments["password"] == v.password;
    assert arguments["first_name"] == v.firstName && arguments["last_name"] == v.lastName;
    CreateUser(id, arguments, lower, nfkc)
  }

  /** A user registered with the address `name@domain`, typed without
      surrounding white space, is stored with `name` as typed and the domain
      lowercased. */
  lemma CreateLowersEmailDomain(id: UserId, data: RegistrationData, lower: string -> string, nfkc: string -> string,
                                name: string, domain: string)
    requires data.email == name + "@" + domain && '@' !in domain
    requires PyRuntime.Strip(data.email) == data.email
    ensures Create(id, data, lower, nfkc).email == name + "@" + lower(domain)
  {
    NormalizeEmailLowersDomain(name, domain, lower);
  }

}
