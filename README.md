# Startup-Pitcher: session and engagement core in Dafny

Startup-Pitcher is an idea-sharing site with a Django REST backend and a
React frontend. Users sign up, pitch ideas, like ideas and comment on
them. This project models the parts of both sides that hold state or
decide something. Every network exchange is split in two: the client
method returns the request it would send, and the server's answer is a
parameter of the method that handles it.

**Server** (`backend/api`):
- the idea, comment and like tables (`ApiModels`), including the like
  table's one-row-per-pair constraint and the recount of `likes_count` done
  by the overridden `Like.save` and `Like.delete`;
- the serializers (`ApiSerializers`): what the API sends for users,
  comments and ideas, `is_liked`, the fields a client may write, and the
  registration serializer's `validate` and `create`;
- the views (`ApiViews`): the owner-or-read-only permission, the like
  toggle, idea and comment creation, the five top ideas, and the login and
  registration endpoints.

**Client** (`frontend/src`):
- the session store `AuthProvider` (`AuthContext`): its token, the stored
  `'token'` entry, the default `Authorization` header, and `login`,
  `register` and `logout`;
- the idea card (`IdeaCardComponent`) and the idea page
  (`IdeaDetailPage`), with their like counters and the comment list;
- the three form pages (`RegisterPage`, `LoginPage`, `SubmitIdeaPage`),
  each a chain of checks that stops at the first failing one.

**Support modules:**
- `JsRuntime` models the JavaScript the client relies on: JSON values,
  truthiness and `||`, `?.`, `Object.values`, `flat`, `join` and `trim`.
- `PyRuntime` models Python's `str.strip`, which the REST framework's
  `CharField` applies to every submitted text value before it validates or
  stores it, and `str.rsplit`, with which Django splits an email address.
  `Whitespace` is the stripping itself, for either language's notion of
  white space.
- `Http` holds the request values.
- `Ordering` is a generic descending sort on a two-part key, which stands
  for a model's `Meta.ordering`.
- `Consistency` connects the two sides:
  - a card whose counter agrees with the like table still agrees after a
    like;
  - the page's prepend of a new comment keeps the server's newest-first
    order;
  - each page shows the text it does for the server's error bodies;
  - each client-side check relates to the matching server validator in a
    stated direction.

Behaviours of the code the model keeps:
- **No optimistic update.** The client changes `likes` and `isLiked` only
  after the server answers, and a failure leaves them as they were. There
  is nothing to roll back.
- **A token can exist without a user.** After start-up the stored token is
  read back, but `user` stays empty, so the session is not authenticated.
  The model's session invariant (`AuthContext.Coherent`) requires a token
  whenever there is a user, not the reverse.
- **A 401 does not end the session.** No code clears the session when the
  server answers 401.
- **The two sides trim differently.** The server's fields strip every
  submitted text before validating and storing it. The pages trim only for
  their blank checks, and measure and compare the text as typed. Every
  server field also refuses text holding U+0000, which the pages let
  through. The `Consistency` lemmas show where the two disagree.
- **The client's ±1 is relative to its own count.** On "unliked" the
  client subtracts one from the count it holds; it does not reconcile with
  any count on the server.

## Model

| member | source | states |
|---|---|---|
| Ordering.Insert | backend/api/models.py:13-14 | inserting into a descending list keeps it descending and adds exactly that element (multiset) |
| Ordering.SortDescending | backend/api/models.py:13-14 | the result is descending on the key and a permutation of the input |
| Ordering.PrefixListsBeforeRest | backend/api/views.py:73 | the first n elements of a descending list are a sub-multiset, and each ranks before every element left out |
| ApiModels.IdeasInModelOrder | backend/api/models.py:13-14 | ideas come back as a permutation, most liked first, ties newest first |
| ApiModels.CommentsInModelOrder | backend/api/models.py:25-26 | comments come back as a permutation, newest first |
| ApiModels.Likers | backend/api/models.py:45 | a user is among an idea's likers exactly when the pair is in the like table |
| ApiModels.LikeCountIsRowCount | backend/api/models.py:45 | `likes.count()`, modelled as the number of users who like the idea, equals the number of like rows of the idea |
| ApiModels.SaveRecount | backend/api/models.py:42-46 | adding a new pair raises that idea's count by one and leaves every other idea's count alone |
| ApiModels.DeleteRecount | backend/api/models.py:48-52 | removing a pair lowers that idea's count by one and leaves every other idea's count alone |
| ApiModels.Database.InsertIdea | backend/api/models.py:11 | a new idea with the default count 0 keeps every stored count equal to its number of likes |
| ApiModels.Database.SaveLike | backend/api/models.py:36-46 | a second row for a pair is refused (nothing changes); a new row is added, its idea's count becomes the recount (one more) with `updated_at` stamped, and the invariant holds |
| ApiModels.Database.DeleteLike | backend/api/models.py:48-52 | the row is removed, its idea's count becomes the recount (one less), and the invariant holds |
| ApiSerializers.UserRepresentation | backend/api/serializers.py:5-9 | id, username, email, first and last name are sent as stored; the type has no password |
| ApiSerializers.PasswordNeverSent | backend/api/serializers.py:8 | changing the stored password never changes what is sent about a user |
| ApiSerializers.CommentRepresentation | backend/api/serializers.py:11-17 | a comment is sent with its id, content, creation time and the representation of its commenter |
| ApiSerializers.GetIsLiked | backend/api/serializers.py:29-33 | false without a request or for an anonymous user; otherwise true exactly when that user likes the idea |
| ApiSerializers.CommentsOf | backend/api/serializers.py:21 | exactly the comments whose idea is the given one, each as often as stored |
| ApiSerializers.CommentsRepresentation | backend/api/serializers.py:11-17 | one serialized comment per comment, in the same order |
| ApiSerializers.OwnComments | backend/api/serializers.py:21 | the idea's own comments and no others, newest first, each as often as stored (the same multiset as `CommentsOf`) |
| ApiSerializers.IdeaRepresentation | backend/api/serializers.py:19-33 | the idea's id, title, description, timestamps and stored count, `is_liked` as `get_is_liked`, the pitcher's representation, and as many comments as the idea has, newest first |
| ApiSerializers.RepresentationsOfMembers | backend/api/serializers.py:21 | every comment of a list appears, serialized, in the list's serialization |
| ApiSerializers.ServedCommentsAreOwn | backend/api/serializers.py:21 | each comment sent with an idea represents one of that idea's comments, and each of its comments is sent |
| ApiSerializers.CleanCharField | backend/api/models.py:6-7 | a submitted text is refused exactly when it is missing, only white space or holds U+0000; otherwise it is taken stripped, and never empty |
| ApiSerializers.CharFieldMessages | backend/api/serializers.py:47-48 | a field's value gets no message exactly when it is not blank and holds no U+0000; "This field may not be blank." exactly when it is blank; "Null characters are not allowed." exactly when it is not blank and holds U+0000 |
| ApiSerializers.IdeaCreateFields | backend/api/serializers.py:35-38 | only title and description are read; both must be present, not blank and free of U+0000, and both are taken stripped |
| ApiSerializers.CommentCreateContent | backend/api/serializers.py:16-17 | only `content` is writable on a comment; it must be present, not blank and free of U+0000, and is taken stripped |
| ApiSerializers.IdeaCreateIgnoresReadOnly | backend/api/serializers.py:26-27 | two request bodies that agree on title and description create the same idea, whatever else they carry |
| ApiSerializers.Validate | backend/api/serializers.py:54-57 | valid exactly when the two passwords are equal; otherwise the single non-field error "Passwords don't match" |
| ApiSerializers.PasswordErrors | backend/api/serializers.py:47-48 | no error exactly when neither password is blank or holds U+0000; a password field gets "This field may not be blank." exactly when its value is only white space, and "Null characters are not allowed." exactly when it is not blank and holds U+0000 |
| ApiSerializers.CleanedIsStable | backend/api/serializers.py:47-52 | cleaning the values a second time changes nothing |
| ApiSerializers.RegistrationErrors | backend/api/views.py:83-91 | no errors exactly when no other field failed, neither password is blank or holds U+0000, and the stripped passwords match; field errors come first, in field order |
| ApiSerializers.CreateArguments | backend/api/serializers.py:60 | `password_confirm` is removed and every other key is kept unchanged |
| ApiSerializers.Create | backend/api/serializers.py:59-62 | `create_user` receives exactly the five user fields; the new user has the stripped username after NFKC normalisation, the stripped email after `normalize_email`, and the other submitted values stripped |
| ApiSerializers.NormalizeEmail | backend/api/serializers.py:61 | an address with no "@" is kept as given |
| ApiSerializers.NormalizeEmailLowersDomain | backend/api/serializers.py:61 | for `name@domain` without surrounding white space and no "@" in the domain, the name is kept and the domain lowercased |
| ApiSerializers.CreateLowersEmailDomain | backend/api/serializers.py:61 | a user registered as `name@domain` is stored with the name as typed and the domain lowercased |
| ApiViews.HasObjectPermission | backend/api/views.py:16-20 | safe methods are always allowed; any other method exactly when the requester is the pitcher |
| ApiViews.MayAccessIdea | backend/api/views.py:24 | a change is allowed only to the pitcher; reads always are |
| ApiViews.StatusCode | backend/api/views.py:44-46 | the like action answers 2xx exactly for liked (201) and unliked; an anonymous request gets 401 |
| ApiViews.LikeReplyFor | backend/api/views.py:34-46 | anonymous first, then a missing idea, then unliked exactly when the pair was stored and liked exactly when it was not |
| ApiViews.ToggledLikes | backend/api/views.py:39-46 | the requesting pair's membership flips and no other pair changes |
| ApiViews.ToggleTwice | backend/api/views.py:39-46 | two likes in a row by the same user restore the like table |
| ApiViews.ToggleRecount | backend/api/views.py:39-46 | a toggle moves the idea's count by one in the answer's direction and no other idea's count |
| ApiViews.Like | backend/api/views.py:34-46 | anonymous answers 401 and a missing idea 404, both changing nothing; otherwise "liked" (201, pair added, count +1) or "unliked" (200, pair removed, count -1), with the whole new idea map: only that idea changes, to the recount and the new `updated_at`; the database invariant is kept |
| ApiViews.CreateIdea | backend/api/views.py:31-32 | created exactly for a signed-in user whose title and description are present, not blank, free of U+0000 and valid once stripped; the stored idea has the stripped values, the requester as pitcher and count 0; anonymous gets 401 |
| ApiViews.CreateComment | backend/api/views.py:60-63 | created exactly for a signed-in user with content that is free of U+0000 and valid once stripped, on a stored idea; the stored comment has the stripped content, the requester as commenter and the idea from the URL; a missing idea is a server error |
| ApiViews.TopIdeas | backend/api/views.py:72-75 | exactly five ideas (all of them when there are fewer), all from the input, served in the model ordering, each ranking before every idea left out |
| ApiViews.LoginView | backend/api/views.py:97-117 | 400 "provide both" exactly when a field is missing or empty; 200 with the user and tokens exactly when authentication succeeds; 401 "Invalid credentials" otherwise |
| ApiViews.RegistrationView | backend/api/views.py:81-91 | 201 exactly when no other field failed, neither password is blank or holds U+0000 and the stripped passwords match, with the user as `create_user` stores it (username NFKC-normalised, email domain lowercased) and the refresh and access tokens issued for that created user; otherwise 400 with exactly the serializer's (non-empty) errors in field order, which are the password mismatch when no field failed |
| AuthContext.TokenEffect | frontend/src/context/AuthContext.js:22-28 | a present token is put into the `Authorization` header; an absent token leaves the state unchanged |
| AuthContext.Startup | frontend/src/context/AuthContext.js:18-28 | the token is read from storage but no user is known, so the session is not authenticated; the state is coherent |
| AuthContext.SignedIn | frontend/src/context/AuthContext.js:41-46 | `access` is stored under 'token', becomes the token and the header, and the user is set; other storage keys are untouched |
| AuthContext.LoginError | frontend/src/context/AuthContext.js:47-53 | the response's `error` field when truthy, else "Login failed" |
| AuthContext.RegisterError | frontend/src/context/AuthContext.js:70-76 | the whole response body when truthy, else "Registration failed"; never null |
| AuthContext.AfterAuth | frontend/src/context/AuthContext.js:30-77 | success signs in and reports success; failure changes nothing and reports the error |
| AuthContext.SignedOut | frontend/src/context/AuthContext.js:86-91 | token, user, stored token and header are gone; everything else in storage and headers is kept |
| AuthContext.LogoutRequest | frontend/src/context/AuthContext.js:81-83 | the logout request is sent exactly when a token is present |
| AuthContext.LogoutIdempotent | frontend/src/context/AuthContext.js:79-92 | a second logout changes nothing and sends no request |
| AuthContext.OperationsKeepCoherent | frontend/src/context/AuthContext.js:22-92 | login, register, logout and the effect keep token, storage, header and user coherent |
| AuthContext.AuthProvider.IsAuthenticated | frontend/src/context/AuthContext.js:101 | authenticated exactly when a user is known |
| AuthContext.AuthProvider.constructor | frontend/src/context/AuthContext.js:18-28 | the provider starts in the start-up state, with loading over |
| AuthContext.AuthProvider.RunTokenEffect | frontend/src/context/AuthContext.js:22-28 | the state becomes the effect's result and loading ends |
| AuthContext.AuthProvider.Login | frontend/src/context/AuthContext.js:30-54 | posts exactly the credentials; the new state and result are those of `AfterAuth` with the login error; loading ends on success and is kept on failure |
| AuthContext.AuthProvider.Register | frontend/src/context/AuthContext.js:56-77 | posts the form; the new state and result are those of `AfterAuth` with the registration error; loading ends on success and is kept on failure |
| AuthContext.AuthProvider.Logout | frontend/src/context/AuthContext.js:79-92 | sends the request only with a token; the state is signed out whether or not the request fails, and loading ends |
| IdeaCardComponent.AfterLikeAnswer | frontend/src/components/IdeaCard.js:20-31 | 'liked' gives +1 and liked; any other answer gives -1 and not liked; a failure (or a null body) keeps both |
| IdeaCardComponent.AnswerMovesByOne | frontend/src/components/IdeaCard.js:22-28 | the count never moves by more than one, and its direction matches the new flag |
| IdeaCardComponent.TruncateText | frontend/src/components/IdeaCard.js:36-39 | text of at most max characters is unchanged; longer text becomes its first max characters followed by "..." (length max+3) |
| IdeaCardComponent.TruncateIdempotent | frontend/src/components/IdeaCard.js:36-39 | truncating twice is truncating once, and no result exceeds max+3 |
| IdeaCardComponent.Preview | frontend/src/components/IdeaCard.js:56 | the card shows at most 153 characters of the description, and a short description whole |
| IdeaCardComponent.IdeaCard.constructor | frontend/src/components/IdeaCard.js:9-11 | the counter and flag start from the idea's `likes_count` and `is_liked`; not loading |
| IdeaCardComponent.IdeaCard.Click | frontend/src/components/IdeaCard.js:13-21 | signed out or loading: no request and no change; otherwise the like request is sent and loading starts, with the counter untouched |
| IdeaCardComponent.IdeaCard.Complete | frontend/src/components/IdeaCard.js:22-33 | the counter and flag become `AfterLikeAnswer` of the outcome; loading ends on both paths |
| IdeaDetailPage.BlankNeverSubmitted | frontend/src/pages/IdeaDetail.js:81 | input that is only white space is never submitted |
| IdeaDetailPage.IdeaDetail.constructor | frontend/src/pages/IdeaDetail.js:12-20 | the initial state: loading, no idea, no comments, count 0, not liked, no error |
| IdeaDetailPage.IdeaDetail.View | frontend/src/pages/IdeaDetail.js:30-113 | an invalid id shows the invalid-id message first; then the spinner; then the error or "Idea not found"; the idea is shown exactly when loaded without error, with the comment form for a signed-in user |
| IdeaDetailPage.IdeaDetail.Mount | frontend/src/pages/IdeaDetail.js:22-27 | the idea is fetched exactly when the id is present and not "undefined", and then loading is on; only `loading` may change |
| IdeaDetailPage.IdeaDetail.CompleteFetch | frontend/src/pages/IdeaDetail.js:40-54 | success takes over the idea and its comments, count and flag, all from the one response body; failure sets "Failed to load idea"; loading ends on both paths; the comment input and both in-flight flags stay |
| IdeaDetailPage.IdeaDetail.ClickLike | frontend/src/pages/IdeaDetail.js:56-64 | the card's guard: no request when signed out or loading; otherwise the request on the route id and loading starts; only `likeLoading` may change |
| IdeaDetailPage.IdeaDetail.CompleteLike | frontend/src/pages/IdeaDetail.js:65-76 | the card's ±1 rule; a failure keeps the counter; loading ends; only the counter, the flag and `likeLoading` may change |
| IdeaDetailPage.IdeaDetail.EditComment | frontend/src/pages/IdeaDetail.js:164 | the input holds the typed text; nothing else changes |
| IdeaDetailPage.IdeaDetail.SubmitComment | frontend/src/pages/IdeaDetail.js:79-87 | a request (with the untrimmed text) exactly when signed in, the input is not blank, and no comment is in flight, and then posting starts; only `commentLoading` may change |
| IdeaDetailPage.IdeaDetail.CompleteComment | frontend/src/pages/IdeaDetail.js:88-94 | a stored comment is prepended and the input cleared; a failure keeps both; posting ends on both paths; only the list, the input and `commentLoading` may change |
| RegisterPage.RegisterValidation | frontend/src/pages/Register.js:33-49 | the first failing check in the order required fields, matching passwords, length at least 8, each message exactly when its check is the first to fail |
| RegisterPage.NamesNotChecked | frontend/src/pages/Register.js:33-49 | first and last name never affect the outcome |
| RegisterPage.ErrorText | frontend/src/pages/Register.js:56-59 | an object error becomes its values, flattened and joined with ", "; any other error is shown as it is |
| RegisterPage.RegisterForm.Submit | frontend/src/pages/Register.js:27-63 | a failed check shows its message and calls nothing; otherwise `register` gets the form, and success goes home while failure shows the error text; loading is false at the end |
| LoginPage.LoginValidation | frontend/src/pages/Login.js:28-32 | "Please fill in all fields" exactly when a field is empty |
| LoginPage.LoginForm.Submit | frontend/src/pages/Login.js:23-43 | an empty field calls nothing; otherwise `login` gets exactly the two fields, and failure shows `result.error`; loading is false at the end |
| SubmitIdeaPage.IdeaValidation | frontend/src/pages/SubmitIdea.js:31-47 | blank after trimming, then untrimmed title under 10, then untrimmed description under 50, each message exactly when its check is the first to fail |
| SubmitIdeaPage.BlankFieldIffWhiteSpace | frontend/src/pages/SubmitIdea.js:31 | the blank check holds exactly when a field has only white space |
| SubmitIdeaPage.SubmitFailureMessage | frontend/src/pages/SubmitIdea.js:58-60 | the first title error, else the first description error, else the generic message |
| SubmitIdeaPage.DetailRoute | frontend/src/pages/SubmitIdea.js:55 | the route after a success is `/idea/` followed by the text of the body's `id`, and `/idea/undefined` when there is none |
| SubmitIdeaPage.SubmitIdeaForm.Submit | frontend/src/pages/SubmitIdea.js:25-64 | a failed check sends nothing; success shows the success message, empties both fields and sets the redirect route; failure shows the chosen message and keeps the fields; loading is false at the end |
| JsRuntime.Or | frontend/src/context/AuthContext.js:51 | logical or on a possibly undefined left value: the left value when present and truthy, else the right |
| JsRuntime.Lookup | frontend/src/pages/SubmitIdea.js:58 | absent exactly when no member has the key; a found value belongs to a member with that key |
| JsRuntime.Member | frontend/src/pages/SubmitIdea.js:58 | `?.` finds a member only on an object, and there by key |
| JsRuntime.Index0 | frontend/src/pages/SubmitIdea.js:58 | `?.[0]` gives the first element of a non-empty array, a member "0" of an object, and nothing for null, booleans, numbers or undefined |
| JsRuntime.StringOf | frontend/src/pages/SubmitIdea.js:55 | a template literal writes a missing value as "undefined", null as "null", a number in decimal and a string as it is |
| JsRuntime.Values | frontend/src/pages/Register.js:57 | the elements of an array, or the member values of an object in order |
| JsRuntime.Flat | frontend/src/pages/Register.js:57 | with no nested arrays, flattening changes nothing |
| Whitespace.DropLeadingRemovesBlankPrefix | frontend/src/pages/SubmitIdea.js:31 | what is removed is a white-space prefix, and what is left does not start with white space |
| Whitespace.DropTrailingRemovesBlankSuffix | frontend/src/pages/SubmitIdea.js:31 | what is removed is a white-space suffix, and what is left does not end with white space |
| Whitespace.StripBounds | frontend/src/pages/SubmitIdea.js:31 | the stripped text is a slice with only white space around it that, unless empty, starts and ends with a character that is not white space |
| Whitespace.StripEmptyIffBlank | frontend/src/pages/IdeaDetail.js:81 | stripping gives "" exactly for text made only of white space, and never lengthens the text |
| Whitespace.StripExactly | backend/api/serializers.py:47-48 | stripping removes exactly the white space around the first and last characters that are not white space |
| Whitespace.StripIdempotent | backend/api/serializers.py:47-48 | stripping twice is stripping once |
| Whitespace.StripKeeps | backend/api/serializers.py:47-48 | a character that is not white space is in the stripped text exactly when it is in the text |
| JsRuntime.Trim | frontend/src/pages/SubmitIdea.js:31 | `trim()` never lengthens a string |
| PyRuntime.Strip | backend/api/serializers.py:47-48 | `strip()` never lengthens a string and gives "" exactly for text made only of Python white space |
| PyRuntime.StripIdempotent | backend/api/serializers.py:47-48 | a stripped value stays as it is when stripped again |
| PyRuntime.StripKeeps | backend/api/serializers.py:47-48 | stripping keeps U+0000 and every other character that is not Python white space |
| PyRuntime.RSplitOnce | backend/api/serializers.py:61 | None exactly when the separator does not occur; otherwise the text is the first part, the separator and the second part, which holds no separator |
| PyRuntime.RSplitOnceOfJoin | backend/api/serializers.py:61 | splitting at the last separator undoes joining with one when the second part holds none |
| JsRuntime.TrimEmptyIffBlank | frontend/src/pages/IdeaDetail.js:81 | `trim()` gives "" exactly for strings made only of white space |
| Consistency.ClientOutcome | backend/api/views.py:44-46 | 2xx replies reach the client with a body saying 'liked' exactly for a like; 401 and 404 make the request fail |
| Consistency.CardStaysConsistent | frontend/src/components/IdeaCard.js:22-28 | a counter and flag that agree with the like table still agree after the server's toggle and recount and the client's ±1 |
| Consistency.FreshCardConsistent | frontend/src/components/IdeaCard.js:9-10 | a card built from the server's representation of a stored idea starts in agreement with the like table |
| Consistency.LikeRoundTrip | frontend/src/components/IdeaCard.js:13-33 | click, server like action and answer handling on the stored tables keep the card in agreement with the database |
| Consistency.PrependKeepsNewestFirst | frontend/src/pages/IdeaDetail.js:88 | prepending a comment no older than the first keeps the list newest first; the hypothesis stands for a server clock that never runs backwards |
| Consistency.ErrorsJson | backend/api/views.py:91 | the error map becomes an object with one string array per field, in order |
| Consistency.FlatErrorValues | frontend/src/pages/Register.js:57 | the flattened values of the error object are all messages, field after field |
| Consistency.JoinStrings | frontend/src/pages/Register.js:57 | joining JSON strings is joining their texts |
| Consistency.RegisterErrorShown | frontend/src/pages/Register.js:56-59 | a refused registration shows every server message in order, separated by ", " |
| Consistency.MismatchShown | backend/api/serializers.py:54-57 | passwords that differ once stripped, neither blank nor holding U+0000, give 400 and the page shows "Passwords don't match" |
| Consistency.ClientAuthOutcome | backend/api/views.py:110-117 | the client accepts exactly the 2xx replies that carry tokens, with their access token and user |
| Consistency.LoginRoundTrip | frontend/src/context/AuthContext.js:30-54 | through the login view, the session becomes authenticated exactly when the credentials are accepted; bad credentials leave it as it was and report "Invalid credentials" |
| Consistency.LoginCheckCoversServer | frontend/src/pages/Login.js:28-32 | the page lets an attempt through exactly when the server would not answer 400 |
| Consistency.CreatedIdeaJson | backend/api/serializers.py:35-38 | as written, the body answering a creation has the title but no `id` member |
| Consistency.CreatedIdeaLinksToUndefined | frontend/src/pages/SubmitIdea.js:55 | as written, the redirect after a successful submission goes to `/idea/undefined`, an id the idea page rejects |
| Consistency.CreatedIdeaJsonWithId | backend/api/serializers.py:35-38 | corrected: the body answering a creation carries the new idea's id |
| Consistency.ClientSubmitOutcome | frontend/src/pages/SubmitIdea.js:49-57 | a created idea reaches the page as a success carrying the corrected body; every refusal as a failure |
| Consistency.CreatedIdeaLinksToIdea | frontend/src/pages/SubmitIdea.js:55 | with the corrected body, the redirect goes to the created idea's own page, whose id the idea page accepts |
| Consistency.IdeaCheckImpliesCreated | frontend/src/pages/SubmitIdea.js:31-47 | an idea the page lets through, with a title of at most 200, no white space around either field and no U+0000 in either, is created by the server |
| Consistency.BlankTitleRefusedByBoth | frontend/src/pages/SubmitIdea.js:31-35 | a title of ten spaces is refused by the page as blank and by the server with 400 |
| Consistency.PaddedTitleOnlyRefusedByServer | frontend/src/pages/SubmitIdea.js:37-41 | "Idea" followed by six spaces passes the page's untrimmed length check, and the server, which measures the stripped title, refuses it with 400 |
| Consistency.NullTitleOnlyRefusedByServer | frontend/src/pages/SubmitIdea.js:31-47 | a title holding U+0000 passes the page, which has no rule about it, and the server refuses it with 400 |
| Consistency.RegisterCheckImpliesServer | frontend/src/pages/Register.js:33-49 | a form the page lets through, with a password that is not all white space and holds no U+0000, passes every server check except the framework's other field errors |
| Consistency.ShortPasswordOnlyRefusedByClient | frontend/src/pages/Register.js:45-49 | a five-character password is refused by the page and registered by the server (201) |
| Consistency.BlankPasswordOnlyRefusedByServer | frontend/src/pages/Register.js:33-49 | eight spaces pass the page's checks, and the server answers 400 with "This field may not be blank." for the password |
| Consistency.NullPasswordOnlyRefusedByServer | frontend/src/pages/Register.js:33-49 | a nine-character password holding U+0000, typed twice, passes the page's checks, and the server answers 400 with "Null characters are not allowed." for both password fields |
| Consistency.PaddedPasswordsOnlyRefusedByClient | frontend/src/pages/Register.js:39-43 | passwords differing only in a trailing space are refused by the page and registered by the server, which compares them stripped |
| Consistency.ShortCommentSentThenRefused | frontend/src/pages/IdeaDetail.js:81 | the comment form sends "ok", and the comment endpoint (`CommentViewSet.create`) refuses it with 400; the page's own request goes to a path without a route, so the page does not get that answer |

## Left out

- Sending requests is not modelled: axios, HTTP transport, the content-type headers and the base URL. Client methods return the request they would send, and the answer comes in as a parameter. For a like, that parameter is the body of a 2xx answer or a failure.
- React itself is not modelled: rendering, re-rendering, effect scheduling, unmounting, `alert`, `console.error`, date formatting and the two-second delay of the navigation after a submission. The route of that navigation is a field; navigation after login or registration is a flag.
- Django's `authenticate`, session `login`, `RefreshToken` and password hashing are library calls. They are function parameters or are left out; the stored password is the submitted one after stripping, not its hash.
- ApiSerializers.Create: Python's `str.lower` and Unicode NFKC normalisation, which `create_user` applies to the email's domain and to the username, come in as the function parameters `lower` and `nfkc`; their Unicode tables are not modelled.
- The ORM is not modelled: queries, `get_or_create`, and auto timestamps (these are an integer parameter `now`). The framework's field errors (for example a username already taken) come in as a given error map.
- Requests that arrive at the same time and database transactions are not modelled. Each server call is one atomic step.
- JavaScript string lengths count UTF-16 code units, while Dafny counts characters. The two differ only outside the Basic Multilingual Plane.
- JSON numbers are integers. A duplicated member name in a JSON object is looked up by its first occurrence.
- JsRuntime.Values: object values come in the order the members were written. JavaScript lists members whose names look like array indices first, in ascending order. No body in this system has such a name, so the model does not reorder them.
- ApiSerializers.RegistrationErrors: the errors of username, email and the two names (a taken username, a malformed address, a name over 150 characters) come in as the parameters `before` and `after`. The Django validators that produce them are not modelled. A registration body always carries all six fields, so the "required" error of a missing password is not modelled.
- ApiViews.CreateIdea and ApiViews.CreateComment: a refusal is a status code only. The framework's messages ("This field may not be blank.", "Null characters are not allowed.", the length messages) are not written into the reply.
- Consistency.CreatedIdeaJsonWithId: the rest of the model uses the corrected creation body (see Findings). The body as written is `Consistency.CreatedIdeaJson`.
- SubmitIdeaPage.DetailRoute: a `null` response body would make `response.data.id` throw inside the timer. The model treats it like a body without `id`.
- `UserLogoutView`, the `comments` GET action, the update and delete endpoints beyond their permission check, and the `urls.py` routing are not modelled.
- The page posts comments to `/api/ideas/{id}/add_comment/`, and no route in `backend/api/urls.py` declares that path. The model keeps the path as written, and the server's answer is a parameter.
- IdeaDetail's comment handler is modelled with the disabled-button condition included: no request while a comment is in flight. The handler itself checks only for blank input.
- Consistency.ClientOutcome: a refused anonymous like is treated as 401 (bearer-token authentication). The authentication settings are not part of this model.
- ApiViews.LoginView: `request.data.get` on a non-string value is not modelled. The fields are strings or absent.
- Consistency.AuthBodyJson: the user object in a token reply is reduced to its id. The client passes the user on without reading its fields.
- IdeaDetailPage.IdeaDetail.CompleteFetch: the response is taken as a well-formed idea: `likes_count` is an integer, `is_liked` a boolean and `comments` an array. A response that lacks them is not modelled.
- The Home, TopIdeas, Navbar, Footer and App components, `setup.py`, the sample-data script and the HTTP test script are display or I/O code and are not modelled.

## Findings

| source | as written | input that shows it | evidently intended | confidence | as-written member | corrected member |
|---|---|---|---|---|---|---|
| backend/api/serializers.py:35-38 | `IdeaViewSet.create` answers with `IdeaCreateSerializer`'s data, which has only title and description, and the page then navigates to `/idea/${response.data.id}` (frontend/src/pages/SubmitIdea.js:55) | any successful idea submission: the page moves to `/idea/undefined`, and the idea page shows its invalid-id message | the creation answer carries the new idea's id, so the page moves to that idea | high, not executed | Consistency.CreatedIdeaLinksToUndefined | Consistency.CreatedIdeaLinksToIdea |
