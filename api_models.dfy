/** The server's tables (backend/api/models.py): ideas, comments and the like
    table, the field validators, the default orderings, and the two overridden
    `Like.save`/`Like.delete` methods that keep `likes_count` equal to the
    number of likes of the idea. */
module ApiModels {
  import Ordering

  type UserId = nat
  type IdeaId = nat
  type CommentId = nat

  /** A row of the idea table. Timestamps are integers that grow with time. */
  datatype Idea = Idea(
    id: IdeaId,
    title: string,
    description: string,
    pitcher: UserId,
    createdAt: int,
    updatedAt: int,
    likesCount: int)

  /** A row of the comment table. */
  datatype Comment = Comment(
    id: CommentId,
    idea: IdeaId,
    commenter: UserId,
    content: string,
    createdAt: int)

  const TitleMaxLength: nat := 200
  const TitleMinLength: nat := 10
  const DescriptionMinLength: nat := 50
  const CommentMinLength: nat := 5
  const DefaultLikesCount: int := 0

  /** The `max_length` and `MinLengthValidator` on `Idea.title`. */
  predicate ValidTitle(title: string) {
    TitleMinLength <= |title| <= TitleMaxLength
  }

  /** The `MinLengthValidator` on `Idea.description`. */
  predicate ValidDescription(description: string) {
    DescriptionMinLength <= |description|
  }

  /** The `MinLengthValidator` on `Comment.content`. */
  predicate ValidContent(content: string) {
    CommentMinLength <= |content|
  }

  /** `Idea.Meta.ordering = ['-likes_count', '-created_at']`. */
  function IdeaKey(idea: Idea): (int, int) {
    (idea.likesCount, idea.createdAt)
  }

  /** `Comment.Meta.ordering = ['-created_at']`. */
  function CommentKey(c: Comment): (int, int) {
    (c.createdAt, 0)
  }

  /** The idea rows as a query returns them: most liked first, then newest first. */
  function IdeasInModelOrder(ideas: seq<Idea>): (r: seq<Idea>)
    ensures multiset(r) == multiset(ideas)
    ensures Ordering.Descending(IdeaKey, r)
    ensures forall i, j :: 0 <= i < j < |r| ==>
      r[i].likesCount > r[j].likesCount
      || (r[i].likesCount == r[j].likesCount && r[i].createdAt >= r[j].createdAt)
  {
    Ordering.SortDescending(IdeaKey, ideas)
  }

  /** Newest first, as `Comment.Meta.ordering` lists comments. */
  predicate NewestFirst(cs: seq<Comment>) {
    Ordering.Descending(CommentKey, cs)
  }

  /** The comment rows as a query returns them. */
  function CommentsInModelOrder(cs: seq<Comment>): (r: seq<Comment>)
    ensures multiset(r) == multiset(cs)
    ensures forall i, j :: 0 <= i < j < |r| ==> r[i].createdAt >= r[j].createdAt
  {
    Ordering.SortDescending(CommentKey, cs)
  }

  /** The like table: one row per (user, idea) pair, which is what
      `unique_together = ['user', 'idea']` guarantees; a set holds each pair once. */
  type LikeTable = set<(UserId, IdeaId)>

  /** The users with a like row for `idea`: `idea.likes`. */
  function Likers(likes: LikeTable, idea: IdeaId): (r: set<UserId>)
    ensures forall u :: u in r <==> (u, idea) in likes
  {
    set p | p in likes && p.1 == idea :: p.0
  }

  /** The like rows of `idea`. */
  function LikeRows(likes: LikeTable, idea: IdeaId): set<(UserId, IdeaId)> {
    set p | p in likes && p.1 == idea
  }

  /** Rows of one idea differ in their user, so there are as many as users. */
  lemma {:induction false} RowsPerUser(rows: set<(UserId, IdeaId)>, idea: IdeaId)
    requires forall p :: p in rows ==> p.1 == idea
    ensures |set p | p in rows :: p.0| == |rows|
    decreases |rows|
  {
    if rows != {} {
      var x :| x in rows;
      var rest := rows - {x};
      RowsPerUser(rest, idea);
      assert (set p | p in rows :: p.0) == (set p | p in rest :: p.0) + {x.0};
      assert x.0 !in (set p | p in rest :: p.0);
    }
  }

  /** `idea.likes.count()`, as the number of users who like the idea. */
  function LikeCount(likes: LikeTable, idea: IdeaId): nat {
    |Likers(likes, idea)|
  }

  /** `LikeCount` is the number of like rows of the idea, which is what
      `likes.count()` counts. */
  lemma LikeCountIsRowCount(likes: LikeTable, idea: IdeaId)
    ensures LikeCount(likes, idea) == |LikeRows(likes, idea)|
  {
    var rows := LikeRows(likes, idea);
    RowsPerUser(rows, idea);
    assert Likers(likes, idea) == set p | p in rows :: p.0;
  }

  /** Saving a new like row adds one to its idea's count and leaves every
      other idea's count alone. */
  lemma SaveRecount(likes: LikeTable, user: UserId, idea: IdeaId, other: IdeaId)
    requires (user, idea) !in likes
    ensures LikeCount(likes + {(user, idea)}, idea) == LikeCount(likes, idea) + 1
    ensures other != idea ==> LikeCount(likes + {(user, idea)}, other) == LikeCount(likes, other)
  {
    assert Likers(likes + {(user, idea)}, idea) == Likers(likes, idea) + {user};
    assert other != idea ==> Likers(likes + {(user, idea)}, other) == Likers(likes, other);
  }

  /** Deleting a like row takes one from its idea's count and leaves every
      other idea's count alone. */
  lemma DeleteRecount(likes: LikeTable, user: UserId, idea: IdeaId, other: IdeaId)
    requires (user, idea) in likes
    ensures LikeCount(likes - {(user, idea)}, idea) == LikeCount(likes, idea) - 1
    ensures other != idea ==> LikeCount(likes - {(user, idea)}, other) == LikeCount(likes, other)
  {
    assert Likers(likes - {(user, idea)}, idea) == Likers(likes, idea) - {user};
    assert other != idea ==> Likers(likes - {(user, idea)}, other) == Likers(likes, other);
  }

  /** Every stored idea's `likes_count` is its number of likes. */
  ghost predicate CountsAgree(ideas: map<IdeaId, Idea>, likes: LikeTable) {
    forall i | i in ideas :: ideas[i].likesCount == LikeCount(likes, i)
  }

  /** The idea and like tables of the database. */
  class Database {
    var ideas: map<IdeaId, Idea>
    var likes: LikeTable

    /** Every like row refers to a stored idea, every idea is stored under its
        own id, and every idea's `likes_count` is its number of likes. */
    ghost predicate Valid()
      reads this
    {
      && (forall p | p in likes :: p.1 in ideas)
      && (forall i | i in ideas :: ideas[i].id == i)
      && CountsAgree(ideas, likes)
    }

    constructor ()
      ensures Valid() && ideas == map[] && likes == {}
    {
      ideas := map[];
      likes := {};
    }

    /** Inserting a new idea row; `likes_count` takes its default, which is
        what keeps the counts in agreement (a new idea has no likes). */
    method InsertIdea(idea: Idea)
      requires Valid() && idea.id !in ideas && idea.likesCount == DefaultLikesCount
      modifies this
      ensures Valid()
      ensures ideas == old(ideas)[idea.id := idea] && likes == old(likes)
    {
      assert Likers(likes, idea.id) == {};
      ideas := ideas[idea.id := idea];
    }

    /** `Like.save`: insert the row (the unique constraint refuses a second row
        for the same pair, and then nothing changes), then store the recount on
        the idea and save the idea, which also stamps `updated_at`. */
    method SaveLike(user: UserId, idea: IdeaId, now: int) returns (saved: bool)
      requires Valid() && idea in ideas
      modifies this
      ensures Valid()
      ensures saved <==> (user, idea) !in old(likes)
      ensures likes == if saved then old(likes) + {(user, idea)} else old(likes)
      ensures idea in ideas && ideas.Keys == old(ideas).Keys
      ensures saved ==> ideas[idea].likesCount == old(ideas)[idea].likesCount + 1
      ensures saved ==> ideas == old(ideas)[idea := old(ideas)[idea].(likesCount := LikeCount(likes, idea), updatedAt := now)]
      ensures !saved ==> ideas == old(ideas)
    {
      saved := (user, idea) !in likes;
      if saved {
        forall other | other in ideas
          ensures LikeCount(likes + {(user, idea)}, other) == if other == idea then LikeCount(likes, idea) + 1 else LikeCount(likes, other)
        {
          SaveRecount(likes, user, idea, other);
        }
        likes := likes + {(user, idea)};
        var count := LikeCount(likes, idea);
        ideas := ideas[idea := ideas[idea].(likesCount := count, updatedAt := now)];
      }
    }

    /** `Like.delete`: remove the row, then store the recount on the idea and
        save the idea. */
    method DeleteLike(user: UserId, idea: IdeaId, now: int)
      requires Valid() && (user, idea) in likes
      modifies this
      ensures Valid()
      ensures likes == old(likes) - {(user, idea)}
      ensures idea in ideas && ideas.Keys == old(ideas).Keys
      ensures ideas[idea].likesCount == old(ideas)[idea].likesCount - 1
      ensures ideas == old(ideas)[idea := old(ideas)[idea].(likesCount := LikeCount(likes, idea), updatedAt := now)]
    {
      forall other | other in ideas
        ensures LikeCount(likes - {(user, idea)}, other) == if other == idea then LikeCount(likes, idea) - 1 else LikeCount(likes, other)
      {
        DeleteRecount(likes, user, idea, other);
      }
      likes := likes - {(user, idea)};
      var count := LikeCount(likes, idea);
      ideas := ideas[idea := ideas[idea].(likesCount := count, updatedAt := now)];
    }
  }
}
