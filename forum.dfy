/** The forum routes (`/api/forum`): create, list, get, update, soft delete,
    like, dislike, and add, edit and delete a comment, over a store that maps
    post ids to post documents. */
module Forum {
  import opened Common
  import opened Users
  import opened Auth
  import opened Posts

  const Categories: seq<string> := ["general", "donation-stories", "volunteering", "fundraising", "community", "news", "help"]

  const TitleError := FieldError("title", "Title must be between 5 and 200 characters")
  const ContentError := FieldError("content", "Content must be between 20 and 10000 characters")
  const CategoryError := FieldError("category", "Invalid category")
  const CommentError := FieldError("content", "Comment must be between 1 and 2000 characters")

  const PostNotFound := Reply(404, "Post not found")
  const CommentNotFound := Reply(404, "Comment not found")

  /** A missing text field reads as ""; `tags` and `relatedDonation` are
      optional and, when given, an array and an id. */
  datatype CreatePostRequest = CreatePostRequest(
    title: string, content: string, category: string, tags: Option<seq<string>>, relatedDonation: Option<Id>)

  function CreateErrors(q: CreatePostRequest): (errs: seq<FieldError>)
    ensures TitleError in errs <==> !LengthIn(q.title, 5, 200)
    ensures ContentError in errs <==> !LengthIn(q.content, 20, 10000)
    ensures CategoryError in errs <==> q.category !in Categories
    ensures errs == [] <==> (LengthIn(q.title, 5, 200) && LengthIn(q.content, 20, 10000) && q.category in Categories)
  {
    Check(LengthIn(q.title, 5, 200), TitleError)
    + Check(LengthIn(q.content, 20, 10000), ContentError)
    + Check(q.category in Categories, CategoryError)
  }

  /** The document a valid create request stores. */
  function NewPost(q: CreatePostRequest, author: Id, now: Time): PostDoc {
    PostDoc(q.title, q.content, author, q.category, q.tags.GetOr([]), [], [], 0, false, false,
            Active, q.relatedDonation, [], now)
  }

  /** The schema limits a valid create request can still break: the
      validators count characters, `maxlength` counts UTF-16 code units. */
  predicate CreateFits(q: CreatePostRequest) {
    WithinMaxLength(q.title, 200) && WithinMaxLength(q.content, 10000)
  }

  datatype PostUpdateRequest = PostUpdateRequest(
    title: Option<string>, content: Option<string>, category: Option<string>, tags: Option<seq<string>>)

  function UpdateErrors(q: PostUpdateRequest): (errs: seq<FieldError>)
    ensures TitleError in errs <==> q.title.Some? && !LengthIn(q.title.value, 5, 200)
    ensures ContentError in errs <==> q.content.Some? && !LengthIn(q.content.value, 20, 10000)
    ensures CategoryError in errs <==> q.category.Some? && q.category.value !in Categories
    ensures errs == [] <==> ((q.title.None? || LengthIn(q.title.value, 5, 200))
                             && (q.content.None? || LengthIn(q.content.value, 20, 10000))
                             && (q.category.None? || q.category.value in Categories))
  {
    Check(q.title.None? || LengthIn(q.title.value, 5, 200), TitleError)
    + Check(q.content.None? || LengthIn(q.content.value, 20, 10000), ContentError)
    + Check(q.category.None? || q.category.value in Categories, CategoryError)
  }

  /** The update validators that `runValidators` applies to the supplied
      fields. */
  predicate UpdateFits(q: PostUpdateRequest) {
    (q.title.None? || WithinMaxLength(q.title.value, 200))
    && (q.content.None? || WithinMaxLength(q.content.value, 10000))
  }

  /** The `updateFields` object of the update route: each truthy field is
      copied. After validation every supplied text is non-empty and arrays
      are truthy, so exactly the supplied fields are copied. */
  method BuildUpdate(q: PostUpdateRequest) returns (fields: PostUpdateRequest)
    ensures UpdateErrors(q) == [] ==> fields == q
    ensures fields.title.Some? ==> fields.title == q.title
    ensures fields.content.Some? ==> fields.content == q.content
  {
    fields := PostUpdateRequest(None, None, None, None);
    if q.title.Some? && q.title.value != "" { fields := fields.(title := q.title); }
    if q.content.Some? && q.content.value != "" { fields := fields.(content := q.content); }
    if q.category.Some? && q.category.value != "" { fields := fields.(category := q.category); }
    if q.tags.Some? { fields := fields.(tags := q.tags); }
  }

  function Revised(d: PostDoc, q: PostUpdateRequest): PostDoc {
    d.(title := q.title.GetOr(d.title), content := q.content.GetOr(d.content),
       category := q.category.GetOr(d.category), tags := q.tags.GetOr(d.tags))
  }

  /** The list route's `category` and `author` query parameters. */
  datatype ListParams = ListParams(category: Option<string>, author: Option<Id>)

  /** The ids the list route can return (before search, sorting and paging):
      posts whose status is 'active', narrowed by each truthy parameter. */
  function ListPosts(posts: map<Id, PostDoc>, p: ListParams): (ids: set<Id>)
    ensures ids <= posts.Keys
    ensures forall id :: id in ids ==> posts[id].status == Active
    ensures forall id :: id in ids && p.author.Some? ==> posts[id].author == p.author.value
    ensures forall id :: id in ids && p.category.Some? && p.category.value != "" ==> posts[id].category == p.category.value
    ensures forall id :: id in posts && posts[id].status == Active && p == ListParams(None, None) ==> id in ids
    ensures forall id :: id in ids <==> (
              && id in posts
              && posts[id].status == Active
              && (p.category.None? || p.category.value == "" || posts[id].category == p.category.value)
              && (p.author.None? || posts[id].author == p.author.value))
  {
    set id | id in posts && posts[id].status == Active
                         && (p.category.None? || p.category.value == "" || posts[id].category == p.category.value)
                         && (p.author.None? || posts[id].author == p.author.value)
  }

  /** `post.comments.id(cid)`: the position of the comment with that id. */
  function FindComment(cs: seq<Comment>, cid: Id): (r: Option<nat>)
    ensures r.Some? ==> r.value < |cs| && cs[r.value].id == cid
    ensures r.None? ==> forall c :: c in cs ==> c.id != cid
  {
    if cs == [] then None
    else if cs[0].id == cid then Some(0)
    else
      var rest := FindComment(cs[1..], cid);
      assert forall c :: c in cs ==> c == cs[0] || c in cs[1..];
      if rest.None? then None else Some(rest.value + 1)
  }

  /** `comment.remove()`: the comment at position i leaves the list. */
  function RemoveAt(cs: seq<Comment>, i: nat): seq<Comment>
    requires i < |cs|
  {
    cs[..i] + cs[i + 1..]
  }

  /** Where each remaining comment sat before the removal. */
  lemma RemoveAtShifts(cs: seq<Comment>, i: nat)
    requires i < |cs|
    ensures |RemoveAt(cs, i)| == |cs| - 1
    ensures forall k :: 0 <= k < i ==> RemoveAt(cs, i)[k] == cs[k]
    ensures forall k :: i <= k < |cs| - 1 ==> RemoveAt(cs, i)[k] == cs[k + 1]
  {
  }

  /** With unique ids, the comments left are exactly those with another id. */
  lemma RemoveKeepsOthers(cs: seq<Comment>, i: nat)
    requires UniqueIds(cs) && i < |cs|
    ensures forall c :: c in RemoveAt(cs, i) <==> c in cs && c.id != cs[i].id
  {
    var r := RemoveAt(cs, i);
    RemoveAtShifts(cs, i);
    forall c | c in r ensures c in cs && c.id != cs[i].id {
      var k :| 0 <= k < |r| && r[k] == c;
      if k < i {
        assert cs[k] == c && cs[k].id != cs[i].id;
      } else {
        assert cs[k + 1] == c && cs[i].id != cs[k + 1].id;
      }
    }
    forall c | c in cs && c.id != cs[i].id ensures c in r {
      var k :| 0 <= k < |cs| && cs[k] == c;
      if k < i {
        assert r[k] == c;
      } else {
        assert k != i && r[k - 1] == c;
      }
    }
  }

  /** Removing a comment keeps the remaining ids unique. */
  lemma RemoveKeepsUnique(cs: seq<Comment>, i: nat)
    requires UniqueIds(cs) && i < |cs|
    ensures UniqueIds(RemoveAt(cs, i))
  {
    var r := RemoveAt(cs, i);
    RemoveAtShifts(cs, i);
    forall a, b | 0 <= a < b < |r| ensures r[a].id != r[b].id {
      var a' := if a < i then a else a + 1;
      var b' := if b < i then b else b + 1;
      assert r[a] == cs[a'] && r[b] == cs[b'];
    }
  }

  /** With unique ids, removing the comment found for `cid` removes exactly
      the comment with that id and keeps every other one, in order. */
  lemma RemoveExactlyThat(cs: seq<Comment>, i: nat)
    requires UniqueIds(cs) && i < |cs|
    ensures |RemoveAt(cs, i)| == |cs| - 1
    ensures forall c :: c in RemoveAt(cs, i) <==> c in cs && c.id != cs[i].id
    ensures UniqueIds(RemoveAt(cs, i))
  {
    RemoveKeepsOthers(cs, i);
    RemoveKeepsUnique(cs, i);
  }

  /** The stored posts. */
  class ForumStore {
    var posts: map<Id, PostDoc>
    var nextId: Id

    /** Ids are below the next fresh id; every post keeps the schema's
        length limits, consistent reactions and unique comment ids. */
    ghost predicate Valid()
      reads this
    {
      forall id :: id in posts ==>
        && id < nextId
        && WithinSchema(posts[id])
        && Consistent(Reactions(posts[id].likes, posts[id].dislikes))
        && UniqueIds(posts[id].comments)
    }

    constructor ()
      ensures Valid() && posts == map[]
    {
      posts, nextId := map[], 0;
    }

    /** POST /api/forum */
    method Create(access: Access, q: CreatePostRequest, now: Time, users: UserDirectory) returns (r: Response)
      requires Valid() && FromAuth(access)
      modifies this, users
      ensures Valid()
      ensures access.Denied? ==> r == Reply(access.status, access.message)
      ensures access.Granted? && CreateErrors(q) != [] ==> r == Invalid(CreateErrors(q))
      ensures access.Granted? && CreateErrors(q) == [] && !CreateFits(q) ==> r == ServerError
      ensures r.Code() == 201 <==> access.Granted? && CreateErrors(q) == [] && CreateFits(q)
      ensures r.Code() != 201 ==> posts == old(posts) && nextId == old(nextId) && users.accounts == old(users.accounts)
      ensures r.Code() == 201 ==> (old(nextId) !in old(posts)
                                   && posts == old(posts)[old(nextId) := NewPost(q, access.user.id, now)]
                                   && users.accounts == CountPost(old(users.accounts), access.user.id))
    {
      if access.Denied? {
        return Reply(access.status, access.message);
      }
      var errs := CreateErrors(q);
      if errs != [] {
        return Invalid(errs);
      }
      var post := new ForumPost.New(q.title, q.content, q.category, q.tags.GetOr([]), q.relatedDonation,
                                    access.user.id, now);
      if !WithinSchema(post.Snapshot()) {
        return ServerError;
      }
      posts := posts[nextId := post.Snapshot()];
      nextId := nextId + 1;
      users.IncrementPosts(access.user.id);
      r := Reply(201, "Post created successfully");
    }

    /** GET /api/forum/:id: a missing or soft-deleted post is not found; a
        signed-in viewer adds one view. */
    method Get(id: Id, viewer: Option<User>) returns (r: Response, body: Option<PostDoc>)
      requires Valid()
      modifies this
      ensures Valid() && nextId == old(nextId)
      ensures r.Code() == 200 <==> id in old(posts) && old(posts)[id].status != Deleted
      ensures r.Code() != 200 ==> r == PostNotFound && body.None? && posts == old(posts)
      ensures r.Code() == 200 && viewer.None? ==> posts == old(posts) && body == Some(posts[id])
      ensures r.Code() == 200 && viewer.Some? ==>
                posts == old(posts)[id := old(posts)[id].(views := old(posts)[id].views + 1)] && body == Some(posts[id])
    {
      if id !in posts || posts[id].status == Deleted {
        return PostNotFound, None;
      }
      var post := new ForumPost.Load(posts[id]);
      if viewer.Some? {
        post.IncrementViews();
        posts := posts[id := post.Snapshot()];
      }
      r, body := Reply(200, ""), Some(post.Snapshot());
    }

    /** PUT /api/forum/:id */
    method Update(access: Access, id: Id, q: PostUpdateRequest) returns (r: Response)
      requires Valid() && FromAuth(access)
      modifies this
      ensures Valid() && nextId == old(nextId)
      ensures access.Denied? ==> r == Reply(access.status, access.message)
      ensures access.Granted? && UpdateErrors(q) != [] ==> r == Invalid(UpdateErrors(q))
      ensures access.Granted? && UpdateErrors(q) == [] && id !in old(posts) ==> r == PostNotFound
      ensures access.Granted? && UpdateErrors(q) == [] && id in old(posts) && old(posts)[id].author != access.user.id
              ==> r == Reply(403, "Not authorized to update this post")
      ensures (access.Granted? && UpdateErrors(q) == [] && id in old(posts) && old(posts)[id].author == access.user.id
               && !UpdateFits(q)) ==> r == ServerError
      ensures r.Code() == 200 <==> (access.Granted? && UpdateErrors(q) == [] && id in old(posts)
                                    && old(posts)[id].author == access.user.id && UpdateFits(q))
      ensures r.Code() != 200 ==> posts == old(posts)
      ensures r.Code() == 200 ==> posts == old(posts)[id := Revised(old(posts)[id], q)]
    {
      if access.Denied? {
        return Reply(access.status, access.message);
      }
      var errs := UpdateErrors(q);
      if errs != [] {
        return Invalid(errs);
      }
      if id !in posts {
        return PostNotFound;
      }
      if posts[id].author != access.user.id {
        return Reply(403, "Not authorized to update this post");
      }
      var fields := BuildUpdate(q);
      if !WithinSchema(Revised(posts[id], fields)) {
        return ServerError;
      }
      posts := posts[id := Revised(posts[id], fields)];
      r := Reply(200, "Post updated successfully");
    }

    /** DELETE /api/forum/:id: a soft delete, which keeps the record. */
    method Delete(access: Access, id: Id) returns (r: Response)
      requires Valid() && FromAuth(access)
      modifies this
      ensures Valid() && nextId == old(nextId)
      ensures access.Denied? ==> r == Reply(access.status, access.message)
      ensures access.Granted? && id !in old(posts) ==> r == PostNotFound
      ensures access.Granted? && id in old(posts) && old(posts)[id].author != access.user.id
              ==> r == Reply(403, "Not authorized to delete this post")
      ensures r.Code() == 200 <==> access.Granted? && id in old(posts) && old(posts)[id].author == access.user.id
      ensures r.Code() != 200 ==> posts == old(posts)
      ensures r.Code() == 200 ==> posts == old(posts)[id := old(posts)[id].(status := Deleted)]
    {
      if access.Denied? {
        return Reply(access.status, access.message);
      }
      if id !in posts {
        return PostNotFound;
      }
      var post := new ForumPost.Load(posts[id]);
      if post.author != access.user.id {
        return Reply(403, "Not authorized to delete this post");
      }
      post.status := Deleted;
      posts := posts[id := post.Snapshot()];
      r := Reply(200, "Post deleted successfully");
    }

    /** POST /api/forum/:id/like, which answers with the two counts. */
    method Like(access: Access, id: Id) returns (r: Response, likeCount: nat, dislikeCount: nat)
      requires Valid() && FromAuth(access)
      modifies this
      ensures Valid() && nextId == old(nextId)
      ensures access.Denied? ==> r == Reply(access.status, access.message)
      ensures access.Granted? && id !in old(posts) ==> r == PostNotFound
      ensures r.Code() == 200 <==> access.Granted? && id in old(posts)
      ensures r.Code() != 200 ==> posts == old(posts)
      ensures r.Code() == 200 ==>
                var after := Liked(Reactions(old(posts)[id].likes, old(posts)[id].dislikes), access.user.id);
                posts == old(posts)[id := old(posts)[id].(likes := after.likes, dislikes := after.dislikes)]
                && access.user.id in posts[id].likes && access.user.id !in posts[id].dislikes
                && likeCount == |posts[id].likes| && dislikeCount == |posts[id].dislikes|
    {
      if access.Denied? {
        return Reply(access.status, access.message), 0, 0;
      }
      if id !in posts {
        return PostNotFound, 0, 0;
      }
      var post := new ForumPost.Load(posts[id]);
      post.AddLike(access.user.id);
      posts := posts[id := post.Snapshot()];
      r, likeCount, dislikeCount := Reply(200, "Post liked successfully"), post.LikeCount(), post.DislikeCount();
    }

    /** POST /api/forum/:id/dislike */
    method Dislike(access: Access, id: Id) returns (r: Response, likeCount: nat, dislikeCount: nat)
      requires Valid() && FromAuth(access)
      modifies this
      ensures Valid() && nextId == old(nextId)
      ensures access.Denied? ==> r == Reply(access.status, access.message)
      ensures access.Granted? && id !in old(posts) ==> r == PostNotFound
      ensures r.Code() == 200 <==> access.Granted? && id in old(posts)
      ensures r.Code() != 200 ==> posts == old(posts)
      ensures r.Code() == 200 ==>
                var after := Disliked(Reactions(old(posts)[id].likes, old(posts)[id].dislikes), access.user.id);
                posts == old(posts)[id := old(posts)[id].(likes := after.likes, dislikes := after.dislikes)]
                && access.user.id in posts[id].dislikes && access.user.id !in posts[id].likes
                && likeCount == |posts[id].likes| && dislikeCount == |posts[id].dislikes|
    {
      if access.Denied? {
        return Reply(access.status, access.message), 0, 0;
      }
      if id !in posts {
        return PostNotFound, 0, 0;
      }
      var post := new ForumPost.Load(posts[id]);
      post.AddDislike(access.user.id);
      posts := posts[id := post.Snapshot()];
      r, likeCount, dislikeCount := Reply(200, "Post disliked successfully"), post.LikeCount(), post.DislikeCount();
    }

    /** POST /api/forum/:id/comments */
    method AddComment(access: Access, id: Id, text: string, now: Time) returns (r: Response)
      requires Valid() && FromAuth(access)
      modifies this
      ensures Valid() && nextId == old(nextId)
      ensures access.Denied? ==> r == Reply(access.status, access.message)
      ensures access.Granted? && !LengthIn(text, 1, 2000) ==> r == Invalid([CommentError])
      ensures access.Granted? && LengthIn(text, 1, 2000) && id !in old(posts) ==> r == PostNotFound
      ensures access.Granted? && LengthIn(text, 1, 2000) && id in old(posts) && old(posts)[id].isLocked
              ==> r == Reply(400, "This post is locked and cannot receive new comments")
      ensures r.Code() == 200 <==> (access.Granted? && LengthIn(text, 1, 2000) && id in old(posts)
                                    && !old(posts)[id].isLocked)
      ensures r.Code() != 200 ==> posts == old(posts)
      ensures r.Code() == 200 ==>
                var cs := old(posts)[id].comments;
                posts == old(posts)[id := old(posts)[id].(comments := cs + [Comment(FreshCommentId(cs), access.user.id, text, now)])]
    {
      if access.Denied? {
        return Reply(access.status, access.message);
      }
      if !LengthIn(text, 1, 2000) {
        return Invalid([CommentError]);
      }
      if id !in posts {
        return PostNotFound;
      }
      var post := new ForumPost.Load(posts[id]);
      if post.isLocked {
        return Reply(400, "This post is locked and cannot receive new comments");
      }
      post.AddComment(access.user.id, text, now);
      posts := posts[id := post.Snapshot()];
      r := Reply(200, "Comment added successfully");
    }

    /** PUT /api/forum/:id/comments/:commentId */
    method EditComment(access: Access, id: Id, cid: Id, text: string) returns (r: Response)
      requires Valid() && FromAuth(access)
      modifies this
      ensures Valid() && nextId == old(nextId)
      ensures access.Denied? ==> r == Reply(access.status, access.message)
      ensures access.Granted? && !LengthIn(text, 1, 2000) ==> r == Invalid([CommentError])
      ensures access.Granted? && LengthIn(text, 1, 2000) && id !in old(posts) ==> r == PostNotFound
      ensures (access.Granted? && LengthIn(text, 1, 2000) && id in old(posts)
               && FindComment(old(posts)[id].comments, cid).None?) ==> r == CommentNotFound
      ensures (access.Granted? && LengthIn(text, 1, 2000) && id in old(posts)
               && FindComment(old(posts)[id].comments, cid).Some?
               && old(posts)[id].comments[FindComment(old(posts)[id].comments, cid).value].author != access.user.id)
              ==> r == Reply(403, "Not authorized to update this comment")
      ensures r.Code() == 200 <==> (access.Granted? && LengthIn(text, 1, 2000) && id in old(posts)
                                    && FindComment(old(posts)[id].comments, cid).Some?
                                    && old(posts)[id].comments[FindComment(old(posts)[id].comments, cid).value].author
                                       == access.user.id)
      ensures r.Code() != 200 ==> posts == old(posts)
      ensures r.Code() == 200 ==>
                var cs := old(posts)[id].comments;
                var i := FindComment(cs, cid).value;
                posts == old(posts)[id := old(posts)[id].(comments := cs[i := cs[i].(content := text)])]
    {
      if access.Denied? {
        return Reply(access.status, access.message);
      }
      if !LengthIn(text, 1, 2000) {
        return Invalid([CommentError]);
      }
      if id !in posts {
        return PostNotFound;
      }
      var post := new ForumPost.Load(posts[id]);
      var found := FindComment(post.comments, cid);
      if found.None? {
        return CommentNotFound;
      }
      var i := found.value;
      if post.comments[i].author != access.user.id {
        return Reply(403, "Not authorized to update this comment");
      }
      post.comments := post.comments[i := post.comments[i].(content := text)];
      posts := posts[id := post.Snapshot()];
      r := Reply(200, "Comment updated successfully");
    }

    /** DELETE /api/forum/:id/comments/:commentId: allowed to the comment's
        author and to the post's author. */
    method DeleteComment(access: Access, id: Id, cid: Id) returns (r: Response)
      requires Valid() && FromAuth(access)
      modifies this
      ensures Valid() && nextId == old(nextId)
      ensures access.Denied? ==> r == Reply(access.status, access.message)
      ensures access.Granted? && id !in old(posts) ==> r == PostNotFound
      ensures access.Granted? && id in old(posts) && FindComment(old(posts)[id].comments, cid).None? ==> r == CommentNotFound
      ensures (access.Granted? && id in old(posts) && FindComment(old(posts)[id].comments, cid).Some?
               && old(posts)[id].comments[FindComment(old(posts)[id].comments, cid).value].author != access.user.id
               && old(posts)[id].author != access.user.id)
              ==> r == Reply(403, "Not authorized to delete this comment")
      ensures r.Code() == 200 <==> (access.Granted? && id in old(posts)
                                    && FindComment(old(posts)[id].comments, cid).Some?
                                    && (old(posts)[id].comments[FindComment(old(posts)[id].comments, cid).value].author
                                          == access.user.id
                                        || old(posts)[id].author == access.user.id))
      ensures r.Code() != 200 ==> posts == old(posts)
      ensures r.Code() == 200 ==>
                var cs := old(posts)[id].comments;
                posts == old(posts)[id := old(posts)[id].(comments := RemoveAt(cs, FindComment(cs, cid).value))]
                && (forall c :: c in posts[id].comments <==> c in cs && c.id != cid)
    {
      if access.Denied? {
        return Reply(access.status, access.message);
      }
      if id !in posts {
        return PostNotFound;
      }
      var post := new ForumPost.Load(posts[id]);
      var found := FindComment(post.comments, cid);
      if found.None? {
        return CommentNotFound;
      }
      var i := found.value;
      var isCommentAuthor := post.comments[i].author == access.user.id;
      var isPostAuthor := post.author == access.user.id;
      if !isCommentAuthor && !isPostAuthor {
        return Reply(403, "Not authorized to delete this comment");
      }
      RemoveExactlyThat(post.comments, i);
      post.comments := RemoveAt(post.comments, i);
      posts := posts[id := post.Snapshot()];
      r := Reply(200, "Comment deleted successfully");
    }
  }
}
