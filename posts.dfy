/** The forum post document (`ForumPost` schema): reactions kept in two
    lists of user ids, embedded comments, a view counter, and the in-place
    methods `addLike`, `addDislike`, `addComment` and `incrementViews`. */
module Posts {
  import opened Common

  datatype PostStatus = Active | Archived | Deleted

  /** An embedded comment; `id` is its subdocument id. */
  datatype Comment = Comment(id: Id, author: Id, content: string, createdAt: Time)

  /** A post as stored. */
  datatype PostDoc = PostDoc(
    title: string,
    content: string,
    author: Id,
    category: string,
    tags: seq<string>,
    likes: seq<Id>,
    dislikes: seq<Id>,
    views: int,
    isPinned: bool,
    isLocked: bool,
    status: PostStatus,
    relatedDonation: Option<Id>,
    comments: seq<Comment>,
    createdAt: Time)

  /** The schema's `maxlength` limits on the title and the body, counted in
      UTF-16 code units; a save of a post outside them throws. */
  predicate WithinSchema(d: PostDoc) {
    WithinMaxLength(d.title, 200) && WithinMaxLength(d.content, 10000)
  }

  /** The two reaction lists of a post. */
  datatype Reactions = Reactions(likes: seq<Id>, dislikes: seq<Id>)

  predicate NoDup(s: seq<Id>) {
    forall i, j :: 0 <= i < j < |s| ==> s[i] != s[j]
  }

  /** The distinct users of a list. */
  function Members(s: seq<Id>): (m: set<Id>)
    ensures forall u :: u in m <==> u in s
  {
    set u | u in s
  }

  /** A list without repeats has as many entries as distinct members. */
  lemma {:induction false} DistinctCount(s: seq<Id>)
    requires NoDup(s)
    ensures |Members(s)| == |s|
    decreases |s|
  {
    if s != [] {
      var p := s[..|s| - 1];
      var last := s[|s| - 1];
      assert NoDup(p) by {
        forall i, j | 0 <= i < j < |p| ensures p[i] != p[j] {
          assert p[i] == s[i] && p[j] == s[j];
        }
      }
      DistinctCount(p);
      assert last !in p by {
        forall i | 0 <= i < |p| ensures p[i] != last {
          assert p[i] == s[i];
        }
      }
      assert s == p + [last];
      assert Members(s) == Members(p) + {last};
    }
  }

  /** The reaction invariant: no user twice in a list, none in both. */
  predicate Consistent(r: Reactions) {
    NoDup(r.likes) && NoDup(r.dislikes) && forall x :: x in r.likes ==> x !in r.dislikes
  }

  /** `s.filter(id => id.toString() !== u.toString())` */
  function Without(s: seq<Id>, u: Id): seq<Id> {
    if s == [] then [] else (if s[0] == u then [] else [s[0]]) + Without(s[1..], u)
  }

  lemma {:induction false} WithoutMembers(s: seq<Id>, u: Id)
    ensures forall x :: x in Without(s, u) <==> x in s && x != u
  {
    if s != [] {
      WithoutMembers(s[1..], u);
      assert s == [s[0]] + s[1..];
    }
  }

  lemma {:induction false} WithoutNoDup(s: seq<Id>, u: Id)
    requires NoDup(s)
    ensures NoDup(Without(s, u))
  {
    if s != [] {
      WithoutNoDup(s[1..], u);
      WithoutMembers(s[1..], u);
      var rest := Without(s[1..], u);
      if s[0] != u {
        assert s[0] !in s[1..];
        assert s[0] !in rest;
        forall i, j | 0 <= i < j < |[s[0]] + rest|
          ensures ([s[0]] + rest)[i] != ([s[0]] + rest)[j]
        {
          if i > 0 {
            assert ([s[0]] + rest)[i] == rest[i - 1];
          }
        }
      } else {
        assert Without(s, u) == rest;
      }
    }
  }

  /** Removing a user that occurs once shortens a list by one; removing one
      that is absent leaves its length alone. */
  lemma {:induction false} WithoutLength(s: seq<Id>, u: Id)
    requires NoDup(s)
    ensures |Without(s, u)| == if u in s then |s| - 1 else |s|
  {
    if s != [] {
      assert NoDup(s[1..]) by {
        forall i, j | 0 <= i < j < |s[1..]| ensures s[1..][i] != s[1..][j] {
          assert s[1..][i] == s[i + 1] && s[1..][j] == s[j + 1];
        }
      }
      WithoutLength(s[1..], u);
      if s[0] == u {
        assert u !in s[1..];
      } else {
        assert u in s <==> u in s[1..];
      }
    }
  }

  /** One reaction by `u` toward a list: if `u` is not there yet, append it
      and drop `u` from the opposite list; otherwise change nothing. */
  function React(toward: seq<Id>, away: seq<Id>, u: Id): (Reactions) {
    if u !in toward then Reactions(toward + [u], Without(away, u)) else Reactions(toward, away)
  }

  /** The reaction lists after `addLike(u)`. */
  function Liked(r: Reactions, u: Id): Reactions {
    React(r.likes, r.dislikes, u)
  }

  /** The reaction lists after `addDislike(u)`: `addLike` with the roles of
      the lists swapped. */
  function Disliked(r: Reactions, u: Id): Reactions {
    var m := React(r.dislikes, r.likes, u);
    Reactions(m.dislikes, m.likes)
  }

  lemma {:induction false} ReactKeepsConsistent(toward: seq<Id>, away: seq<Id>, u: Id)
    requires Consistent(Reactions(toward, away))
    ensures Consistent(React(toward, away, u))
  {
    if u !in toward {
      WithoutNoDup(away, u);
      WithoutMembers(away, u);
      var t := toward + [u];
      forall i, j | 0 <= i < j < |t| ensures t[i] != t[j] {
        if j == |toward| {
          assert t[i] == toward[i];
        }
      }
    }
  }

  /** Liking and disliking keep each list free of duplicates and the two
      lists disjoint. */
  lemma ReactionsStayConsistent(r: Reactions, u: Id)
    requires Consistent(r)
    ensures Consistent(Liked(r, u)) && Consistent(Disliked(r, u))
  {
    ReactKeepsConsistent(r.likes, r.dislikes, u);
    ReactKeepsConsistent(r.dislikes, r.likes, u);
    var m := React(r.dislikes, r.likes, u);
    assert Consistent(Reactions(m.likes, m.dislikes));
  }

  /** A like from a user who has not liked yet leaves them in `likes` and
      out of `dislikes`; a like from a consistent state always does. */
  lemma LikePlacesUser(r: Reactions, u: Id)
    requires u !in r.likes || Consistent(r)
    ensures u in Liked(r, u).likes && u !in Liked(r, u).dislikes
  {
    WithoutMembers(r.dislikes, u);
  }

  /** The mirror image for dislikes. */
  lemma DislikePlacesUser(r: Reactions, u: Id)
    requires u !in r.dislikes || Consistent(r)
    ensures u in Disliked(r, u).dislikes && u !in Disliked(r, u).likes
  {
    WithoutMembers(r.likes, u);
  }

  /** Liking twice is liking once; the same for disliking. */
  lemma ReactionsIdempotent(r: Reactions, u: Id)
    ensures Liked(Liked(r, u), u) == Liked(r, u)
    ensures Disliked(Disliked(r, u), u) == Disliked(r, u)
  {
  }

  /** A reaction by `u` changes no other user's membership in either list. */
  lemma ReactionsTouchOnlyReactor(r: Reactions, u: Id, v: Id)
    requires v != u
    ensures (v in Liked(r, u).likes <==> v in r.likes) && (v in Liked(r, u).dislikes <==> v in r.dislikes)
    ensures (v in Disliked(r, u).likes <==> v in r.likes) && (v in Disliked(r, u).dislikes <==> v in r.dislikes)
  {
    WithoutMembers(r.likes, u);
    WithoutMembers(r.dislikes, u);
  }

  /** A like followed by a dislike from the same user leaves that user only
      among the dislikes. */
  lemma LikeThenDislike(r: Reactions, u: Id)
    requires u !in r.likes || Consistent(r)
    ensures u in Disliked(Liked(r, u), u).dislikes && u !in Disliked(Liked(r, u), u).likes
  {
    var l := Liked(r, u);
    WithoutMembers(r.dislikes, u);
    assert u !in l.dislikes;
    DislikePlacesUser(l, u);
  }

  /** The counts the like and dislike routes report: a new like adds one to
      `likeCount` and takes one from `dislikeCount` exactly when the user had
      disliked; a repeated like changes neither. */
  lemma LikeCounts(r: Reactions, u: Id)
    requires Consistent(r)
    ensures u !in r.likes ==> |Liked(r, u).likes| == |r.likes| + 1
                              && |Liked(r, u).dislikes| == |r.dislikes| - (if u in r.dislikes then 1 else 0)
    ensures u in r.likes ==> Liked(r, u) == r
  {
    WithoutLength(r.dislikes, u);
  }

  /** Bob likes Alice's fresh post and then dislikes it: no likes remain and
      the dislikes are exactly Bob. */
  lemma FreshPostLikeThenDislike(bob: Id)
    ensures Disliked(Liked(Reactions([], []), bob), bob) == Reactions([], [bob])
  {
    assert Liked(Reactions([], []), bob) == Reactions([bob], []);
    assert Without([bob], bob) == [];
  }

  /** A comment id not used by any comment of the list. */
  function FreshCommentId(cs: seq<Comment>): (k: Id)
    ensures forall c :: c in cs ==> c.id < k
  {
    if cs == [] then 0
    else
      var rest := FreshCommentId(cs[1..]);
      assert forall c :: c in cs ==> c == cs[0] || c in cs[1..];
      if cs[0].id + 1 > rest then cs[0].id + 1 else rest
  }

  /** Subdocument ids are unique within a post. */
  predicate UniqueIds(cs: seq<Comment>) {
    forall i, j :: 0 <= i < j < |cs| ==> cs[i].id != cs[j].id
  }

  /** The subdocument ids of a comment list, in order. */
  function CommentIds(cs: seq<Comment>): (ids: seq<Id>)
    ensures |ids| == |cs| && forall k :: 0 <= k < |cs| ==> ids[k] == cs[k].id
    ensures UniqueIds(cs) ==> NoDup(ids)
  {
    seq(|cs|, k requires 0 <= k < |cs| => cs[k].id)
  }

  /** A post loaded into memory, which the routes change in place and save. */
  class ForumPost {
    var title: string
    var content: string
    var author: Id
    var category: string
    var tags: seq<string>
    var likes: seq<Id>
    var dislikes: seq<Id>
    var views: int
    var isPinned: bool
    var isLocked: bool
    var status: PostStatus
    var relatedDonation: Option<Id>
    var comments: seq<Comment>
    var createdAt: Time

    function Snapshot(): PostDoc
      reads this
    {
      PostDoc(title, content, author, category, tags, likes, dislikes, views, isPinned, isLocked,
              status, relatedDonation, comments, createdAt)
    }

    function ReactionLists(): Reactions
      reads this
    {
      Reactions(likes, dislikes)
    }

    /** `ForumPost.findById`: the stored document, in memory. */
    constructor Load(d: PostDoc)
      ensures Snapshot() == d
    {
      title, content, author, category, tags := d.title, d.content, d.author, d.category, d.tags;
      likes, dislikes, views, isPinned, isLocked := d.likes, d.dislikes, d.views, d.isPinned, d.isLocked;
      status, relatedDonation, comments, createdAt := d.status, d.relatedDonation, d.comments, d.createdAt;
    }

    /** `new ForumPost({...})`: the given fields and the schema defaults (no
        reactions, no views, not pinned, not locked, active, no comments). */
    constructor New(title: string, content: string, category: string, tags: seq<string>,
                    relatedDonation: Option<Id>, author: Id, now: Time)
      ensures Snapshot() == PostDoc(title, content, author, category, tags, [], [], 0, false, false,
                                    Active, relatedDonation, [], now)
    {
      this.title, this.content, this.author, this.category, this.tags := title, content, author, category, tags;
      likes, dislikes, views, isPinned, isLocked := [], [], 0, false, false;
      status, this.relatedDonation, comments, createdAt := Active, relatedDonation, [], now;
    }

    /** The `likeCount` virtual: with no repeated likes, the number of
        distinct users who like the post. */
    function LikeCount(): (c: nat)
      reads this
      ensures NoDup(likes) ==> c == |Members(likes)|
    {
      if NoDup(likes) then DistinctCount(likes); |likes| else |likes|
    }

    /** The `dislikeCount` virtual. */
    function DislikeCount(): (c: nat)
      reads this
      ensures NoDup(dislikes) ==> c == |Members(dislikes)|
    {
      if NoDup(dislikes) then DistinctCount(dislikes); |dislikes| else |dislikes|
    }

    /** The `commentCount` virtual: with unique subdocument ids, the number
        of distinct comments. */
    function CommentCount(): (c: nat)
      reads this
      ensures UniqueIds(comments) ==> c == |Members(CommentIds(comments))|
    {
      if UniqueIds(comments) then DistinctCount(CommentIds(comments)); |comments| else |comments|
    }

    /** `addLike(userId)` */
    method AddLike(u: Id)
      modifies this
      ensures ReactionLists() == Liked(old(ReactionLists()), u)
      ensures Snapshot() == old(Snapshot()).(likes := likes, dislikes := dislikes)
      ensures old(Consistent(ReactionLists())) ==> Consistent(ReactionLists())
      ensures old(Consistent(ReactionLists())) ==> u in likes && u !in dislikes
    {
      ghost var before := ReactionLists();
      if u !in likes {
        likes := likes + [u];
        dislikes := Without(dislikes, u);
      }
      if Consistent(before) {
        ReactionsStayConsistent(before, u);
        LikePlacesUser(before, u);
      }
    }

    /** `addDislike(userId)` */
    method AddDislike(u: Id)
      modifies this
      ensures ReactionLists() == Disliked(old(ReactionLists()), u)
      ensures Snapshot() == old(Snapshot()).(likes := likes, dislikes := dislikes)
      ensures old(Consistent(ReactionLists())) ==> Consistent(ReactionLists())
      ensures old(Consistent(ReactionLists())) ==> u in dislikes && u !in likes
    {
      ghost var before := ReactionLists();
      if u !in dislikes {
        dislikes := dislikes + [u];
        likes := Without(likes, u);
      }
      if Consistent(before) {
        ReactionsStayConsistent(before, u);
        DislikePlacesUser(before, u);
      }
    }

    /** `addComment(authorId, content)`: push one comment, stamped with a
        fresh subdocument id and the current time. */
    method AddComment(authorId: Id, text: string, now: Time)
      modifies this
      ensures comments == old(comments) + [Comment(FreshCommentId(old(comments)), authorId, text, now)]
      ensures Snapshot() == old(Snapshot()).(comments := comments)
      ensures old(UniqueIds(comments)) ==> UniqueIds(comments)
    {
      var c := Comment(FreshCommentId(comments), authorId, text, now);
      assert forall k :: 0 <= k < |comments| ==> comments[k].id != c.id by {
        forall k | 0 <= k < |comments| ensures comments[k].id != c.id {
          assert comments[k] in comments;
        }
      }
      comments := comments + [c];
    }

    /** `incrementViews()` */
    method IncrementViews()
      modifies this
      ensures views == old(views) + 1
      ensures Snapshot() == old(Snapshot()).(views := views)
    {
      views := views + 1;
    }
  }
}
