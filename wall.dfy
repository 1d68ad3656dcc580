/** components/Wall.tsx: the family wall. It keeps its own copy of the posts
    (the view), refreshes it from the store after posting and commenting, and
    edits it in place when a post is liked. */
module Wall {
  import opened Wrappers
  import opened Seqs
  import opened Text
  import opened Entities
  import opened Store

  // ---------------------------------------------------------------- likes as the view shows them

  /** `p.reactions.some(r => r.userId === userId)` */
  function HasReacted(rs: seq<Reaction>, userId: string): (b: bool)
    ensures b <==> exists i :: 0 <= i < |rs| && rs[i].userId == userId
  {
    IndexOf(rs, ByUser(userId)).Some?
  }

  /** The reactions the view shows after a click on the like button: every
      reaction of the user is removed when there is one, otherwise a LIKE is
      added at the end. */
  function ToggleLike(rs: seq<Reaction>, userId: string): seq<Reaction> {
    if HasReacted(rs, userId) then Filter(rs, NotByUser(userId)) else rs + [Reaction(userId, Like)]
  }

  /** A click flips whether the view shows a reaction by the user, and leaves the
      other users' reactions as they were, in their order. */
  lemma ToggleLikeSpec(rs: seq<Reaction>, userId: string)
    ensures HasReacted(ToggleLike(rs, userId), userId) <==> !HasReacted(rs, userId)
    ensures Filter(ToggleLike(rs, userId), NotByUser(userId)) == Filter(rs, NotByUser(userId))
    ensures !HasReacted(rs, userId) ==> Filter(ToggleLike(rs, userId), ByUser(userId)) == [Reaction(userId, Like)]
  {
    var r := ToggleLike(rs, userId);
    if HasReacted(rs, userId) {
      FilterFilter(rs, NotByUser(userId), NotByUser(userId), NotByUser(userId));
    } else {
      FilterConcat(rs, [Reaction(userId, Like)], NotByUser(userId));
      FilterConcat(rs, [Reaction(userId, Like)], ByUser(userId));
      FilterNone(rs, ByUser(userId));
      assert r[|rs|] == Reaction(userId, Like);
    }
  }

  /** Liking and then unliking in the view gives back the reactions it showed before. */
  lemma LikeThenUnlike(rs: seq<Reaction>, userId: string)
    requires !HasReacted(rs, userId)
    ensures ToggleLike(ToggleLike(rs, userId), userId) == rs
  {
    var liked := rs + [Reaction(userId, Like)];
    assert liked[|rs|] == Reaction(userId, Like);
    FilterConcat(rs, [Reaction(userId, Like)], NotByUser(userId));
    FilterAll(rs, NotByUser(userId));
  }

  /** `posts.map(...)` in `handleLike`: the posts with that id get toggled
      reactions, every other post is shown as it was. */
  function LikeView(ps: seq<Post>, postId: string, userId: string): (r: seq<Post>)
    ensures |r| == |ps|
    ensures forall i :: 0 <= i < |ps| && ps[i].id != postId ==> r[i] == ps[i]
    ensures forall i :: 0 <= i < |ps| && ps[i].id == postId ==>
      r[i] == ps[i].(reactions := ToggleLike(ps[i].reactions, userId))
  {
    seq(|ps|, i requires 0 <= i < |ps| =>
      if ps[i].id == postId then ps[i].(reactions := ToggleLike(ps[i].reactions, userId)) else ps[i])
  }

  /** A like on a post the user had not reacted to shows what the store keeps,
      when the view and the store agreed on that post's reactions. */
  lemma LikeViewAgreesWithStore(rs: seq<Reaction>, userId: string)
    requires !HasReacted(rs, userId)
    ensures ToggleLike(rs, userId) == SetReaction(rs, userId, Like)
  {
    FilterAll(rs, NotByUser(userId));
  }

  /** An unlike does not reach the store: the view drops the user's reaction
      while `updatePostReaction` sets a LIKE, so the store keeps exactly one LIKE
      by the user however often the button is clicked. */
  lemma UnlikeKeepsStoredLike(ps: seq<Post>, stored: seq<Post>, postId: string, userId: string, i: int, k: int)
    requires 0 <= i < |ps| && ps[i].id == postId && HasReacted(ps[i].reactions, userId)
    requires 0 <= k < |stored| && stored[k].id == postId
    ensures !HasReacted(LikeView(ps, postId, userId)[i].reactions, userId)
    ensures Filter(ApplyReaction(stored, postId, userId, Like)[k].reactions, ByUser(userId)) == [Reaction(userId, Like)]
  {
    ToggleLikeSpec(ps[i].reactions, userId);
    ApplyReactionSpec(stored, postId, userId, Like);
  }

  // ---------------------------------------------------------------- comments panel

  /** `!!expandedComments[postId]` */
  predicate IsExpanded(m: map<string, bool>, postId: string) {
    postId in m && m[postId]
  }

  /** `{ ...prev, [postId]: !prev[postId] }` */
  function Toggled(m: map<string, bool>, postId: string): (r: map<string, bool>)
    ensures IsExpanded(r, postId) <==> !IsExpanded(m, postId)
    ensures postId in r
    ensures forall k :: k != postId ==> (k in r <==> k in m)
    ensures forall k :: k != postId && k in m ==> r[k] == m[k]
  {
    m[postId := !IsExpanded(m, postId)]
  }

  /** Toggling a post's comments twice shows them exactly when they were shown before. */
  lemma ToggleTwice(m: map<string, bool>, postId: string, other: string)
    ensures IsExpanded(Toggled(Toggled(m, postId), postId), postId) == IsExpanded(m, postId)
    ensures other != postId ==> IsExpanded(Toggled(Toggled(m, postId), postId), other) == IsExpanded(m, other)
  {
  }

  /** `commentInputs[postId]?.trim()` is not empty. */
  predicate Submittable(inputs: map<string, string>, postId: string) {
    postId in inputs && Trim(inputs[postId]) != ""
  }

  /** The post `handlePost` builds. */
  function NewPost(id: string, author: User, content: string, now: int): Post {
    Post(id, author.id, None, author.name, author.profileImage, content, None, [], 0, now)
  }

  /** The comment `handleCommentSubmit` builds. */
  function NewComment(id: string, postId: string, author: User, content: string, now: int): Comment {
    Comment(id, postId, author.id, author.name, None, content, now)
  }

  // ---------------------------------------------------------------- the component

  class WallState {
    const db: MockDb
    /** The signed-in user passed in by the shell. */
    const user: Option<User>
    var posts: seq<Post>
    var newPostContent: string
    var isPosting: bool
    var expandedComments: map<string, bool>
    var commentInputs: map<string, string>

    /** Mounting: the view is loaded from the store, newest first. */
    constructor (db: MockDb, user: Option<User>)
      ensures this.db == db && this.user == user
      ensures posts == db.GetPosts()
      ensures newPostContent == "" && !isPosting && expandedComments == map[] && commentInputs == map[]
    {
      this.db := db;
      this.user := user;
      posts := db.GetPosts();
      newPostContent := "";
      isPosting := false;
      expandedComments := map[];
      commentInputs := map[];
    }

    /** `handlePost`: blank text or no user changes nothing; otherwise the new
        post goes in front in the store, the view is reloaded and the box cleared. */
    method HandlePost(id: string, now: int)
      modifies this`posts, this`newPostContent, this`isPosting, db
      ensures Trim(old(newPostContent)) == "" || user.None? ==>
        && posts == old(posts) && newPostContent == old(newPostContent) && isPosting == old(isPosting)
        && db.saved == old(db.saved) && db.Doc() == old(db.Doc())
      ensures Trim(old(newPostContent)) != "" && user.Some? ==>
        var post := NewPost(id, user.value, old(newPostContent), now);
        && db.saved && db.Doc() == old(db.Loaded()).(posts := [post] + old(db.Loaded()).posts)
        && posts == db.GetPosts() && post in posts
        && newPostContent == "" && !isPosting
    {
      if Trim(newPostContent) == "" || user.None? {
        return;
      }
      isPosting := true;
      var post := NewPost(id, user.value, newPostContent, now);
      var _ := db.AddPost(post);
      posts := db.GetPosts();
      newPostContent := "";
      isPosting := false;
    }

    /** `handleLike`: the view toggles the user's like on every post with that
        id, and the store gets `updatePostReaction(postId, user.id, 'LIKE')` once
        per such post, which leaves it as after a single call. */
    method HandleLike(postId: string)
      modifies this`posts, db
      ensures user.None? ==> posts == old(posts)
      ensures user.Some? ==> posts == LikeView(old(posts), postId, user.value.id)
      ensures user.None? || IndexOf(old(posts), PostIdIs(postId)).None? ==>
        db.saved == old(db.saved) && db.Doc() == old(db.Doc())
      ensures user.Some? && IndexOf(old(posts), PostIdIs(postId)).Some? ==>
        && db.saved
        && db.Doc() == old(db.Loaded()).(posts := ApplyReaction(old(db.Loaded()).posts, postId, user.value.id, Like))
    {
      if user.None? {
        return;
      }
      var userId := user.value.id;
      ghost var before := db.Loaded();
      ghost var target := before.(posts := ApplyReaction(before.posts, postId, userId, Like));
      ghost var touched := false;
      var ps := posts;
      var updatedPosts: seq<Post> := [];
      var i := 0;
      while i < |ps|
        invariant 0 <= i <= |ps|
        invariant |updatedPosts| == i
        invariant forall j :: 0 <= j < i ==> updatedPosts[j] == LikeView(ps, postId, userId)[j]
        invariant touched <==> exists j :: 0 <= j < i && ps[j].id == postId
        invariant touched ==> db.saved && db.Doc() == target
        invariant !touched ==> db.saved == old(db.saved) && db.Doc() == old(db.Doc())
      {
        var p := ps[i];
        if p.id == postId {
          var newReactions := ToggleLike(p.reactions, userId);
          if touched {
            ApplyReactionLastWins(before.posts, postId, userId, Like, Like);
          }
          db.UpdatePostReaction(postId, userId, Like);
          touched := true;
          updatedPosts := updatedPosts + [p.(reactions := newReactions)];
        } else {
          updatedPosts := updatedPosts + [p];
        }
        i := i + 1;
      }
      posts := updatedPosts;
    }

    /** `toggleComments`: flips whether the post's comments are shown. */
    method ToggleComments(postId: string)
      modifies this`expandedComments
      ensures expandedComments == Toggled(old(expandedComments), postId)
    {
      expandedComments := Toggled(expandedComments, postId);
    }

    /** `handleCommentSubmit`: a missing or blank input, or no user, changes
        nothing; otherwise the comment is stored, counted on its post, the input
        cleared and the view reloaded. */
    method HandleCommentSubmit(postId: string, id: string, now: int)
      modifies this`commentInputs, this`posts, db
      ensures !Submittable(old(commentInputs), postId) || user.None? ==>
        && commentInputs == old(commentInputs) && posts == old(posts)
        && db.saved == old(db.saved) && db.Doc() == old(db.Doc())
      ensures Submittable(old(commentInputs), postId) && user.Some? ==>
        var comment := NewComment(id, postId, user.value, old(commentInputs)[postId], now);
        && db.saved
        && db.Doc() == old(db.Loaded()).(comments := old(db.Loaded()).comments + [comment],
                                         posts := BumpCommentCount(old(db.Loaded()).posts, postId))
        && db.GetComments(postId) == old(db.GetComments(postId)) + [comment]
        && commentInputs == old(commentInputs)[postId := ""]
        && posts == db.GetPosts()
    {
      if postId !in commentInputs || Trim(commentInputs[postId]) == "" || user.None? {
        return;
      }
      var content := commentInputs[postId];
      var comment := NewComment(id, postId, user.value, content, now);
      var _ := db.AddComment(comment);
      commentInputs := commentInputs[postId := ""];
      posts := db.GetPosts();
    }
  }
}
