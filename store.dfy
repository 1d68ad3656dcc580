/** services/mockDb.ts: the single-document store. `MockDb` holds the nine
    entity sequences of the persisted document; every operation loads the
    document (materialising the default one, or re-inserting the AI historian),
    changes one sequence and saves the whole document back. */
module Store {
  import opened Wrappers
  import opened Seqs
  import opened Entities

  const AI_HISTORIAN_ID: string := "ai-historian-system"

  /** The persisted document (`DbSchema`). */
  datatype Document = Document(
    users: seq<User>,
    posts: seq<Post>,
    comments: seq<Comment>,
    events: seq<FamilyEvent>,
    messages: seq<DirectMessage>,
    stories: seq<FamilyStory>,
    notifications: seq<Notification>,
    groups: seq<FamilyGroup>,
    albums: seq<Album>)

  const MINUTE: int := 60 * 1000

  /** `DEFAULT_USERS[0]`, built when the module is loaded at `bootTime`. */
  function AiHistorian(bootTime: int): User {
    User(AI_HISTORIAN_ID, "AI Historian", "historian@familysphere.system", None, Admin,
         Some("https://cdn-icons-png.flaticon.com/512/2103/2103633.png"), None,
         Some("Family Guardian"),
         Some("I am the keeper of your family legacy. Ask me about your shared history, milestones, or for a trip down memory lane."),
         None, bootTime)
  }

  /** `DEFAULT_DB`: the AI historian, three broadcast notifications (5 minutes,
      an hour and a day old), three groups and two albums. */
  function DefaultDocument(bootTime: int): (d: Document)
    ensures HasAiHistorian(d.users)
  {
    var ai := AiHistorian(bootTime);
    assert [ai][0] == ai;
    Document(
      [ai], [], [], [], [], [],
      [ Notification("n1", "", "Aunt Sarah", LikeNotice, "loved your latest memory!", false, bootTime - 5 * MINUTE),
        Notification("n2", "", "Cousin Mike", MessageNotice, "sent you a private legacy chat.", false, bootTime - 60 * MINUTE),
        Notification("n3", "", "Grandma", EventNotice, "added a new gathering: Sunday Brunch.", false, bootTime - 24 * 60 * MINUTE) ],
      [ FamilyGroup("1", "Parents Circle", "Logistics and planning for the heads of house.", "\U{1F3E0}", 2),
        FamilyGroup("2", "Grandkids Corner", "Memories and updates from the younger ones.", "\U{1F3A8}", 5),
        FamilyGroup("3", "Travel Buffs", "Coordinating the next big family trip.", "\U{2708}\U{FE0F}", 8) ],
      [ Album("1", "Summer 2024", "Memories from our trip to Italy.", "https://images.unsplash.com/photo-1516483638261-f4dbaf036963?w=800"),
        Album("2", "Holiday Season", "Winter holidays with the whole family.", "https://images.unsplash.com/photo-1543589077-47d81606c1bf?w=800") ])
  }

  /** Over empty storage the user list is exactly the AI historian, an administrator. */
  lemma DefaultUsers(bootTime: int)
    ensures DefaultDocument(bootTime).users == [AiHistorian(bootTime)]
    ensures |DefaultDocument(bootTime).users| == 1 && DefaultDocument(bootTime).users[0].role == Admin
  {
  }

  // ---------------------------------------------------------------- users

  /** A user record that is the AI historian. */
  type HistorianUser = u: User | u.id == AI_HISTORIAN_ID
    witness User(AI_HISTORIAN_ID, "", "", None, Admin, None, None, None, None, None, 0)

  /** A document that contains the AI historian. */
  type SeedDocument = d: Document | HasAiHistorian(d.users)
    witness var u := User(AI_HISTORIAN_ID, "", "", None, Admin, None, None, None, None, None, 0);
      assert [u][0] == u;
      Document([u], [], [], [], [], [], [], [], [])

  function UserIdIs(id: string): User -> bool {
    (u: User) => u.id == id
  }

  predicate HasAiHistorian(users: seq<User>) {
    exists i :: 0 <= i < |users| && users[i].id == AI_HISTORIAN_ID
  }

  /** The load-time patch: a document without the AI historian gets it in
      front, the other users keeping their order; one with it is untouched. */
  function PatchAiUser(users: seq<User>, ai: User): (r: seq<User>)
    requires ai.id == AI_HISTORIAN_ID
    ensures HasAiHistorian(r)
    ensures HasAiHistorian(users) ==> r == users
    ensures !HasAiHistorian(users) ==> r == [ai] + users
  {
    if Find(users, UserIdIs(AI_HISTORIAN_ID)).Some? then users
    else
      assert ([ai] + users)[0] == ai;
      [ai] + users
  }

  /** The user `addUser` stores: the first member after the AI historian is made an administrator. */
  function AdmittedUser(users: seq<User>, u: User): User {
    if |users| == 1 && users[0].id == AI_HISTORIAN_ID then u.(role := Admin) else u
  }

  /** With the AI historian present, `addUser` changes nothing but the role, and
      the stored role is ADMIN exactly when the user is the first besides the
      historian or asked for ADMIN. */
  lemma AdmittedUserRole(users: seq<User>, u: User)
    requires HasAiHistorian(users)
    ensures AdmittedUser(users, u).(role := u.role) == u
    ensures AdmittedUser(users, u).role == Admin <==> |users| == 1 || u.role == Admin
    ensures |users| != 1 ==> AdmittedUser(users, u) == u
  {
  }

  function Overlay<T>(patch: Option<T>, current: Option<T>): Option<T> {
    if patch.Some? then patch else current
  }

  /** `{ ...u, ...updates }` */
  function MergeUser(u: User, p: UserPatch): User {
    User(p.id.GetOr(u.id), p.name.GetOr(u.name), p.email.GetOr(u.email),
         Overlay(p.password, u.password), p.role.GetOr(u.role),
         Overlay(p.profileImage, u.profileImage), Overlay(p.coverImage, u.coverImage),
         Overlay(p.relationship, u.relationship), Overlay(p.bio, u.bio),
         Overlay(p.birthday, u.birthday), p.createdAt.GetOr(u.createdAt))
  }

  /** `users.map(u => u.id === id ? { ...u, ...updates } : u)`: every user with
      that id is merged, every other user is kept as it was, in place. */
  function UpdateUsers(users: seq<User>, id: string, p: UserPatch): (r: seq<User>)
    ensures |r| == |users|
    ensures forall i :: 0 <= i < |users| && users[i].id != id ==> r[i] == users[i]
    ensures forall i :: 0 <= i < |users| && users[i].id == id ==> r[i] == MergeUser(users[i], p)
  {
    seq(|users|, i requires 0 <= i < |users| =>
      if users[i].id == id then MergeUser(users[i], p) else users[i])
  }

  /** When the patch keeps the id, `updateUser` returns the first user with that
      id, merged, and nothing when no user has it. */
  lemma {:induction false} UpdateUserFindsMerged(users: seq<User>, id: string, p: UserPatch)
    requires p.id.None? || p.id == Some(id)
    ensures Find(UpdateUsers(users, id, p), UserIdIs(id))
         == match Find(users, UserIdIs(id)) case None => None case Some(u) => Some(MergeUser(u, p))
  {
    var r := UpdateUsers(users, id, p);
    forall i | 0 <= i < |users| ensures UserIdIs(id)(users[i]) == UserIdIs(id)(r[i]) {
    }
    IndexOfPointwise(users, UserIdIs(id), r, UserIdIs(id));
  }

  /** Applying the same update twice is applying it once, whatever the patch. */
  lemma UpdateUsersIdempotent(users: seq<User>, id: string, p: UserPatch)
    ensures UpdateUsers(UpdateUsers(users, id, p), id, p) == UpdateUsers(users, id, p)
  {
  }

  // ---------------------------------------------------------------- posts and reactions

  function PostIdIs(id: string): Post -> bool {
    (p: Post) => p.id == id
  }

  /** The sort key of `getPosts`. */
  function PostTime(p: Post): int {
    p.createdAt
  }

  function ByUser(userId: string): Reaction -> bool {
    (r: Reaction) => r.userId == userId
  }

  function NotByUser(userId: string): Reaction -> bool {
    (r: Reaction) => r.userId != userId
  }

  /** `[...reactions.filter(r => r.userId !== userId), { userId, type }]` */
  function SetReaction(rs: seq<Reaction>, userId: string, t: ReactionType): seq<Reaction> {
    Filter(rs, NotByUser(userId)) + [Reaction(userId, t)]
  }

  /** After setting, the user has exactly one reaction, of the given type, placed
      last, and the other users' reactions are those before, in their order. */
  lemma SetReactionSpec(rs: seq<Reaction>, userId: string, t: ReactionType)
    ensures var r := SetReaction(rs, userId, t);
      && |r| > 0 && r[|r| - 1] == Reaction(userId, t)
      && Filter(r, ByUser(userId)) == [Reaction(userId, t)]
      && Filter(r, NotByUser(userId)) == Filter(rs, NotByUser(userId))
  {
    var kept := Filter(rs, NotByUser(userId));
    FilterConcat(kept, [Reaction(userId, t)], ByUser(userId));
    FilterNone(kept, ByUser(userId));
    FilterConcat(kept, [Reaction(userId, t)], NotByUser(userId));
    FilterAll(kept, NotByUser(userId));
  }

  /** The last reaction set wins; with the same type twice this is idempotence. */
  lemma SetReactionLastWins(rs: seq<Reaction>, userId: string, t1: ReactionType, t2: ReactionType)
    ensures SetReaction(SetReaction(rs, userId, t1), userId, t2) == SetReaction(rs, userId, t2)
  {
    SetReactionSpec(rs, userId, t1);
  }

  /** `posts.map(p => p.id !== postId ? p : { ...p, reactions: [...filtered, { userId, type }] })` */
  function ApplyReaction(ps: seq<Post>, postId: string, userId: string, t: ReactionType): seq<Post> {
    seq(|ps|, i requires 0 <= i < |ps| =>
      if ps[i].id == postId then ps[i].(reactions := SetReaction(ps[i].reactions, userId, t)) else ps[i])
  }

  /** Only the posts with that id change, and only in their reactions, where the
      user now has exactly one reaction of the given type, last, the other users'
      reactions keeping their order. */
  lemma ApplyReactionSpec(ps: seq<Post>, postId: string, userId: string, t: ReactionType)
    ensures var r := ApplyReaction(ps, postId, userId, t);
      && |r| == |ps|
      && (forall i :: 0 <= i < |ps| && ps[i].id != postId ==> r[i] == ps[i])
      && (forall i :: 0 <= i < |ps| && ps[i].id == postId ==>
            && r[i].(reactions := ps[i].reactions) == ps[i]
            && r[i].reactions[|r[i].reactions| - 1] == Reaction(userId, t)
            && Filter(r[i].reactions, ByUser(userId)) == [Reaction(userId, t)]
            && Filter(r[i].reactions, NotByUser(userId)) == Filter(ps[i].reactions, NotByUser(userId)))
  {
    forall i | 0 <= i < |ps| && ps[i].id == postId {
      SetReactionSpec(ps[i].reactions, userId, t);
    }
  }

  /** Setting a reaction twice on a post is setting it once; more generally the
      second type replaces the first. */
  lemma ApplyReactionLastWins(ps: seq<Post>, postId: string, userId: string, t1: ReactionType, t2: ReactionType)
    ensures ApplyReaction(ApplyReaction(ps, postId, userId, t1), postId, userId, t2)
         == ApplyReaction(ps, postId, userId, t2)
  {
    forall i | 0 <= i < |ps| && ps[i].id == postId {
      SetReactionLastWins(ps[i].reactions, userId, t1, t2);
    }
  }

  // ---------------------------------------------------------------- comments

  function CommentOn(postId: string): Comment -> bool {
    (c: Comment) => c.postId == postId
  }

  /** `posts.find(p => p.id === postId)` followed by `post.commentCount++`: the
      first post with that id counts one comment more and nothing else changes;
      without such a post nothing changes. */
  function BumpCommentCount(ps: seq<Post>, postId: string): (r: seq<Post>)
    ensures |r| == |ps|
    ensures forall i :: 0 <= i < |ps| ==> r[i].id == ps[i].id
    ensures IndexOf(ps, PostIdIs(postId)).None? ==> r == ps
    ensures IndexOf(ps, PostIdIs(postId)).Some? ==>
      var k := IndexOf(ps, PostIdIs(postId)).value;
      && r[k].commentCount == ps[k].commentCount + 1
      && r[k].(commentCount := ps[k].commentCount) == ps[k]
      && forall i :: 0 <= i < |ps| && i != k ==> r[i] == ps[i]
  {
    match IndexOf(ps, PostIdIs(postId))
    case None => ps
    case Some(k) => ps[k := ps[k].(commentCount := ps[k].commentCount + 1)]
  }

  /** The posts after `n` comments on `postId`. */
  ghost function BumpTimes(ps: seq<Post>, postId: string, n: nat): seq<Post> {
    if n == 0 then ps else BumpCommentCount(BumpTimes(ps, postId, n - 1), postId)
  }

  /** One comment on an existing post leaves that post first in line for the next one. */
  lemma BumpKeepsPosition(ps: seq<Post>, postId: string, k: nat)
    requires IndexOf(ps, PostIdIs(postId)) == Some(k)
    ensures var r := BumpCommentCount(ps, postId);
      && IndexOf(r, PostIdIs(postId)) == Some(k)
      && r[k].commentCount == ps[k].commentCount + 1
      && forall i :: 0 <= i < |ps| && i != k ==> r[i] == ps[i]
  {
    var r := BumpCommentCount(ps, postId);
    assert forall i :: 0 <= i < |ps| ==> PostIdIs(postId)(ps[i]) == PostIdIs(postId)(r[i]);
    IndexOfPointwise(ps, PostIdIs(postId), r, PostIdIs(postId));
  }

  /** After `n` comments on an existing post, first at position `k`, that post
      counts `n` more and no other post has changed. */
  lemma {:induction false} CommentCountAfterN(ps: seq<Post>, postId: string, k: nat, n: nat)
    requires IndexOf(ps, PostIdIs(postId)) == Some(k)
    ensures |BumpTimes(ps, postId, n)| == |ps|
    ensures IndexOf(BumpTimes(ps, postId, n), PostIdIs(postId)) == Some(k)
    ensures BumpTimes(ps, postId, n)[k].commentCount == ps[k].commentCount + n
    ensures forall i :: 0 <= i < |ps| && i != k ==> BumpTimes(ps, postId, n)[i] == ps[i]
  {
    if n > 0 {
      CommentCountAfterN(ps, postId, k, n - 1);
      var prev := BumpTimes(ps, postId, n - 1);
      BumpKeepsPosition(prev, postId, k);
      var r := BumpCommentCount(prev, postId);
      assert BumpTimes(ps, postId, n) == r;
      assert r[k].commentCount == prev[k].commentCount + 1;
    }
  }

  /** Each post's count equals the number of stored comments on it. */
  ghost predicate CountsConsistent(d: Document) {
    forall i :: 0 <= i < |d.posts| ==> d.posts[i].commentCount == |Filter(d.comments, CommentOn(d.posts[i].id))|
  }

  ghost predicate UniquePostIds(ps: seq<Post>) {
    forall i, j :: 0 <= i < j < |ps| ==> ps[i].id != ps[j].id
  }

  /** With unique post ids, `addComment` keeps every count equal to the number of
      comments on its post, whether or not the comment's post exists. */
  lemma AddCommentKeepsCounts(d: Document, c: Comment)
    requires UniquePostIds(d.posts) && CountsConsistent(d)
    ensures CountsConsistent(d.(comments := d.comments + [c], posts := BumpCommentCount(d.posts, c.postId)))
  {
    var ps := BumpCommentCount(d.posts, c.postId);
    var cs := d.comments + [c];
    forall i | 0 <= i < |ps| ensures ps[i].commentCount == |Filter(cs, CommentOn(ps[i].id))| {
      FilterConcat(d.comments, [c], CommentOn(ps[i].id));
      var k := IndexOf(d.posts, PostIdIs(c.postId));
      if k.Some? && k.value != i {
        assert d.posts[i].id != d.posts[k.value].id;
      }
    }
  }

  // ---------------------------------------------------------------- messages

  /** A message between `a` and `b`, sent in either direction. */
  function Between(a: string, b: string): DirectMessage -> bool {
    (m: DirectMessage) => (m.senderId == a && m.receiverId == b) || (m.senderId == b && m.receiverId == a)
  }

  /** The conversation between two users is the same seen from either side. */
  lemma MessagesSymmetric(ms: seq<DirectMessage>, a: string, b: string)
    ensures Filter(ms, Between(a, b)) == Filter(ms, Between(b, a))
  {
    FilterExt(ms, Between(a, b), Between(b, a));
  }

  // ---------------------------------------------------------------- notifications

  /** The sort key of `getNotifications`. */
  function NotificationTime(n: Notification): int {
    n.createdAt
  }

  /** `!n.userId || n.userId === userId`: broadcasts and the user's own. */
  function VisibleTo(userId: string): Notification -> bool {
    (n: Notification) => n.userId == "" || n.userId == userId
  }

  /** `n.userId && n.userId !== userId`: what `clearNotifications` keeps. */
  function KeptOnClear(userId: string): Notification -> bool {
    (n: Notification) => n.userId != "" && n.userId != userId
  }

  function OwnedBy(userId: string): Notification -> bool {
    (n: Notification) => n.userId == userId
  }

  /** `notifications.map(n => visible ? { ...n, read: true } : n)`: the
      notifications the user sees are marked read, the others are untouched. */
  function MarkRead(ns: seq<Notification>, userId: string): (r: seq<Notification>)
    ensures |r| == |ns|
    ensures forall i :: 0 <= i < |ns| && VisibleTo(userId)(ns[i]) ==> r[i] == ns[i].(read := true)
    ensures forall i :: 0 <= i < |ns| && !VisibleTo(userId)(ns[i]) ==> r[i] == ns[i]
  {
    seq(|ns|, i requires 0 <= i < |ns| =>
      if VisibleTo(userId)(ns[i]) then ns[i].(read := true) else ns[i])
  }

  /** After marking, the user sees the same notifications, all of them read. */
  lemma {:induction false} MarkReadAllVisibleRead(ns: seq<Notification>, userId: string)
    ensures var seen := Filter(MarkRead(ns, userId), VisibleTo(userId));
      && |seen| == |Filter(ns, VisibleTo(userId))|
      && forall i :: 0 <= i < |seen| ==> seen[i] == Filter(ns, VisibleTo(userId))[i].(read := true)
  {
    if ns != [] {
      var f := VisibleTo(userId);
      var m := MarkRead(ns, userId);
      MarkReadAllVisibleRead(ns[1..], userId);
      assert m[1..] == MarkRead(ns[1..], userId);
      var seen, vis := Filter(m, f), Filter(ns, f);
      var seen', vis' := Filter(m[1..], f), Filter(ns[1..], f);
      if f(ns[0]) {
        assert seen == [m[0]] + seen' && vis == [ns[0]] + vis';
        forall i | 0 <= i < |seen| ensures seen[i] == vis[i].(read := true) {
          if i > 0 {
            assert seen[i] == seen'[i - 1] && vis[i] == vis'[i - 1];
          }
        }
      } else {
        assert seen == seen' && vis == vis';
      }
    }
  }

  /** `notifications.filter(n => n.userId && n.userId !== userId)` */
  function ClearFor(ns: seq<Notification>, userId: string): seq<Notification> {
    Filter(ns, KeptOnClear(userId))
  }

  /** After clearing, the user sees no notification at all. */
  lemma ClearLeavesNothingVisible(ns: seq<Notification>, userId: string)
    ensures Filter(ClearFor(ns, userId), VisibleTo(userId)) == []
  {
    FilterNone(ClearFor(ns, userId), VisibleTo(userId));
  }

  /** Clearing twice is clearing once. */
  lemma ClearIdempotent(ns: seq<Notification>, userId: string)
    ensures ClearFor(ClearFor(ns, userId), userId) == ClearFor(ns, userId)
  {
    FilterAll(ClearFor(ns, userId), KeptOnClear(userId));
  }

  /** Clearing removes the broadcasts for everybody: any other user is left
      seeing exactly the notifications addressed to them. */
  lemma ClearRemovesBroadcasts(ns: seq<Notification>, userId: string, other: string)
    requires other != userId && other != ""
    ensures Filter(ClearFor(ns, userId), VisibleTo(other)) == Filter(ns, OwnedBy(other))
  {
    FilterFilter(ns, KeptOnClear(userId), VisibleTo(other), OwnedBy(other));
  }

  // ---------------------------------------------------------------- the store

  class MockDb {
    /** `DEFAULT_USERS[0]` and `DEFAULT_DB`, built once when the module loads. */
    const historian: HistorianUser
    const defaults: SeedDocument
    /** Whether a document is saved under the storage key. */
    var saved: bool

    var users: seq<User>
    var posts: seq<Post>
    var comments: seq<Comment>
    var events: seq<FamilyEvent>
    var messages: seq<DirectMessage>
    var stories: seq<FamilyStory>
    var notifications: seq<Notification>
    var groups: seq<FamilyGroup>
    var albums: seq<Album>

    /** A store over empty storage, its module loaded at `bootTime`. */
    constructor (bootTime: int)
      ensures historian == AiHistorian(bootTime) && defaults == DefaultDocument(bootTime)
      ensures !saved && Loaded() == DefaultDocument(bootTime)
      ensures GetUsers() == [AiHistorian(bootTime)] && GetUsers()[0].role == Admin
    {
      historian := AiHistorian(bootTime);
      defaults := DefaultDocument(bootTime);
      saved := false;
      users, posts, comments, events, messages := [], [], [], [], [];
      stories, notifications, groups, albums := [], [], [], [];
    }

    /** A store over storage that already holds `doc`. */
    constructor Restore(bootTime: int, doc: Document)
      ensures historian == AiHistorian(bootTime) && defaults == DefaultDocument(bootTime)
      ensures saved && Doc() == doc
    {
      historian := AiHistorian(bootTime);
      defaults := DefaultDocument(bootTime);
      saved := true;
      users, posts, comments, events, messages := doc.users, doc.posts, doc.comments, doc.events, doc.messages;
      stories, notifications, groups, albums := doc.stories, doc.notifications, doc.groups, doc.albums;
    }

    /** The saved document, field by field. */
    function Doc(): Document
      reads this
    {
      Document(users, posts, comments, events, messages, stories, notifications, groups, albums)
    }

    /** What `getDb` hands out: the default document over empty storage,
        otherwise the saved one with the AI historian put back if it is missing. */
    function Loaded(): (d: Document)
      reads this
      ensures HasAiHistorian(d.users)
      ensures saved ==> d == Doc().(users := d.users)
      ensures saved && HasAiHistorian(users) ==> d == Doc()
    {
      if saved then Doc().(users := PatchAiUser(users, historian)) else defaults
    }

    /** `getDb`: over empty storage the default document is saved first; the
        AI-historian patch is handed out but not saved. */
    method GetDb() returns (d: Document)
      modifies this
      ensures d == old(Loaded())
      ensures saved
      ensures old(saved) ==> Doc() == old(Doc())
      ensures !old(saved) ==> Doc() == d
      ensures Loaded() == d
    {
      if !saved {
        SaveDb(defaults);
        d := defaults;
        return;
      }
      d := Doc();
      var found := Find(d.users, UserIdIs(AI_HISTORIAN_ID));
      if found.None? {
        d := d.(users := [historian] + d.users);
      }
    }

    /** `saveDb`: the whole document overwrites the stored one. */
    method SaveDb(d: Document)
      modifies this
      ensures saved && Doc() == d
    {
      saved := true;
      users, posts, comments, events, messages := d.users, d.posts, d.comments, d.events, d.messages;
      stories, notifications, groups, albums := d.stories, d.notifications, d.groups, d.albums;
    }

    /** `getUsers`: always includes the AI historian. */
    function GetUsers(): (r: seq<User>)
      reads this
      ensures HasAiHistorian(r)
      ensures saved && HasAiHistorian(users) ==> r == users
    {
      Loaded().users
    }

    /** `addUser`: appends exactly one user; the first one after the AI historian
        is stored as an administrator. */
    method AddUser(user: User) returns (r: User)
      modifies this
      ensures r == AdmittedUser(old(Loaded()).users, user)
      ensures saved && Doc() == old(Loaded()).(users := old(Loaded()).users + [r])
    {
      var d := GetDb();
      r := user;
      if |d.users| == 1 && d.users[0].id == AI_HISTORIAN_ID {
        r := r.(role := Admin);
      }
      d := d.(users := d.users + [r]);
      SaveDb(d);
    }

    /** `updateUser`: merges the patch into every user with that id and returns
        the first user that has the id afterwards. */
    method UpdateUser(id: string, updates: UserPatch) returns (r: Option<User>)
      modifies this
      ensures saved && Doc() == old(Loaded()).(users := UpdateUsers(old(Loaded()).users, id, updates))
      ensures r == Find(users, UserIdIs(id))
      ensures updates.id.None? || updates.id == Some(id) ==>
        r == match Find(old(Loaded()).users, UserIdIs(id)) case None => None case Some(u) => Some(MergeUser(u, updates))
    {
      var d := GetDb();
      d := d.(users := UpdateUsers(d.users, id, updates));
      SaveDb(d);
      r := Find(d.users, UserIdIs(id));
      if updates.id.None? || updates.id == Some(id) {
        UpdateUserFindsMerged(old(Loaded()).users, id, updates);
      }
    }

    /** `getPosts`: the stored posts, newest first. */
    function GetPosts(): (r: seq<Post>)
      reads this
      ensures SortedDesc(r, PostTime)
      ensures multiset(r) == multiset(Loaded().posts)
    {
      SortDesc(Loaded().posts, PostTime)
    }

    /** `addPost`: the post goes in front. */
    method AddPost(post: Post) returns (r: Post)
      modifies this
      ensures r == post
      ensures saved && Doc() == old(Loaded()).(posts := [post] + old(Loaded()).posts)
      ensures post in GetPosts()
    {
      var d := GetDb();
      d := d.(posts := [post] + d.posts);
      SaveDb(d);
      r := post;
      assert post in multiset(GetPosts());
    }

    /** `updatePostReaction`: sets the user's reaction on every post with that id. */
    method UpdatePostReaction(postId: string, userId: string, t: ReactionType)
      modifies this
      ensures saved && Doc() == old(Loaded()).(posts := ApplyReaction(old(Loaded()).posts, postId, userId, t))
    {
      var d := GetDb();
      d := d.(posts := ApplyReaction(d.posts, postId, userId, t));
      SaveDb(d);
    }

    /** `addComment`: appends the comment and counts it on the first post with its
        post id, if there is one. */
    method AddComment(comment: Comment) returns (r: Comment)
      modifies this
      ensures r == comment
      ensures saved && Doc() == old(Loaded()).(comments := old(Loaded()).comments + [comment],
                                               posts := BumpCommentCount(old(Loaded()).posts, comment.postId))
      ensures GetComments(comment.postId) == old(GetComments(comment.postId)) + [comment]
    {
      var d := GetDb();
      d := d.(comments := d.comments + [comment]);
      var k := IndexOf(d.posts, PostIdIs(comment.postId));
      if k.Some? {
        var post := d.posts[k.value];
        d := d.(posts := d.posts[k.value := post.(commentCount := post.commentCount + 1)]);
      }
      SaveDb(d);
      r := comment;
      FilterConcat(old(Loaded()).comments, [comment], CommentOn(comment.postId));
    }

    /** `getComments`: the comments on one post, in stored order. */
    function GetComments(postId: string): (r: seq<Comment>)
      reads this
      ensures forall i :: 0 <= i < |r| ==> r[i].postId == postId && r[i] in Loaded().comments
      ensures forall c :: c in Loaded().comments && c.postId == postId ==> c in r
    {
      Filter(Loaded().comments, CommentOn(postId))
    }

    function GetGroups(): seq<FamilyGroup>
      reads this
    {
      Loaded().groups
    }

    function GetAlbums(): seq<Album>
      reads this
    {
      Loaded().albums
    }

    /** `addAlbum`: the album goes in front. */
    method AddAlbum(album: Album) returns (r: Album)
      modifies this
      ensures r == album
      ensures saved && Doc() == old(Loaded()).(albums := [album] + old(Loaded()).albums)
      ensures GetAlbums() == [album] + old(GetAlbums())
    {
      var d := GetDb();
      d := d.(albums := [album] + d.albums);
      SaveDb(d);
      r := album;
    }

    /** `getMessages`: the messages between the two users, either direction, in stored order. */
    function GetMessages(u1: string, u2: string): (r: seq<DirectMessage>)
      reads this
      ensures forall i :: 0 <= i < |r| ==>
        && r[i] in Loaded().messages
        && ((r[i].senderId == u1 && r[i].receiverId == u2) || (r[i].senderId == u2 && r[i].receiverId == u1))
      ensures forall m :: (m in Loaded().messages &&
        ((m.senderId == u1 && m.receiverId == u2) || (m.senderId == u2 && m.receiverId == u1))) ==> m in r
    {
      Filter(Loaded().messages, Between(u1, u2))
    }

    /** `getMessages(a, b)` and `getMessages(b, a)` agree. */
    lemma GetMessagesSymmetric(a: string, b: string)
      ensures GetMessages(a, b) == GetMessages(b, a)
    {
      MessagesSymmetric(Loaded().messages, a, b);
    }

    /** `sendMessage`: appends; the message closes the conversation it belongs to. */
    method SendMessage(msg: DirectMessage) returns (r: DirectMessage)
      modifies this
      ensures r == msg
      ensures saved && Doc() == old(Loaded()).(messages := old(Loaded()).messages + [msg])
      ensures GetMessages(msg.senderId, msg.receiverId) == old(GetMessages(msg.senderId, msg.receiverId)) + [msg]
    {
      var d := GetDb();
      d := d.(messages := d.messages + [msg]);
      SaveDb(d);
      r := msg;
      FilterConcat(old(Loaded()).messages, [msg], Between(msg.senderId, msg.receiverId));
    }

    function GetStories(): seq<FamilyStory>
      reads this
    {
      Loaded().stories
    }

    /** `addStory`: the story goes in front. */
    method AddStory(story: FamilyStory) returns (r: FamilyStory)
      modifies this
      ensures r == story
      ensures saved && Doc() == old(Loaded()).(stories := [story] + old(Loaded()).stories)
      ensures GetStories() == [story] + old(GetStories())
    {
      var d := GetDb();
      d := d.(stories := [story] + d.stories);
      SaveDb(d);
      r := story;
    }

    function GetEvents(): seq<FamilyEvent>
      reads this
    {
      Loaded().events
    }

    /** `addEvent`: the event goes at the end. */
    method AddEvent(event: FamilyEvent) returns (r: FamilyEvent)
      modifies this
      ensures r == event
      ensures saved && Doc() == old(Loaded()).(events := old(Loaded()).events + [event])
      ensures GetEvents() == old(GetEvents()) + [event]
    {
      var d := GetDb();
      d := d.(events := d.events + [event]);
      SaveDb(d);
      r := event;
    }

    /** `getNotifications`: exactly the broadcasts and the user's own, newest first. */
    function GetNotifications(userId: string): (r: seq<Notification>)
      reads this
      ensures SortedDesc(r, NotificationTime)
      ensures multiset(r) == multiset(Filter(Loaded().notifications, VisibleTo(userId)))
      ensures forall i :: 0 <= i < |r| ==> r[i] in Loaded().notifications && (r[i].userId == "" || r[i].userId == userId)
      ensures forall n :: n in Loaded().notifications && (n.userId == "" || n.userId == userId) ==> n in r
    {
      var visible := Filter(Loaded().notifications, VisibleTo(userId));
      SortDescMembers(visible, NotificationTime);
      SortDesc(visible, NotificationTime)
    }

    /** `markNotificationsRead` */
    method MarkNotificationsRead(userId: string)
      modifies this
      ensures saved && Doc() == old(Loaded()).(notifications := MarkRead(old(Loaded()).notifications, userId))
      ensures forall i :: 0 <= i < |GetNotifications(userId)| ==> GetNotifications(userId)[i].read
      ensures |GetNotifications(userId)| == old(|GetNotifications(userId)|)
    {
      var d := GetDb();
      d := d.(notifications := MarkRead(d.notifications, userId));
      SaveDb(d);
      MarkReadAllVisibleRead(old(Loaded()).notifications, userId);
      var seen := Filter(notifications, VisibleTo(userId));
      assert forall n: Notification :: n in multiset(seen) ==> n.read;
    }

    /** `clearNotifications`: keeps only other users' own notifications, so the
        user is left with none to see. */
    method ClearNotifications(userId: string)
      modifies this
      ensures saved && Doc() == old(Loaded()).(notifications := ClearFor(old(Loaded()).notifications, userId))
      ensures GetNotifications(userId) == []
    {
      var d := GetDb();
      d := d.(notifications := ClearFor(d.notifications, userId));
      SaveDb(d);
      ClearLeavesNothingVisible(old(Loaded()).notifications, userId);
    }

    /** `addNotification`: the notification goes in front and its addressee sees it. */
    method AddNotification(notif: Notification)
      modifies this
      ensures saved && Doc() == old(Loaded()).(notifications := [notif] + old(Loaded()).notifications)
      ensures notif in GetNotifications(notif.userId)
    {
      var d := GetDb();
      d := d.(notifications := [notif] + d.notifications);
      SaveDb(d);
    }
  }
}
