/** The records of types.ts. Identifiers are opaque strings; every
    `createdAt`/`timestamp` is a point in time in milliseconds, so that
    the newest-first orderings are well defined. Optional fields are `Option`s. */
module Entities {
  import opened Wrappers

  datatype Role = Admin | Moderator | Member

  /** 'LIKE' | 'HEART' | 'LAUGH' | 'WOW' | 'SAD' */
  datatype ReactionType = Like | Heart | Laugh | Wow | Sad

  /** 'BIRTHDAY' | 'ANNIVERSARY' | 'TRIP' | 'GATHERING' */
  datatype EventType = Birthday | Anniversary | Trip | Gathering

  /** 'LIKE' | 'COMMENT' | 'MESSAGE' | 'EVENT' */
  datatype NotificationType = LikeNotice | CommentNotice | MessageNotice | EventNotice

  datatype User = User(
    id: string,
    name: string,
    email: string,
    password: Option<string>,
    role: Role,
    profileImage: Option<string>,
    coverImage: Option<string>,
    relationship: Option<string>,
    bio: Option<string>,
    birthday: Option<string>,
    createdAt: int)

  /** A `Partial<User>`: the fields it carries replace the user's. */
  datatype UserPatch = UserPatch(
    id: Option<string>,
    name: Option<string>,
    email: Option<string>,
    password: Option<string>,
    role: Option<Role>,
    profileImage: Option<string>,
    coverImage: Option<string>,
    relationship: Option<string>,
    bio: Option<string>,
    birthday: Option<string>,
    createdAt: Option<int>)

  datatype Reaction = Reaction(userId: string, reactionType: ReactionType)

  datatype Post = Post(
    id: string,
    userId: string,
    groupId: Option<string>,
    authorName: string,
    authorImage: Option<string>,
    content: string,
    imageUrl: Option<string>,
    reactions: seq<Reaction>,
    commentCount: int,
    createdAt: int)

  datatype Comment = Comment(
    id: string,
    postId: string,
    userId: string,
    authorName: string,
    authorImage: Option<string>,
    content: string,
    createdAt: int)

  datatype FamilyGroup = FamilyGroup(
    id: string,
    name: string,
    description: string,
    icon: string,
    memberCount: int)

  datatype DirectMessage = DirectMessage(
    id: string,
    senderId: string,
    receiverId: string,
    text: string,
    timestamp: int,
    read: bool)

  datatype FamilyEvent = FamilyEvent(
    id: string,
    title: string,
    description: string,
    date: string,
    eventType: EventType,
    createdBy: string,
    rsvps: seq<string>)

  datatype Notification = Notification(
    id: string,
    userId: string,
    fromName: string,
    notificationType: NotificationType,
    content: string,
    read: bool,
    createdAt: int)

  datatype FamilyStory = FamilyStory(
    id: string,
    userId: string,
    userName: string,
    userImage: string,
    imageUrl: string,
    createdAt: int)

  datatype Album = Album(
    id: string,
    name: string,
    description: string,
    coverImage: string)

  /** JavaScript truthiness of an optional string: present and not empty. */
  predicate Truthy(o: Option<string>) {
    o.Some? && o.value != ""
  }

  /** `o || fallback` on an optional string. */
  function OrElse(o: Option<string>, fallback: string): string {
    if Truthy(o) then o.value else fallback
  }
}
