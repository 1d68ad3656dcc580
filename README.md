# FamilySphere store and handlers in Dafny

This project models the data core of the FamilySphere family social app and
proves properties of it:

- **The mock database** (`services/mockDb.ts`). One document holds nine
  entity sequences: users, posts, comments, events, messages, stories,
  notifications, groups and albums. Every operation loads the document. The
  getters change nothing. Each other operation changes one sequence, except
  `addComment`, which appends to the comments and bumps a post's count, and
  then saves the whole document back. On load over empty storage the store takes the built-in
  default document. Otherwise it puts the AI-historian user back in front
  when it is missing.
- **The shell's handlers** (`App.tsx`): sign-in, sign-up, profile update,
  sign-out, and event and album creation. Also the member directory's name
  filter and the admin-panel gate.
- **The family wall** (`components/Wall.tsx`): posting, liking, showing
  comments and commenting. The wall keeps its own copy of the posts, so a
  like changes that copy in place while the store only ever receives "set
  LIKE".

Files and modules:

| file | module | contents |
|---|---|---|
| `wrappers.dfy` | `Wrappers` | `Option` (a JavaScript `undefined`/absent value is `None`) |
| `seqs.dfy` | `Seqs` | `filter`, `findIndex`/`find` and the stable descending `sort` the code is written with |
| `text.dfy` | `Text` | `trim`, `toLowerCase`, `includes` and `encodeURIComponent` |
| `entities.dfy` | `Entities` | the records of `types.ts` |
| `store.dfy` | `Store` | the document, the rules the store applies as functions with lemmas, and the class `MockDb` |
| `app.dfy` | `App` | sign-in and sign-up rules, directory, admin gate, and the class `AppState` |
| `wall.dfy` | `Wall` | the like and comment rules of the wall, and the class `WallState` |

`MockDb` has one `seq` field per entity kind and a flag `saved`, which says
whether a document is in storage. `Loaded()` is the document `getDb` hands out.
It is the default document when `saved` is false, and otherwise the saved one
with the AI-historian patch. Each mutator is a method, proved against
`Loaded()`: its postcondition gives the whole saved document afterwards in
terms of the document before. The getters are functions of `Loaded()`. The
components are classes too. Their fields are the React state hooks, and their
handlers are methods that modify only the hooks they set and the store object.

The filter at `services/mockDb.ts:164` keeps only notifications that belong
to some other user, so a clear removes every broadcast (a notification with an
empty `userId`) for every user (`ClearRemovesBroadcasts`).

## Model

| member | source | states |
|---|---|---|
| Seqs.Filter | services/mockDb.ts:114 | `filter` keeps exactly the elements that pass the test, taken from the input |
| Seqs.FilterConcat | services/mockDb.ts:108 | filtering an appended sequence is filtering each part, so stored order is kept |
| Seqs.IndexOf | services/mockDb.ts:109 | `findIndex` is absent iff no element passes; otherwise it is the first passing position |
| Seqs.Find | App.tsx:77 | `find` yields the first passing element, and is absent iff no element passes |
| Seqs.InsertDesc | services/mockDb.ts:89 | inserting into a newest-first list keeps it sorted and adds exactly the one element |
| Seqs.SortDesc | services/mockDb.ts:89 | the comparator sort `b - a` yields a descending permutation of its input |
| Seqs.SortDescMembers | services/mockDb.ts:153 | sorting keeps every element and adds none |
| Text.TrimStartSpec | App.tsx:77 | the leading-whitespace strip leaves the suffix after the whitespace |
| Text.TrimEndSpec | App.tsx:77 | the trailing-whitespace strip leaves the prefix before the whitespace |
| Text.Trim | components/Wall.tsx:23 | `trim()` never lengthens the string; its meaning is `TrimSpec` |
| Text.TrimSpec | components/Wall.tsx:23 | `trim()` is the part of the string between its leading and its trailing whitespace: only whitespace before and after it, it starts and ends with non-whitespace, and it is empty exactly for blank input |
| Text.ToLower | App.tsx:77 | `toLowerCase()` keeps the length, turns each ASCII capital into its small letter and keeps every other character |
| Text.Contains | App.tsx:417 | `includes` holds iff the needle occurs at some position |
| Text.Utf8 | App.tsx:107 | a code point encodes to one to four bytes, each below 256 |
| Text.Utf8Spec | App.tsx:107 | the bytes are the shortest UTF-8 form of the code point: the length follows its range, the lead byte announces the length, the rest are continuation bytes, and decoding gives the code point back |
| Text.PercentEncode | App.tsx:107 | three characters per byte, each `%` or an upper-case hex digit |
| Text.PercentEncodeSpec | App.tsx:107 | byte `i` becomes `%` at position `3 * i` followed by two hex digits that read back as the byte |
| Text.EncodeUriComponent | App.tsx:107 | the output uses only unreserved characters, `%` and hex digits; unreserved input comes back unchanged |
| Text.EncodeUriComponentAppend | App.tsx:107 | encoding a concatenation is concatenating the encodings |
| Text.EncodeUriComponentSpec | App.tsx:107 | each character contributes, in place, itself when unreserved and otherwise the percent-escapes of its UTF-8 bytes |
| Store.DefaultDocument | services/mockDb.ts:20-54 | the default document contains the AI historian |
| Store.DefaultUsers | services/mockDb.ts:20-34 | over empty storage the user list is exactly the AI historian, who is an ADMIN |
| Store.PatchAiUser | services/mockDb.ts:63-66 | after the load-time patch the AI historian is present; a document that had it is unchanged; otherwise it goes in front and the others keep their order |
| Store.AdmittedUser | services/mockDb.ts:77 | the record `addUser` stores; its meaning is `AdmittedUserRole` |
| Store.AdmittedUserRole | services/mockDb.ts:75-81 | `addUser` changes only the role, and stores ADMIN iff the historian was alone or ADMIN was asked for |
| Store.MergeUser | services/mockDb.ts:84 | `{ ...u, ...updates }`: every field the patch gives replaces the user's; its use is stated by `UpdateUsers` and `UpdateUserFindsMerged` |
| Store.UpdateUsers | services/mockDb.ts:84 | every user with the id is merged with the patch, every other user is kept in place |
| Store.UpdateUserFindsMerged | services/mockDb.ts:84-86 | `updateUser` returns the merged first user with that id, or nothing when none has it |
| Store.UpdateUsersIdempotent | services/mockDb.ts:84 | applying the same update twice is applying it once, for every patch |
| Store.SetReaction | services/mockDb.ts:100-101 | the reactions after `updatePostReaction` on one post; its meaning is `SetReactionSpec` |
| Store.SetReactionSpec | services/mockDb.ts:100-101 | the user ends with exactly one reaction, of the given type, last; other users' reactions keep their order |
| Store.SetReactionLastWins | services/mockDb.ts:100-101 | setting twice is setting the second type once |
| Store.ApplyReaction | services/mockDb.ts:98-102 | the posts after `updatePostReaction`; its meaning is `ApplyReactionSpec` |
| Store.ApplyReactionSpec | services/mockDb.ts:96-104 | only posts with that id change, only in their reactions, as `SetReactionSpec` says |
| Store.ApplyReactionLastWins | services/mockDb.ts:96-104 | `updatePostReaction` twice equals once (with the same type) |
| Store.BumpCommentCount | services/mockDb.ts:109-110 | the first post with the id counts one more and nothing else changes; with no such post nothing changes |
| Store.BumpKeepsPosition | services/mockDb.ts:109-110 | a bump keeps the post first in line for the next comment |
| Store.CommentCountAfterN | services/mockDb.ts:106-113 | after n comments the post counts n more and no other post changes |
| Store.AddCommentKeepsCounts | services/mockDb.ts:106-113 | with unique post ids, counts that equal the number of comments on each post stay equal |
| Store.MessagesSymmetric | services/mockDb.ts:126 | the conversation filter for (a, b) and for (b, a) selects the same messages |
| Store.MarkRead | services/mockDb.ts:158 | visible notifications become read, the others are untouched |
| Store.MarkReadAllVisibleRead | services/mockDb.ts:156-160 | afterwards the user sees the same notifications as before, in order, each now read |
| Store.ClearFor | services/mockDb.ts:164 | the notifications a clear keeps; its meaning is `ClearLeavesNothingVisible`, `ClearIdempotent` and `ClearRemovesBroadcasts` |
| Store.ClearLeavesNothingVisible | services/mockDb.ts:162-166 | afterwards the user sees no notification |
| Store.ClearIdempotent | services/mockDb.ts:164 | clearing twice is clearing once |
| Store.ClearRemovesBroadcasts | services/mockDb.ts:164 | a clear leaves every other user only the notifications addressed to them |
| Store.MockDb.constructor | services/mockDb.ts:20-54 | over empty storage the store hands out the default document, whose only user is the AI historian, an ADMIN |
| Store.MockDb.Restore | services/mockDb.ts:63-67 | over stored data the store holds that document |
| Store.MockDb.Loaded | services/mockDb.ts:57-68 | the loaded document always has the AI historian and differs from the stored one at most in its users |
| Store.MockDb.GetDb | services/mockDb.ts:57-68 | returns the loaded document; over empty storage it saves the default first, otherwise it saves nothing |
| Store.MockDb.SaveDb | services/mockDb.ts:70-72 | the whole document replaces the stored one |
| Store.MockDb.GetUsers | services/mockDb.ts:74 | the users always include the AI historian |
| Store.MockDb.AddUser | services/mockDb.ts:75-81 | exactly one user is appended, role adjusted per `AdmittedUser`; the caller gets that record |
| Store.MockDb.UpdateUser | services/mockDb.ts:82-87 | the users are replaced by `UpdateUsers`; the result is the merged user, or none |
| Store.MockDb.GetPosts | services/mockDb.ts:89 | newest first, and a permutation of the stored posts |
| Store.MockDb.AddPost | services/mockDb.ts:90-95 | the post is prepended and is then listed by `getPosts` |
| Store.MockDb.UpdatePostReaction | services/mockDb.ts:96-104 | the posts are replaced by `ApplyReaction`, nothing else changes |
| Store.MockDb.AddComment | services/mockDb.ts:106-113 | the comment is appended, the post's count bumped, and `getComments` gains exactly that comment at the end |
| Store.MockDb.GetComments | services/mockDb.ts:114 | exactly the stored comments on that post |
| Store.MockDb.AddAlbum | services/mockDb.ts:118-123 | the album is prepended |
| Store.MockDb.GetMessages | services/mockDb.ts:125-127 | exactly the stored messages between the two users, in either direction |
| Store.MockDb.GetMessagesSymmetric | services/mockDb.ts:125-127 | `getMessages(a, b) == getMessages(b, a)` |
| Store.MockDb.SendMessage | services/mockDb.ts:128-133 | the message is appended and ends the conversation it belongs to |
| Store.MockDb.AddStory | services/mockDb.ts:136-141 | the story is prepended |
| Store.MockDb.AddEvent | services/mockDb.ts:144-149 | the event is appended |
| Store.MockDb.GetNotifications | services/mockDb.ts:151-154 | exactly the broadcasts and the user's own, newest first |
| Store.MockDb.MarkNotificationsRead | services/mockDb.ts:156-160 | everything the user sees is read, and the user sees as many as before |
| Store.MockDb.ClearNotifications | services/mockDb.ts:162-166 | the notifications become `ClearFor`, and the user then sees none |
| Store.MockDb.AddNotification | services/mockDb.ts:168-172 | the notification is prepended and its addressee sees it |
| App.Authenticate | App.tsx:76-78 | the sign-in decision; its meaning is `AuthenticateSpec` |
| App.AuthenticateSpec | App.tsx:76-78 | sign-in succeeds iff the first user with the same trimmed, lower-cased email accepts the password (the stored one when non-empty, else `"password"`), and yields that user |
| App.NewMember | App.tsx:100-108 | the record `handleSignup` builds; its meaning is `SignupRoleRule` and `SignupThenLogin` |
| App.SignupRoleRule | App.tsx:100-111 | a new member is ADMIN iff only the AI historian was there, and gets `'Family Member'` when the relationship is blank |
| App.SignupThenLogin | App.tsx:76-111 | after signing up, one can sign in with the same email and the chosen password, or with `"password"` when it was left blank |
| App.FirstSignupIsAdmin | App.tsx:103 | on a fresh store the first sign-up becomes ADMIN and the second MEMBER |
| App.Directory | App.tsx:417 | exactly the users whose lower-cased name contains the lower-cased search |
| App.EmptySearchListsEveryone | App.tsx:417 | an empty search lists every user, in order |
| App.ShowsAdminPanel | App.tsx:460 | the admin gate; its meaning is `LoginAdminGate` and `SignupAdminGate` |
| App.LoginAdminGate | App.tsx:460 | after a successful sign-in the admin tab shows the panel iff the first stored user with that email is an ADMIN |
| App.SignupAdminGate | App.tsx:460 | after a successful sign-up the admin tab shows the panel iff only the AI historian was registered before |
| App.ProfileOf | App.tsx:83-88 | the profile form loaded at sign-in and sign-up; stated through `HandleLogin` and `HandleSignup` |
| App.NewEvent | App.tsx:141-149 | the event `handleCreateEvent` builds; stated through `HandleCreateEvent` |
| App.NewAlbum | App.tsx:157-162 | a blank cover becomes the default Unsplash picture, so the cover is never blank |
| App.AppState.constructor | App.tsx:16-47 | signed out, on the home tab, every form blank |
| App.AppState.HandleLogin | App.tsx:74-93 | on success the session is the matched user, the error is cleared and the profile form is filled, and the admin panel shows iff that user is an ADMIN; on failure only the error changes, to `'Member credentials not verified.'` |
| App.AppState.HandleSignup | App.tsx:95-119 | a taken email leaves store and session alone and sets `'Email already registered!'`; otherwise exactly one user is added and signed in, and sees the admin panel iff only the AI historian was there before |
| App.AppState.HandleUpdateProfile | App.tsx:121-130 | the form is merged into the signed-in user's record and the session follows the stored record |
| App.AppState.HandleLogout | App.tsx:132-136 | no session, on the home tab, no admin panel |
| App.AppState.HandleCreateEvent | App.tsx:138-153 | no-op without a session; otherwise one event is appended, created and RSVPed by the user, and the modal closes |
| App.AppState.HandleCreateAlbum | App.tsx:155-166 | one album is prepended with the cover default; the modal closes |
| Wall.HasReacted | components/Wall.tsx:50 | `some` holds iff the user has a reaction on the post |
| Wall.ToggleLike | components/Wall.tsx:50-53 | the reactions the view shows after a click; its meaning is `ToggleLikeSpec` |
| Wall.ToggleLikeSpec | components/Wall.tsx:50-53 | a click flips whether the view shows a reaction by the user and keeps the others' reactions in order |
| Wall.LikeThenUnlike | components/Wall.tsx:50-53 | like then unlike in the view gives the reactions back |
| Wall.LikeView | components/Wall.tsx:48-64 | posts with the id get toggled reactions; every other post is shown as it was |
| Wall.LikeViewAgreesWithStore | components/Wall.tsx:53-56 | for a first like the view shows what the store keeps |
| Wall.UnlikeKeepsStoredLike | components/Wall.tsx:56 | after an unlike the view shows no reaction by the user while the store holds exactly one LIKE by them |
| Wall.Toggled | components/Wall.tsx:69 | only the post's flag flips; every other entry is kept |
| Wall.ToggleTwice | components/Wall.tsx:68-70 | toggling twice restores what was shown |
| Wall.NewPost | components/Wall.tsx:27-36 | the post `handlePost` builds; stated through `HandlePost` |
| Wall.NewComment | components/Wall.tsx:76-83 | the comment `handleCommentSubmit` builds; stated through `HandleCommentSubmit` |
| Wall.WallState.constructor | components/Wall.tsx:12-20 | on mount the view is the store's posts, newest first |
| Wall.WallState.HandlePost | components/Wall.tsx:22-42 | blank text or no user changes nothing; otherwise one post with no reactions and no comments is prepended, the view reloaded and the box cleared |
| Wall.WallState.HandleLike | components/Wall.tsx:44-66 | the view becomes `LikeView`; when the post is shown the store is as after one "set LIKE", otherwise unchanged |
| Wall.WallState.ToggleComments | components/Wall.tsx:68-70 | the expanded map becomes `Toggled` |
| Wall.WallState.HandleCommentSubmit | components/Wall.tsx:72-89 | a missing or blank input or no user changes nothing; otherwise the comment is stored and counted, only that input is cleared and the view reloaded |

## Left out

- Storage and serialisation: `localStorage` (`getItem`/`setItem`/`removeItem`), `JSON.parse`/`JSON.stringify`, and the keys `familysphere_db`, `fs_user` and `theme`. This is I/O; the document is the `MockDb` fields.
- Store.MockDb.GetDb: does not model `DEFAULT_DB` being one shared object. Over empty storage the source returns that object itself, so a later `push` changes the default held in memory. The model hands out a copy every time.
- Store.MockDb.GetUsers: the getters are functions, so they drop the side effect of `getDb` over empty storage, which saves the default document. The document they return is the same either way.
- Store.MockDb.GetGroups, Store.MockDb.GetAlbums, Store.MockDb.GetStories, Store.MockDb.GetEvents: plain projections of the loaded document, with no contract of their own beyond that definition.
- Ids (`Math.random`) and timestamps (`new Date().toISOString()`, `Date.now()`) are parameters. Timestamps are the milliseconds they denote, so the newest-first sorts compare integers. The default document's clock reading is the constructor's `bootTime`.
- Text.ToLower: only ASCII letters are lower-cased. JavaScript's full Unicode case mapping is not modelled.
- Text.EncodeUriComponent: lone surrogates, which make JavaScript throw `URIError`, cannot occur. Dafny characters are Unicode scalar values.
- Store.SetReaction: the reaction-type argument is `any` in the source; the model restricts it to the five reaction types.
- `Comment.replies` and the other optional record fields that no modelled operation reads are not part of the records.
- App.AppState.constructor: the session restored from `fs_user` on mount (App.tsx:60-72) and the `document.title` effect (App.tsx:50-58) are left out. Like the first, `HandleLogin`, `HandleSignup`, `HandleUpdateProfile` and `HandleLogout` do not write `fs_user`.
- App.AppState.HandleUpdateProfile: the confirmation `alert` is left out.
- `isLoginView`, `showPassword`, `selectedContactId` and `navigateToChat` only switch views, so they are left out.
- Wall.WallState.constructor: the signed-in user is a constant of the component, as a React prop is during one mount.
- `isPosting` is set and cleared within one call of `handlePost`; only its final value is stated.
- services/geminiService.ts makes network calls to a generative-text API, so it is not part of this model.
- components/CameraCapture.tsx works on browser media devices, so it is not part of this model.
- components/Layout.tsx, components/Dashboard.tsx, components/Messages.tsx, components/AdminPanel.tsx and constants.tsx are rendering and static data. Their calls into the store are the operations modelled here.
- The JSX render trees are left out, except the directory filter and the admin gate.
