/** App.tsx: the composition root. The session (`None` signed out,
    `Some(user)` signed in), the active tab, the sign-in/sign-up form, the
    profile form and the two creation modals, with the handlers that read and
    write the store. */
module App {
  import opened Wrappers
  import opened Seqs
  import opened Text
  import opened Entities
  import opened Store

  const DEFAULT_PASSWORD: string := "password"
  const LOGIN_ERROR: string := "Member credentials not verified."
  const SIGNUP_ERROR: string := "Email already registered!"
  const DEFAULT_RELATIONSHIP: string := "Family Member"
  const NEW_MEMBER_BIO: string := "I'm new to our private sphere!"
  const DEFAULT_ALBUM_COVER: string := "https://images.unsplash.com/photo-1511895426328-dc8714191300?w=800"
  const AVATAR_SERVICE: string := "https://ui-avatars.com/api/?name="
  const AVATAR_STYLE: string := "&background=6366f1&color=fff&size=512"
  const HOME_TAB: string := "home"
  const ADMIN_TAB: string := "admin"

  // ---------------------------------------------------------------- sign-in and sign-up rules

  /** `s.trim().toLowerCase()` */
  function NormalizeEmail(s: string): string {
    ToLower(Trim(s))
  }

  function EmailIs(email: string): User -> bool {
    (u: User) => NormalizeEmail(u.email) == NormalizeEmail(email)
  }

  /** `found.password ? password === found.password : password === 'password'` */
  predicate PasswordAccepted(u: User, password: string) {
    if Truthy(u.password) then password == u.password.value else password == DEFAULT_PASSWORD
  }

  /** `users[k]` is the first user whose normalised email is the normalised `email`. */
  predicate FirstWithEmail(users: seq<User>, email: string, k: int) {
    && 0 <= k < |users|
    && EmailIs(email)(users[k])
    && forall j :: 0 <= j < k ==> !EmailIs(email)(users[j])
  }

  /** The decision of `handleLogin` (its meaning: `AuthenticateSpec`). */
  function Authenticate(users: seq<User>, email: string, password: string): Option<User> {
    match Find(users, EmailIs(email))
    case None => None
    case Some(u) => if PasswordAccepted(u, password) then Some(u) else None
  }

  /** Sign-in succeeds exactly when the first user with a matching email
      accepts the password, and then yields that user. */
  lemma AuthenticateSpec(users: seq<User>, email: string, password: string)
    ensures var r := Authenticate(users, email, password);
      && (r.Some? <==> exists k :: FirstWithEmail(users, email, k) && PasswordAccepted(users[k], password))
      && (r.Some? ==> exists k :: FirstWithEmail(users, email, k) && r.value == users[k])
  {
    var found := Find(users, EmailIs(email));
    if found.Some? {
      var k :| FirstWithEmail(users, email, k) && users[k] == found.value;
      assert forall k' :: FirstWithEmail(users, email, k') ==> k' == k;
    }
  }

  /** `db.getUsers().length <= 1 ? ADMIN : MEMBER` */
  function SignupRole(users: seq<User>): Role {
    if |users| <= 1 then Admin else Member
  }

  /** `https://ui-avatars.com/api/?name=${encodeURIComponent(name)}&...` */
  function AvatarUrl(name: string): string {
    AVATAR_SERVICE + EncodeUriComponent(name) + AVATAR_STYLE
  }

  /** The record `handleSignup` builds from the form, before `addUser`. */
  function NewMember(id: string, name: string, email: string, password: string, relationship: string,
                     users: seq<User>, now: int): User {
    User(id, name, email, Some(password), SignupRole(users), Some(AvatarUrl(name)), None,
         Some(OrElse(Some(relationship), DEFAULT_RELATIONSHIP)), Some(NEW_MEMBER_BIO), None, now)
  }

  /** The user a successful sign-up stores and signs in: ADMIN exactly when only
      the AI historian was there before, the relationship defaulted when blank. */
  lemma SignupRoleRule(users: seq<User>, id: string, name: string, email: string, password: string,
                       relationship: string, now: int)
    requires HasAiHistorian(users)
    ensures var added := AdmittedUser(users, NewMember(id, name, email, password, relationship, users, now));
      && (added.role == Admin <==> |users| == 1)
      && (added.role == Member <==> |users| > 1)
      && added.relationship == Some(if relationship == "" then DEFAULT_RELATIONSHIP else relationship)
      && added.email == email && added.password == Some(password)
  {
    var u := NewMember(id, name, email, password, relationship, users, now);
    AdmittedUserRole(users, u);
  }

  /** A new member can sign in with the email they signed up with, with their
      password, and with "password" instead when they left it blank. */
  lemma SignupThenLogin(users: seq<User>, id: string, name: string, email: string, password: string,
                        relationship: string, now: int, attempt: string)
    requires Find(users, EmailIs(email)).None?
    ensures var added := AdmittedUser(users, NewMember(id, name, email, password, relationship, users, now));
      Authenticate(users + [added], email, attempt)
        == if (password != "" && attempt == password) || (password == "" && attempt == DEFAULT_PASSWORD)
           then Some(added) else None
  {
    var added := AdmittedUser(users, NewMember(id, name, email, password, relationship, users, now));
    var all := users + [added];
    assert EmailIs(email)(all[|users|]);
    assert forall j :: 0 <= j < |users| ==> all[j] == users[j];
    assert FirstWithEmail(all, email, |users|);
  }

  /** The sign-up scenario on a fresh store: the first member becomes an
      administrator, the one after a member. */
  lemma FirstSignupIsAdmin(bootTime: int, a: User, b: User)
    ensures var users0 := DefaultDocument(bootTime).users;
      var alice := AdmittedUser(users0, a.(role := SignupRole(users0)));
      var users1 := users0 + [alice];
      var bob := AdmittedUser(users1, b.(role := SignupRole(users1)));
      alice.role == Admin && bob.role == Member
  {
    var users0 := DefaultDocument(bootTime).users;
    assert |users0| == 1;
  }

  // ---------------------------------------------------------------- the directory and the admin gate

  function NameMatches(search: string): User -> bool {
    (u: User) => Contains(ToLower(u.name), ToLower(search))
  }

  /** The directory (line 417): exactly the users whose lower-cased name contains
      the lower-cased search, in the store's order. */
  function Directory(users: seq<User>, search: string): (r: seq<User>)
    ensures forall i :: 0 <= i < |r| ==> r[i] in users && Contains(ToLower(r[i].name), ToLower(search))
    ensures forall i :: 0 <= i < |users| && Contains(ToLower(users[i].name), ToLower(search)) ==> users[i] in r
  {
    Filter(users, NameMatches(search))
  }

  /** An empty search lists everybody. */
  lemma EmptySearchListsEveryone(users: seq<User>)
    ensures Directory(users, "") == users
  {
    forall i | 0 <= i < |users| ensures NameMatches("")(users[i]) {
      assert OccursAt(ToLower(users[i].name), ToLower(""), 0);
    }
    FilterAll(users, NameMatches(""));
  }

  /** `activeTab === 'admin' && user.role === UserRole.ADMIN` (line 460). */
  predicate ShowsAdminPanel(activeTab: string, session: Option<User>) {
    activeTab == ADMIN_TAB && session.Some? && session.value.role == Admin
  }

  /** After a successful sign-in the admin tab shows the panel exactly when the
      first stored user with that email, the one the session now holds, is an
      administrator. */
  lemma LoginAdminGate(users: seq<User>, email: string, password: string)
    requires Authenticate(users, email, password).Some?
    ensures ShowsAdminPanel(ADMIN_TAB, Authenticate(users, email, password))
        <==> exists k :: FirstWithEmail(users, email, k) && users[k].role == Admin
  {
    AuthenticateSpec(users, email, password);
    var k :| FirstWithEmail(users, email, k) && Authenticate(users, email, password).value == users[k];
    assert forall k' :: FirstWithEmail(users, email, k') ==> k' == k;
  }

  /** After a successful sign-up the admin tab shows the panel exactly when the
      AI historian was the only user before. */
  lemma SignupAdminGate(users: seq<User>, id: string, name: string, email: string, password: string,
                        relationship: string, now: int)
    requires HasAiHistorian(users)
    ensures ShowsAdminPanel(ADMIN_TAB, Some(AdmittedUser(users, NewMember(id, name, email, password, relationship, users, now))))
        <==> |users| == 1
  {
    SignupRoleRule(users, id, name, email, password, relationship, now);
  }

  // ---------------------------------------------------------------- form state

  /** The profile form (`profileUpdates`). */
  datatype ProfileForm = ProfileForm(name: string, bio: string, relationship: string, profileImage: string)

  /** What signing in or up loads into the profile form. */
  function ProfileOf(u: User): ProfileForm {
    ProfileForm(u.name, OrElse(u.bio, ""), OrElse(u.relationship, ""), OrElse(u.profileImage, AvatarUrl(u.name)))
  }

  /** The `Partial<User>` that `handleUpdateProfile` sends: the four form fields. */
  function ProfilePatch(f: ProfileForm): UserPatch {
    UserPatch(None, Some(f.name), None, None, None, Some(f.profileImage), None,
              Some(f.relationship), Some(f.bio), None, None)
  }

  datatype EventForm = EventForm(title: string, description: string, date: string, eventType: EventType)

  datatype AlbumForm = AlbumForm(name: string, description: string, coverImage: string)

  const BLANK_EVENT_FORM: EventForm := EventForm("", "", "", Gathering)
  const BLANK_ALBUM_FORM: AlbumForm := AlbumForm("", "", "")

  /** The event `handleCreateEvent` builds: created by the signed-in user, who is its first RSVP. */
  function NewEvent(id: string, f: EventForm, creator: User): FamilyEvent {
    FamilyEvent(id, f.title, f.description, f.date, f.eventType, creator.id, [creator.id])
  }

  /** The album `handleCreateAlbum` builds: a blank cover becomes the default picture. */
  function NewAlbum(id: string, f: AlbumForm): (a: Album)
    ensures a.coverImage == (if f.coverImage == "" then DEFAULT_ALBUM_COVER else f.coverImage)
    ensures a.coverImage != ""
    ensures a.id == id && a.name == f.name && a.description == f.description
  {
    Album(id, f.name, f.description, OrElse(Some(f.coverImage), DEFAULT_ALBUM_COVER))
  }

  // ---------------------------------------------------------------- the component

  class AppState {
    const db: MockDb
    var user: Option<User>
    var activeTab: string
    var email: string
    var password: string
    var name: string
    var relationship: string
    var error: string
    var profileUpdates: ProfileForm
    var memberSearch: string
    var showEventModal: bool
    var showAlbumModal: bool
    var eventForm: EventForm
    var albumForm: AlbumForm

    /** The initial state: signed out, on the home tab, every form blank. */
    constructor (db: MockDb)
      ensures this.db == db && user.None? && activeTab == HOME_TAB && error == ""
      ensures email == "" && password == "" && name == "" && relationship == "" && memberSearch == ""
      ensures profileUpdates == ProfileForm("", "", "", "")
      ensures !showEventModal && !showAlbumModal
      ensures eventForm == BLANK_EVENT_FORM && albumForm == BLANK_ALBUM_FORM
    {
      this.db := db;
      user := None;
      activeTab := HOME_TAB;
      email, password, name, relationship, error, memberSearch := "", "", "", "", "", "";
      profileUpdates := ProfileForm("", "", "", "");
      showEventModal, showAlbumModal := false, false;
      eventForm, albumForm := BLANK_EVENT_FORM, BLANK_ALBUM_FORM;
    }

    /** `handleLogin`: on success the session is the matched user and the error is
        cleared; on failure only the error message changes. */
    method HandleLogin()
      modifies this`user, this`error, this`profileUpdates
      ensures Authenticate(db.GetUsers(), email, password).Some? ==>
        && user == Authenticate(db.GetUsers(), email, password) && error == ""
        && profileUpdates == ProfileOf(user.value)
      ensures Authenticate(db.GetUsers(), email, password).None? ==>
        user == old(user) && error == LOGIN_ERROR && profileUpdates == old(profileUpdates)
      ensures Authenticate(db.GetUsers(), email, password).Some? ==>
        (ShowsAdminPanel(ADMIN_TAB, user) <==> exists k :: FirstWithEmail(db.GetUsers(), email, k) && db.GetUsers()[k].role == Admin)
    {
      var found := Authenticate(db.GetUsers(), email, password);
      if found.Some? {
        LoginAdminGate(db.GetUsers(), email, password);
        user := found;
        profileUpdates := ProfileOf(found.value);
        error := "";
      } else {
        error := LOGIN_ERROR;
      }
    }

    /** `handleSignup`: an email already taken, compared trimmed and lower-cased,
        leaves the store and the session alone and sets the error; otherwise
        exactly one user is added and signed in. */
    method HandleSignup(id: string, now: int)
      modifies this`user, this`error, this`profileUpdates, db
      ensures Find(old(db.GetUsers()), EmailIs(email)).Some? ==>
        && error == SIGNUP_ERROR && user == old(user) && profileUpdates == old(profileUpdates)
        && db.saved == old(db.saved) && db.Doc() == old(db.Doc())
      ensures Find(old(db.GetUsers()), EmailIs(email)).None? ==>
        var before := old(db.Loaded()).users;
        var added := AdmittedUser(before, NewMember(id, name, email, password, relationship, before, now));
        && user == Some(added) && error == "" && profileUpdates == ProfileOf(added)
        && db.saved && db.Doc() == old(db.Loaded()).(users := before + [added])
      ensures Find(old(db.GetUsers()), EmailIs(email)).None? ==>
        (ShowsAdminPanel(ADMIN_TAB, user) <==> |old(db.GetUsers())| == 1)
    {
      var existing := Find(db.GetUsers(), EmailIs(email));
      if existing.Some? {
        error := SIGNUP_ERROR;
        return;
      }
      SignupAdminGate(db.GetUsers(), id, name, email, password, relationship, now);
      var newUser := NewMember(id, name, email, password, relationship, db.GetUsers(), now);
      var added := db.AddUser(newUser);
      user := Some(added);
      profileUpdates := ProfileOf(added);
      error := "";
    }

    /** `handleUpdateProfile`: the profile form is merged into the signed-in
        user's record, and the session follows the stored record. */
    method HandleUpdateProfile()
      modifies this`user, db
      ensures old(user).None? ==> user == old(user) && db.saved == old(db.saved) && db.Doc() == old(db.Doc())
      ensures old(user).Some? ==>
        var id := old(user).value.id;
        && db.saved && db.Doc() == old(db.Loaded()).(users := UpdateUsers(old(db.Loaded()).users, id, ProfilePatch(profileUpdates)))
        && user == match Find(old(db.Loaded()).users, UserIdIs(id))
                   case None => old(user)
                   case Some(u) => Some(MergeUser(u, ProfilePatch(profileUpdates)))
    {
      if user.None? {
        return;
      }
      var updated := db.UpdateUser(user.value.id, ProfilePatch(profileUpdates));
      if updated.Some? {
        user := updated;
      }
    }

    /** `handleLogout`: signed out, back on the home tab. */
    method HandleLogout()
      modifies this`user, this`activeTab
      ensures user.None? && activeTab == HOME_TAB
      ensures !ShowsAdminPanel(activeTab, user)
    {
      user := None;
      activeTab := HOME_TAB;
    }

    /** `handleCreateEvent`: nothing without a session; otherwise one event,
        created by and RSVPed by the signed-in user, is appended and the modal closes. */
    method HandleCreateEvent(id: string)
      modifies this`showEventModal, this`eventForm, db
      ensures user.None? ==>
        && showEventModal == old(showEventModal) && eventForm == old(eventForm)
        && db.saved == old(db.saved) && db.Doc() == old(db.Doc())
      ensures user.Some? ==>
        && db.saved && db.Doc() == old(db.Loaded()).(events := old(db.Loaded()).events + [NewEvent(id, old(eventForm), user.value)])
        && !showEventModal && eventForm == BLANK_EVENT_FORM
      ensures user.Some? ==>
        var events := db.GetEvents();
        && |events| == |old(db.GetEvents())| + 1
        && events[|events| - 1].createdBy == user.value.id && events[|events| - 1].rsvps == [user.value.id]
    {
      if user.None? {
        return;
      }
      var event := NewEvent(id, eventForm, user.value);
      var _ := db.AddEvent(event);
      showEventModal := false;
      eventForm := BLANK_EVENT_FORM;
    }

    /** `handleCreateAlbum`: one album goes in front of the albums, with the
        default cover when none was given; the modal closes. */
    method HandleCreateAlbum(id: string)
      modifies this`showAlbumModal, this`albumForm, db
      ensures db.saved && db.Doc() == old(db.Loaded()).(albums := [NewAlbum(id, old(albumForm))] + old(db.Loaded()).albums)
      ensures !showAlbumModal && albumForm == BLANK_ALBUM_FORM
    {
      var album := NewAlbum(id, albumForm);
      var _ := db.AddAlbum(album);
      showAlbumModal := false;
      albumForm := BLANK_ALBUM_FORM;
    }

    /** What the directory tab lists for the current search. */
    function DirectoryMembers(): seq<User>
      reads this, db
    {
      Directory(db.GetUsers(), memberSearch)
    }
  }
}
