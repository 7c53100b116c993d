/** Accounts and the session (the authentication context), and the store
    that holds every collection of the application. */
module Auth {
  import opened Records
  import Seqs

  // ---------------------------------------------------------------- login

  /** A stored account whose email and password both equal the given ones,
      compared exactly. */
  predicate HasCredentials(u: StoredUser, email: string, password: string) {
    u.profile.email == email && u.password == password
  }

  /** `users.find(...)`: the first stored account with these credentials. */
  function FindByCredentials(users: seq<StoredUser>, email: string, password: string): (r: Option<nat>)
    ensures r.None? <==> forall i :: 0 <= i < |users| ==> !HasCredentials(users[i], email, password)
    ensures r.Some? ==> r.value < |users| && HasCredentials(users[r.value], email, password)
    ensures r.Some? ==> forall j :: 0 <= j < r.value ==> !HasCredentials(users[j], email, password)
  {
    if users == [] then None
    else if HasCredentials(users[0], email, password) then Some(0)
    else match FindByCredentials(users[1..], email, password)
      case None => None
      case Some(k) => Some(k + 1)
  }

  datatype LoginError = NoUsersFound | InvalidEmailOrPassword

  /** The decision `login` makes: with no users key it fails with "No users
      found"; otherwise it signs in the first account whose email and
      password match, as that account without its password. */
  function Authenticate(users: Option<seq<StoredUser>>, email: string, password: string): (r: Result<User, LoginError>)
    ensures users.None? ==> r == Err(NoUsersFound)
    ensures users.Some? ==>
      (r.Ok? <==> exists i :: 0 <= i < |users.value| && HasCredentials(users.value[i], email, password))
    ensures r.Ok? ==> exists u :: u in Items(users) && HasCredentials(u, email, password) && r.value == u.profile
    ensures users.Some? && r.Ok? ==>
      exists i :: 0 <= i < |users.value| && HasCredentials(users.value[i], email, password)
        && (forall j :: 0 <= j < i ==> !HasCredentials(users.value[j], email, password))
        && r.value == users.value[i].profile
    ensures r.Err? && users.Some? ==> r.error == InvalidEmailOrPassword
  {
    match users
    case None => Err(NoUsersFound)
    case Some(us) =>
      match FindByCredentials(us, email, password)
      case None => Err(InvalidEmailOrPassword)
      case Some(i) => Ok(us[i].profile)
  }

  // ---------------------------------------------------------- registration

  /** What `register` receives; role and topics may be left out. */
  datatype Registration = Registration(
    name: string,
    email: string,
    password: string,
    role: Option<Role>,
    institution: string,
    selectedTopics: Option<seq<string>>)

  /** The account `register` creates: role defaults to respondent, topics to
      none, and the starting grant is 100 points for a researcher and 0
      otherwise. */
  function NewAccount(req: Registration, id: string): (u: StoredUser)
    ensures u.profile.id == id && u.password == req.password
    ensures u.profile.name == req.name && u.profile.email == req.email
    ensures u.profile.institution == req.institution
    ensures u.profile.role == Researcher <==> req.role == Some(Researcher)
    ensures u.profile.points == (if req.role == Some(Researcher) then 100 else 0)
    ensures u.profile.points == (if u.profile.role == Researcher then 100 else 0)
    ensures req.selectedTopics.None? ==> u.profile.selectedTopics == []
    ensures req.selectedTopics.Some? ==> u.profile.selectedTopics == req.selectedTopics.value
  {
    StoredUser(
      User(id, req.name, req.email, req.role.GetOr(Respondent), req.institution,
           if req.role == Some(Researcher) then 100 else 0,
           req.selectedTopics.GetOr([])),
      req.password)
  }

  predicate EmailTaken(users: seq<StoredUser>, email: string) {
    exists i :: 0 <= i < |users| && users[i].profile.email == email
  }

  /** No two stored accounts share an email. */
  ghost predicate UniqueEmails(users: seq<StoredUser>) {
    forall i, j :: 0 <= i < j < |users| ==> users[i].profile.email != users[j].profile.email
  }

  datatype RegisterError = UserAlreadyExists

  /** The users collection after `register`: refused when the email is
      taken, otherwise the old list with the new account appended. */
  function Enroll(users: seq<StoredUser>, req: Registration, id: string): (r: Result<seq<StoredUser>, RegisterError>)
    ensures r.Err? <==> EmailTaken(users, req.email)
    ensures r.Ok? ==> |r.value| == |users| + 1 && r.value[..|users|] == users
    ensures r.Ok? ==> r.value[|users|] == NewAccount(req, id)
    ensures r.Ok? && UniqueEmails(users) ==> UniqueEmails(r.value)
  {
    if EmailTaken(users, req.email) then Err(UserAlreadyExists)
    else Ok(users + [NewAccount(req, id)])
  }

  // --------------------------------------------------------------- updates

  /** `Partial<User>`: the fields a profile update sets. */
  datatype ProfilePatch = ProfilePatch(
    id: Option<string>,
    name: Option<string>,
    email: Option<string>,
    role: Option<Role>,
    institution: Option<string>,
    points: Option<int>,
    selectedTopics: Option<seq<string>>)

  /** `{ ...u, ...patch }`: every field the patch sets is taken from it, every
      other field is kept. */
  function Merge(u: User, patch: ProfilePatch): (r: User)
    ensures r.id == patch.id.GetOr(u.id) && r.name == patch.name.GetOr(u.name)
    ensures r.email == patch.email.GetOr(u.email) && r.role == patch.role.GetOr(u.role)
    ensures r.institution == patch.institution.GetOr(u.institution)
    ensures r.points == patch.points.GetOr(u.points)
    ensures r.selectedTopics == patch.selectedTopics.GetOr(u.selectedTopics)
  {
    User(patch.id.GetOr(u.id), patch.name.GetOr(u.name), patch.email.GetOr(u.email),
         patch.role.GetOr(u.role), patch.institution.GetOr(u.institution),
         patch.points.GetOr(u.points), patch.selectedTopics.GetOr(u.selectedTopics))
  }

  /** A patch that sets nothing changes nothing. */
  lemma EmptyPatchIsIdentity(u: User)
    ensures Merge(u, ProfilePatch(None, None, None, None, None, None, None)) == u
  {
  }

  /** The users collection after a profile update by the account `id`: the
      patch is merged into exactly the stored accounts with that id;
      passwords and every other account are kept. */
  function MergeWhereId(users: seq<StoredUser>, id: string, patch: ProfilePatch): (r: seq<StoredUser>)
    ensures |r| == |users|
    ensures forall i :: 0 <= i < |users| && users[i].profile.id == id ==>
      r[i] == StoredUser(Merge(users[i].profile, patch), users[i].password)
    ensures forall i :: 0 <= i < |users| && users[i].profile.id != id ==> r[i] == users[i]
  {
    Seqs.UpdateWhere(users, (u: StoredUser) => u.profile.id == id,
                     (u: StoredUser) => u.(profile := Merge(u.profile, patch)))
  }

  /** The users collection after `updateUserPoints` by the account `id`:
      the balance of exactly the accounts with that id is REPLACED by
      `points`; nothing else changes. */
  function SetPointsWhereId(users: seq<StoredUser>, id: string, points: int): (r: seq<StoredUser>)
    ensures |r| == |users|
    ensures forall i :: 0 <= i < |users| && users[i].profile.id == id ==>
      r[i] == users[i].(profile := users[i].profile.(points := points))
    ensures forall i :: 0 <= i < |users| && users[i].profile.id != id ==> r[i] == users[i]
  {
    Seqs.UpdateWhere(users, (u: StoredUser) => u.profile.id == id,
                     (u: StoredUser) => u.(profile := u.profile.(points := points)))
  }

  /** A points update is the profile update whose patch sets only `points`. */
  lemma SetPointsIsPointsPatch(users: seq<StoredUser>, id: string, points: int)
    ensures SetPointsWhereId(users, id, points)
         == MergeWhereId(users, id, ProfilePatch(None, None, None, None, None, Some(points), None))
  {
  }

  // ----------------------------------------------------------------- store

  /** Browser storage and the session state. The four fields are the four
      storage keys; a collection key may be missing (`None`). `session` is
      the signed-in account, kept identical in memory and in storage. */
  class Store {
    var users: Option<seq<StoredUser>>
    var session: Option<User>
    var surveys: Option<seq<Survey>>
    var submissions: Option<seq<Submission>>

    /** The store as found in storage at start-up. */
    constructor (users: Option<seq<StoredUser>>, session: Option<User>,
                 surveys: Option<seq<Survey>>, submissions: Option<seq<Submission>>)
      ensures this.users == users && this.session == session
      ensures this.surveys == surveys && this.submissions == submissions
    {
      this.users := users;
      this.session := session;
      this.surveys := surveys;
      this.submissions := submissions;
    }

    /** `login`: on success the session becomes the matching account without
        its password; on failure nothing changes. No collection changes. */
    method Login(email: string, password: string) returns (outcome: Result<User, LoginError>)
      modifies this
      ensures outcome == Authenticate(old(users), email, password)
      ensures session == if outcome.Ok? then Some(outcome.value) else old(session)
      ensures users == old(users) && surveys == old(surveys) && submissions == old(submissions)
    {
      outcome := Authenticate(users, email, password);
      if outcome.Ok? {
        session := Some(outcome.value);
      }
    }

    /** `register`: refused, with nothing changed, when some stored account
        has the email; otherwise exactly one account is appended to the
        users collection (a missing key reads as empty) and the session
        becomes that account without its password. */
    method Register(req: Registration, id: string) returns (outcome: Result<User, RegisterError>)
      modifies this
      ensures EmailTaken(Items(old(users)), req.email) ==>
        outcome == Err(UserAlreadyExists) && users == old(users) && session == old(session)
      ensures !EmailTaken(Items(old(users)), req.email) ==>
        && outcome == Ok(NewAccount(req, id).profile)
        && users == Some(Items(old(users)) + [NewAccount(req, id)])
        && session == Some(NewAccount(req, id).profile)
      ensures outcome.Err? <==> Enroll(Items(old(users)), req, id).Err?
      ensures outcome.Ok? ==> users == Some(Enroll(Items(old(users)), req, id).value)
      ensures UniqueEmails(Items(old(users))) ==> UniqueEmails(Items(users))
      ensures surveys == old(surveys) && submissions == old(submissions)
    {
      var all := Items(users);
      var enrolled := Enroll(all, req, id);
      if enrolled.Err? {
        return Err(enrolled.error);
      }
      users := Some(enrolled.value);
      assert enrolled.value == all + [NewAccount(req, id)];
      var account := NewAccount(req, id).profile;
      session := Some(account);
      outcome := Ok(account);
    }

    /** `logout`: the session is cleared; no collection changes. */
    method Logout()
      modifies this
      ensures session == None
      ensures users == old(users) && surveys == old(surveys) && submissions == old(submissions)
    {
      session := None;
    }

    /** `updateUserProfile`: without a session nothing happens; otherwise the
        patch is merged into the session and into the stored accounts with
        the session's id (when the users key exists). */
    method UpdateUserProfile(patch: ProfilePatch)
      modifies this
      ensures old(session).None? ==> session == None && users == old(users)
      ensures old(session).Some? ==>
        && session == Some(Merge(old(session).value, patch))
        && users == (if old(users).None? then None
                     else Some(MergeWhereId(old(users).value, old(session).value.id, patch)))
      ensures surveys == old(surveys) && submissions == old(submissions)
    {
      if session.None? {
        return;
      }
      var current := session.value;
      session := Some(Merge(current, patch));
      if users.Some? {
        users := Some(MergeWhereId(users.value, current.id, patch));
      }
    }

    /** `updateUserPoints`: without a session nothing happens; otherwise the
        balance of the session and of the stored accounts with the session's
        id is replaced by `points` (not increased by it). */
    method UpdateUserPoints(points: int)
      modifies this
      ensures old(session).None? ==> session == None && users == old(users)
      ensures old(session).Some? ==>
        && session == Some(old(session).value.(points := points))
        && users == (if old(users).None? then None
                     else Some(SetPointsWhereId(old(users).value, old(session).value.id, points)))
      ensures surveys == old(surveys) && submissions == old(submissions)
    {
      if session.None? {
        return;
      }
      var current := session.value;
      session := Some(current.(points := points));
      if users.Some? {
        users := Some(SetPointsWhereId(users.value, current.id, points));
      }
    }
  }
}
