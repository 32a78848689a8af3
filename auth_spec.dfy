/** What the three authentication services do to the store, as functions of the
    store before the call (backend/src/services/auth.service.ts). A creating call
    either commits all of its writes or, on an error, leaves the store as it was. */
module AuthSpec {
  import opened Wrappers
  import opened Records
  import opened Lookup

  /** The identity an external provider asserts (the input of loginOrCreateAccountService). */
  datatype OAuthProfile = OAuthProfile(
    provider: string,
    displayName: string,
    providerId: string,
    email: string,
    picture: Option<string>)

  /** The input of registerUserService. */
  datatype Registration = Registration(email: string, name: string, password: string)

  /** The input of verifyUserService; the provider defaults to local credentials. */
  datatype Credentials = Credentials(email: string, password: string, provider: string := ProviderEmail)

  /** What registerUserService returns on success. */
  datatype RegisterIds = RegisterIds(userId: ObjectId, workspaceId: ObjectId)

  /** The store after a call, and what the call returned or threw. */
  datatype Outcome<T> = Outcome(db: Db, result: Result<T, AppError>)

  /** The fields in which the two creating services differ: the new user's data,
      the credential account, and the default workspace's name and description. */
  datatype Plan = Plan(
    email: string,
    name: string,
    profilePicture: Option<string>,
    password: Option<string>,
    provider: string,
    providerId: string,
    workspaceName: string,
    workspaceDescription: string)

  /** `picture || null`: a missing or empty picture is stored as null. */
  function PictureOrNull(picture: Option<string>): (r: Option<string>)
    ensures r.None? <==> picture.None? || picture.value == ""
    ensures r.Some? ==> r == picture
  {
    match picture
    case Some(p) => if p != "" then Some(p) else None
    case None => None
  }

  /** What loginOrCreateAccountService writes for a new email. */
  function ProfilePlan(p: OAuthProfile): Plan
  {
    Plan(p.email, p.displayName, PictureOrNull(p.picture), None, p.provider, p.providerId,
         "My workspace", "workspace created for " + p.displayName)
  }

  /** What registerUserService writes; the account is a local one keyed by the email. */
  function RegistrationPlan(b: Registration): Plan
  {
    Plan(b.email, b.name, None, Some(b.password), ProviderEmail, b.email,
         "My Workspace", "Workspace created for " + b.name)
  }

  /** The identifiers a creating call draws, in the order it creates the records. */
  function NewUserId(db: Db): ObjectId { db.nextId }
  function NewAccountId(db: Db): ObjectId { db.nextId + 1 }
  function NewWorkspaceId(db: Db): ObjectId { db.nextId + 2 }
  function NewMemberId(db: Db): ObjectId { db.nextId + 3 }

  /** The new user as finally saved: pointing at the workspace created with it. */
  function NewUser(db: Db, plan: Plan): User
  {
    User(NewUserId(db), plan.email, plan.name, plan.profilePicture, plan.password, Some(NewWorkspaceId(db)))
  }

  function NewAccount(db: Db, plan: Plan): Account
  {
    Account(NewAccountId(db), plan.provider, plan.providerId, NewUserId(db))
  }

  function NewWorkspace(db: Db, plan: Plan): Workspace
  {
    Workspace(NewWorkspaceId(db), plan.workspaceName, plan.workspaceDescription, NewUserId(db))
  }

  function NewMember(db: Db, ownerRole: ObjectId, now: Timestamp): Member
  {
    Member(NewMemberId(db), NewUserId(db), NewWorkspaceId(db), ownerRole, now)
  }

  /** The store after a committed creating call: one user, one account, one
      workspace and one owner membership added, nothing else changed. */
  function Provisioned(db: Db, plan: Plan, ownerRole: ObjectId, now: Timestamp): Db
  {
    Db(db.users + [NewUser(db, plan)],
       db.accounts + [NewAccount(db, plan)],
       db.workspaces + [NewWorkspace(db, plan)],
       db.members + [NewMember(db, ownerRole, now)],
       db.roles,
       db.nextId + 4)
  }

  /** The store inside the transaction once the first `n` saves of a creating call
      are done; until the fifth save the user does not point at a workspace. These
      are the writes an abort discards. */
  function Written(db: Db, plan: Plan, ownerRole: ObjectId, now: Timestamp, n: nat): Db
    requires n <= 5
  {
    if n == 5 then Provisioned(db, plan, ownerRole, now)
    else
      Db(if n == 0 then db.users else db.users + [NewUser(db, plan).(currentWorkspace := None)],
         if n < 2 then db.accounts else db.accounts + [NewAccount(db, plan)],
         if n < 3 then db.workspaces else db.workspaces + [NewWorkspace(db, plan)],
         if n < 4 then db.members else db.members + [NewMember(db, ownerRole, now)],
         db.roles,
         db.nextId + n)
  }

  /** The identifier of the first role named OWNER, if one is seeded. */
  function OwnerRoleId(db: Db): Option<ObjectId>
  {
    match FindFirst(db.roles, RoleNamed(RoleOwner))
    case Some(k) => Some(db.roles[k].id)
    case None => None
  }

  /** The owner role's identifier, or 0 where no membership is written anyway. */
  function OwnerRoleIdOrZero(db: Db): ObjectId
  {
    match OwnerRoleId(db)
    case Some(r) => r
    case None => 0
  }

  /** How many saves a creating call completes before it stops: it stops at the
      save the database rejects, or after the third save when no owner role is
      seeded, or after all five. */
  function SavesDone(db: Db, fault: Option<SaveStep>): (n: nat)
    ensures n <= 5
  {
    var stop := if OwnerRoleId(db).Some? then 5 else 3;
    match fault
    case Some(s) => if s.Index() < stop then s.Index() else stop
    case None => stop
  }

  /** The creating sequence both services share, once the email is known to be
      new. `fault` names the save the database rejects, if any. The sequence
      commits with the first owner role, or fails with NotFound when no owner role
      is seeded, or with the rejected save's error, whichever comes first; a
      failure writes nothing, because the transaction is aborted. */
  function Provision(db: Db, plan: Plan, now: Timestamp, fault: Option<SaveStep>): Outcome<User>
  {
    if fault.Some? && fault.value.Index() < SavesDone(db, None) then
      Outcome(db, Err(SaveRejected(fault.value)))
    else
      match OwnerRoleId(db)
      case None => Outcome(db, Err(NotFound(OwnerRoleNotFound)))
      case Some(r) => Outcome(Provisioned(db, plan, r, now), Ok(NewUser(db, plan)))
  }

  /** loginOrCreateAccountService: the first user with the email, unchanged, or a
      newly provisioned one. No fault by default. */
  function LoginOrCreate(db: Db, p: OAuthProfile, now: Timestamp, fault: Option<SaveStep> := None): Outcome<User>
  {
    match FindFirst(db.users, HasEmail(p.email))
    case Some(i) => Outcome(db, Ok(db.users[i]))
    case None => Provision(db, ProfilePlan(p), now, fault)
  }

  /** registerUserService: strict creation; an email already in use is a BadRequest.
      No fault by default. */
  function Register(db: Db, b: Registration, now: Timestamp, fault: Option<SaveStep> := None): Outcome<RegisterIds>
  {
    if AnyMatch(db.users, HasEmail(b.email)) then
      Outcome(db, Err(BadRequest(EmailAlreadyExists)))
    else
      var o := Provision(db, RegistrationPlan(b), now, fault);
      match o.result
      case Ok(u) => Outcome(o.db, Ok(RegisterIds(u.id, NewWorkspaceId(db))))
      case Err(e) => Outcome(o.db, Err(e))
  }

  /** Every workspace's owner is bound to it by exactly one membership with the
      given owner role. */
  predicate OwnersAreMembers(db: Db, ownerRole: ObjectId)
  {
    forall i :: 0 <= i < |db.workspaces| ==>
      Count(db.members, BindsWith(db.workspaces[i].owner, db.workspaces[i].id, ownerRole)) == 1
  }

  /** A user appended under an identifier no earlier user holds is the first one
      found by that identifier. */
  lemma FreshIdFoundLast(users: seq<User>, u: User, n: ObjectId)
    requires forall i :: 0 <= i < |users| ==> users[i].id < n
    requires u.id == n
    ensures FindFirst(users + [u], UserHasId(n)) == Some(|users|)
  {
    FindFirstAppend(users, u, UserHasId(n));
    assert !AnyMatch(users, UserHasId(n));
  }

  /** verifyUserService: the first account for (provider, email), its user, and a
      password check; read only. */
  function Verify(db: Db, c: Credentials): Result<SafeUser, AppError>
  {
    match FindFirst(db.accounts, AccountFor(c.provider, c.email))
    case None => Err(NotFound(InvalidEmailOrPassword))
    case Some(a) =>
      match FindFirst(db.users, UserHasId(db.accounts[a].userId))
      case None => Err(NotFound(UserNotFoundForAccount))
      case Some(i) =>
        if PasswordMatches(db.users[i], c.password) then Ok(OmitPassword(db.users[i]))
        else Err(Unauthorized(InvalidEmailOrPassword))
  }
}
