/** The persisted entities the provisioning workflow reads and writes: users,
    their credential accounts, workspaces, roles and the memberships that bind a
    user to a workspace with a role. The store is a value `Db` of five tables. */
module Records {
  import opened Wrappers

  /** Stands for a MongoDB ObjectId; the store hands them out from a counter. */
  type ObjectId = nat

  /** Stands for the `Date` a member joined at; supplied by the caller in place of the clock. */
  type Timestamp = int

  /** The provider of local credentials, and the role every workspace creator gets. */
  const ProviderEmail: string := "EMAIL"
  const RoleOwner: string := "OWNER"

  /** The error messages the core raises. */
  const OwnerRoleNotFound: string := "Owner role not found"
  const EmailAlreadyExists: string := "Email already exists"
  const InvalidEmailOrPassword: string := "Invalid email or password"
  const UserNotFoundForAccount: string := "User not found for the given account"

  /** The saves of a creating call, in the order it makes them: the user, its
      account, its workspace, the owner membership, and the user again. */
  datatype SaveStep = UserSave | AccountSave | WorkspaceSave | MemberSave | UserResave
  {
    /** How many saves come before this one. */
    function Index(): nat
    {
      match this
      case UserSave => 0
      case AccountSave => 1
      case WorkspaceSave => 2
      case MemberSave => 3
      case UserResave => 4
    }
  }

  /** The application's error kinds, each with its message, and the error the
      database itself throws when it rejects a save (a write conflict, a schema
      validation or duplicate-key error), which the services pass on. */
  datatype AppError =
    | NotFound(message: string)
    | BadRequest(message: string)
    | Unauthorized(message: string)
    | SaveRejected(step: SaveStep)

  /** A user document. `password` is absent for users created through an external
      provider; `currentWorkspace` is unset until the first workspace exists. */
  datatype User = User(
    id: ObjectId,
    email: string,
    name: string,
    profilePicture: Option<string>,
    password: Option<string>,
    currentWorkspace: Option<ObjectId>)
  {
    /** Every identifier the record holds was handed out before `n`. */
    predicate IdsBelow(n: nat)
    {
      id < n && (currentWorkspace.Some? ==> currentWorkspace.value < n)
    }
  }

  /** A user as handed back to callers: every field but the password. */
  datatype SafeUser = SafeUser(
    id: ObjectId,
    email: string,
    name: string,
    profilePicture: Option<string>,
    currentWorkspace: Option<ObjectId>)

  /** A credential binding: which provider vouches for which user, under which identifier. */
  datatype Account = Account(id: ObjectId, provider: string, providerId: string, userId: ObjectId)
  {
    predicate IdsBelow(n: nat)
    {
      id < n && userId < n
    }
  }

  datatype Workspace = Workspace(id: ObjectId, name: string, description: string, owner: ObjectId)
  {
    predicate IdsBelow(n: nat)
    {
      id < n && owner < n
    }
  }

  /** A named permission bundle; seeded before the workflow runs and only read by it. */
  datatype Role = Role(id: ObjectId, name: string)

  /** A membership: `userId` belongs to `workspaceId` with the role `role`. */
  datatype Member = Member(id: ObjectId, userId: ObjectId, workspaceId: ObjectId, role: ObjectId, joinedAt: Timestamp)
  {
    predicate IdsBelow(n: nat)
    {
      id < n && userId < n && workspaceId < n && role < n
    }
  }

  /** The whole store: five tables in insertion order and the next unused identifier. */
  datatype Db = Db(
    users: seq<User>,
    accounts: seq<Account>,
    workspaces: seq<Workspace>,
    members: seq<Member>,
    roles: seq<Role>,
    nextId: ObjectId)

  /** Every identifier stored anywhere, as a record's own or as a reference, was
      handed out already, so the counter's value is fresh. */
  predicate WellFormed(db: Db)
  {
    && (forall i :: 0 <= i < |db.users| ==> db.users[i].IdsBelow(db.nextId))
    && (forall i :: 0 <= i < |db.accounts| ==> db.accounts[i].IdsBelow(db.nextId))
    && (forall i :: 0 <= i < |db.workspaces| ==> db.workspaces[i].IdsBelow(db.nextId))
    && (forall i :: 0 <= i < |db.members| ==> db.members[i].IdsBelow(db.nextId))
    && (forall i :: 0 <= i < |db.roles| ==> db.roles[i].id < db.nextId)
  }

  /** The query filters the core uses. */
  function HasEmail(email: string): User -> bool
  {
    (u: User) => u.email == email
  }

  function UserHasId(id: ObjectId): User -> bool
  {
    (u: User) => u.id == id
  }

  function AccountFor(provider: string, providerId: string): Account -> bool
  {
    (a: Account) => a.provider == provider && a.providerId == providerId
  }

  function WorkspaceHasId(id: ObjectId): Workspace -> bool
  {
    (w: Workspace) => w.id == id
  }

  function RoleNamed(name: string): Role -> bool
  {
    (r: Role) => r.name == name
  }

  function BindsWith(userId: ObjectId, workspaceId: ObjectId, role: ObjectId): Member -> bool
  {
    (m: Member) => m.userId == userId && m.workspaceId == workspaceId && m.role == role
  }

  function InWorkspace(workspaceId: ObjectId): Member -> bool
  {
    (m: Member) => m.workspaceId == workspaceId
  }

  /** omitPassword: the user without its password field. */
  function OmitPassword(u: User): SafeUser
  {
    SafeUser(u.id, u.email, u.name, u.profilePicture, u.currentWorkspace)
  }

  /** comparePassword: whether `candidate` is the user's password. Hashing is not
      modelled; the stored value stands for the hash and matching for a successful compare. */
  predicate PasswordMatches(u: User, candidate: string)
  {
    u.password == Some(candidate)
  }
}
