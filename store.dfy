/** The authentication services over an in-memory store whose tables they update
    in place (backend/src/services/auth.service.ts). A transaction is a snapshot
    taken at the start and written back on abort. */
module AuthService {
  import opened Wrappers
  import opened Records
  import opened Lookup
  import opened AuthSpec

  /** The newly created user and the identifier of its default workspace. */
  datatype Created = Created(user: User, workspaceId: ObjectId)

  class Store {
    var users: seq<User>
    var accounts: seq<Account>
    var workspaces: seq<Workspace>
    var members: seq<Member>
    var roles: seq<Role>
    var nextId: ObjectId

    /** The store's contents as a value. */
    function Snapshot(): Db
      reads this
    {
      Db(users, accounts, workspaces, members, roles, nextId)
    }

    ghost predicate Valid()
      reads this
    {
      WellFormed(Snapshot())
    }

    /** A store holding the records of `seed`, its roles already seeded. */
    constructor (seed: Db)
      requires WellFormed(seed)
      ensures Valid() && Snapshot() == seed
    {
      users, accounts, workspaces, members, roles, nextId :=
        seed.users, seed.accounts, seed.workspaces, seed.members, seed.roles, seed.nextId;
    }

    /** Saves a new user document under a fresh identifier. */
    method InsertUser(email: string, name: string, picture: Option<string>, password: Option<string>)
      returns (u: User)
      requires Valid()
      modifies this
      ensures Valid()
      ensures u == User(old(nextId), email, name, picture, password, None)
      ensures users == old(users) + [u] && nextId == old(nextId) + 1
      ensures accounts == old(accounts) && workspaces == old(workspaces)
      ensures members == old(members) && roles == old(roles)
    {
      u := User(nextId, email, name, picture, password, None);
      users := users + [u];
      nextId := nextId + 1;
    }

    /** Saves a new account document under a fresh identifier. */
    method InsertAccount(provider: string, providerId: string, userId: ObjectId) returns (a: Account)
      requires Valid() && userId < nextId
      modifies this
      ensures Valid()
      ensures a == Account(old(nextId), provider, providerId, userId)
      ensures accounts == old(accounts) + [a] && nextId == old(nextId) + 1
      ensures users == old(users) && workspaces == old(workspaces)
      ensures members == old(members) && roles == old(roles)
    {
      a := Account(nextId, provider, providerId, userId);
      accounts := accounts + [a];
      nextId := nextId + 1;
    }

    /** Saves a new workspace document under a fresh identifier. */
    method InsertWorkspace(name: string, description: string, owner: ObjectId) returns (w: Workspace)
      requires Valid() && owner < nextId
      modifies this
      ensures Valid()
      ensures w == Workspace(old(nextId), name, description, owner)
      ensures workspaces == old(workspaces) + [w] && nextId == old(nextId) + 1
      ensures users == old(users) && accounts == old(accounts)
      ensures members == old(members) && roles == old(roles)
    {
      w := Workspace(nextId, name, description, owner);
      workspaces := workspaces + [w];
      nextId := nextId + 1;
    }

    /** Saves a new member document under a fresh identifier. */
    method InsertMember(userId: ObjectId, workspaceId: ObjectId, role: ObjectId, joinedAt: Timestamp)
      returns (m: Member)
      requires Valid() && userId < nextId && workspaceId < nextId && role < nextId
      modifies this
      ensures Valid()
      ensures m == Member(old(nextId), userId, workspaceId, role, joinedAt)
      ensures members == old(members) + [m] && nextId == old(nextId) + 1
      ensures users == old(users) && accounts == old(accounts)
      ensures workspaces == old(workspaces) && roles == old(roles)
    {
      m := Member(nextId, userId, workspaceId, role, joinedAt);
      members := members + [m];
      nextId := nextId + 1;
    }

    /** Saves an existing user document again: the first user with its identifier
        is replaced by `u`. */
    method SaveUser(u: User)
      requires Valid() && u.IdsBelow(nextId)
      modifies this
      ensures Valid()
      ensures users == match FindFirst(old(users), UserHasId(u.id))
                       case Some(i) => old(users)[i := u]
                       case None => old(users)
      ensures accounts == old(accounts) && workspaces == old(workspaces)
      ensures members == old(members) && roles == old(roles) && nextId == old(nextId)
    {
      var i := FindFirst(users, UserHasId(u.id));
      if i.Some? {
        users := users[i.value := u];
      }
    }

    /** Aborts a transaction: the store goes back to the snapshot taken at its start. */
    method Restore(s: Db)
      requires WellFormed(s)
      modifies this
      ensures Valid() && Snapshot() == s
    {
      users, accounts, workspaces, members, roles, nextId :=
        s.users, s.accounts, s.workspaces, s.members, s.roles, s.nextId;
    }

    /** The first three saves of a creating call: the user, its account and its
        workspace. `ok` is false when the database rejects one of them, and then
        the saves before it stay made. */
    method SaveIdentity(plan: Plan, fault: Option<SaveStep>) returns (ok: bool, user: User, workspace: Workspace)
      requires Valid()
      modifies this
      ensures Valid()
      ensures ok <==> !(fault.Some? && fault.value.Index() < 3)
      ensures ok ==> user == NewUser(old(Snapshot()), plan).(currentWorkspace := None)
      ensures ok ==> workspace == NewWorkspace(old(Snapshot()), plan)
      ensures Snapshot() == Written(old(Snapshot()), plan, 0, 0, if ok then 3 else fault.value.Index())
    {
      ghost var before := Snapshot();
      ok := false;
      user := NewUser(Snapshot(), plan);
      workspace := NewWorkspace(Snapshot(), plan);
      if fault == Some(UserSave) {
        return;
      }
      user := InsertUser(plan.email, plan.name, plan.profilePicture, plan.password);
      if fault == Some(AccountSave) {
        assert Snapshot() == Written(before, plan, 0, 0, 1);
        return;
      }
      var account := InsertAccount(plan.provider, plan.providerId, user.id);
      if fault == Some(WorkspaceSave) {
        assert Snapshot() == Written(before, plan, 0, 0, 2);
        return;
      }
      workspace := InsertWorkspace(plan.workspaceName, plan.workspaceDescription, user.id);
      ok := true;
      assert Snapshot() == Written(before, plan, 0, 0, 3);
    }

    /** The creating sequence of both services: user, account, workspace, owner role
        lookup, owner membership, and the user saved again pointing at the workspace.
        `fault` names the save the database rejects, if any. The call stops at that
        save, or after the third save when no owner role is seeded, and it leaves
        the saves made so far in place for the caller's abort to discard. */
    method Provision(plan: Plan, now: Timestamp, fault: Option<SaveStep>) returns (r: Result<Created, AppError>)
      requires Valid()
      modifies this
      ensures Valid()
      ensures Snapshot() == Written(old(Snapshot()), plan, OwnerRoleIdOrZero(old(Snapshot())), now,
                                    SavesDone(old(Snapshot()), fault))
      ensures match AuthSpec.Provision(old(Snapshot()), plan, now, fault).result
              case Ok(u) => r == Ok(Created(u, NewWorkspaceId(old(Snapshot()))))
              case Err(e) => r == Err(e)
    {
      ghost var before := Snapshot();
      ghost var role := OwnerRoleIdOrZero(before);
      var ok, user, workspace := SaveIdentity(plan, fault);
      if !ok {
        assert Written(before, plan, 0, 0, fault.value.Index()) == Written(before, plan, role, now, fault.value.Index());
        return Err(SaveRejected(fault.value));
      }
      var ownerRole := FindFirst(roles, RoleNamed(RoleOwner));
      if ownerRole.None? {
        assert Written(before, plan, 0, 0, 3) == Written(before, plan, role, now, 3);
        return Err(NotFound(OwnerRoleNotFound));
      }
      assert role == roles[ownerRole.value].id;
      if fault == Some(MemberSave) {
        assert Written(before, plan, 0, 0, 3) == Written(before, plan, role, now, 3);
        return Err(SaveRejected(MemberSave));
      }
      var member := InsertMember(user.id, workspace.id, roles[ownerRole.value].id, now);
      user := user.(currentWorkspace := Some(workspace.id));
      if fault == Some(UserResave) {
        assert Snapshot() == Written(before, plan, role, now, 4);
        return Err(SaveRejected(UserResave));
      }
      assert fault == None;
      FreshIdFoundLast(before.users, user.(currentWorkspace := None), before.nextId);
      SaveUser(user);
      assert (before.users + [user.(currentWorkspace := None)])[|before.users| := user]
          == before.users + [user];
      assert Snapshot() == Written(before, plan, role, now, 5);
      r := Ok(Created(user, workspace.id));
    }

    /** loginOrCreateAccountService; `fault` names the save the database rejects, if any. */
    method LoginOrCreateAccount(p: OAuthProfile, now: Timestamp, fault: Option<SaveStep>)
      returns (r: Result<User, AppError>)
      requires Valid()
      modifies this
      ensures Valid()
      ensures Outcome(Snapshot(), r) == LoginOrCreate(old(Snapshot()), p, now, fault)
    {
      var transaction := Snapshot();
      var existing := FindFirst(users, HasEmail(p.email));
      if existing.Some? {
        r := Ok(users[existing.value]);
        return;
      }
      var created := Provision(ProfilePlan(p), now, fault);
      match created
      case Err(e) =>
        Restore(transaction);
        r := Err(e);
      case Ok(c) =>
        r := Ok(c.user);
    }

    /** registerUserService; `fault` names the save the database rejects, if any. */
    method RegisterUser(b: Registration, now: Timestamp, fault: Option<SaveStep>)
      returns (r: Result<RegisterIds, AppError>)
      requires Valid()
      modifies this
      ensures Valid()
      ensures Outcome(Snapshot(), r) == Register(old(Snapshot()), b, now, fault)
    {
      var transaction := Snapshot();
      var existing := FindFirst(users, HasEmail(b.email));
      if existing.Some? {
        Restore(transaction);
        r := Err(BadRequest(EmailAlreadyExists));
        return;
      }
      var created := Provision(RegistrationPlan(b), now, fault);
      match created
      case Err(e) =>
        Restore(transaction);
        r := Err(e);
      case Ok(c) =>
        r := Ok(RegisterIds(c.user.id, c.workspaceId));
    }

    /** verifyUserService: reads the store and changes nothing. */
    method VerifyUser(c: Credentials) returns (r: Result<SafeUser, AppError>)
      ensures r == Verify(Snapshot(), c)
    {
      var account := FindFirst(accounts, AccountFor(c.provider, c.email));
      if account.None? {
        r := Err(NotFound(InvalidEmailOrPassword));
        return;
      }
      var user := FindFirst(users, UserHasId(accounts[account.value].userId));
      if user.None? {
        r := Err(NotFound(UserNotFoundForAccount));
        return;
      }
      if !PasswordMatches(users[user.value], c.password) {
        r := Err(Unauthorized(InvalidEmailOrPassword));
        return;
      }
      r := Ok(OmitPassword(users[user.value]));
    }
  }
}
