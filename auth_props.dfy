/** Properties of the authentication services: the upsert and the strict create,
    the ownership the creating path sets up, all-or-nothing creation, and what
    credential verification accepts and rejects. */
module AuthProperties {
  import opened Wrappers
  import opened Records
  import opened Lookup
  import opened AuthSpec

  /** A user appended with an email no earlier user holds is the first and only
      one found by that email. */
  lemma NewEmailFoundLast(users: seq<User>, u: User)
    requires !AnyMatch(users, HasEmail(u.email))
    ensures FindFirst(users + [u], HasEmail(u.email)) == Some(|users|)
    ensures Count(users + [u], HasEmail(u.email)) == 1
  {
    FindFirstAppend(users, u, HasEmail(u.email));
    CountAppend(users, u, HasEmail(u.email));
  }

  /** An email already held: the first user holding it is returned and nothing is
      written, so no rejected save can make the call fail. */
  lemma LoginOrCreateExistingEmail(db: Db, p: OAuthProfile, now: Timestamp, fault: Option<SaveStep>)
    requires AnyMatch(db.users, HasEmail(p.email))
    ensures LoginOrCreate(db, p, now, fault).db == db
    ensures LoginOrCreate(db, p, now, fault).result == Ok(db.users[FindFirst(db.users, HasEmail(p.email)).value])
    ensures LoginOrCreate(db, p, now, fault).result.value.email == p.email
  {
  }

  /** A new email with an owner role seeded: exactly one user, one account, one
      workspace and one owner membership are added, with the fields the profile
      gives, and the returned user is the new one, holding the email alone. */
  lemma LoginOrCreateNewEmail(db: Db, p: OAuthProfile, now: Timestamp)
    requires !AnyMatch(db.users, HasEmail(p.email))
    requires AnyMatch(db.roles, RoleNamed(RoleOwner))
    ensures var o := LoginOrCreate(db, p, now);
            var owner := db.roles[FindFirst(db.roles, RoleNamed(RoleOwner)).value];
            var u := NewUserId(db);
            var w := NewWorkspaceId(db);
            && owner.name == RoleOwner
            && o.result == Ok(User(u, p.email, p.displayName, PictureOrNull(p.picture), None, Some(w)))
            && o.db.users == db.users + [o.result.value]
            && o.db.accounts == db.accounts + [Account(NewAccountId(db), p.provider, p.providerId, u)]
            && o.db.workspaces == db.workspaces
                                  + [Workspace(w, "My workspace", "workspace created for " + p.displayName, u)]
            && o.db.members == db.members + [Member(NewMemberId(db), u, w, owner.id, now)]
            && o.db.roles == db.roles
            && Count(o.db.users, HasEmail(p.email)) == 1
  {
    var o := LoginOrCreate(db, p, now);
    NewEmailFoundLast(db.users, o.result.value);
  }

  /** The picture is stored exactly when one is given and it is not empty. */
  lemma LoginOrCreatePicture(db: Db, p: OAuthProfile, now: Timestamp)
    requires !AnyMatch(db.users, HasEmail(p.email))
    requires LoginOrCreate(db, p, now).result.Ok?
    ensures LoginOrCreate(db, p, now).result.value.profilePicture ==
            if p.picture.Some? && p.picture.value != "" then p.picture else None
  {
  }

  /** Calling loginOrCreateAccountService again with the same email returns the same
      user and writes nothing more, so one user and one account, workspace and
      membership set exist after both calls. */
  lemma LoginOrCreateIdempotent(db: Db, p: OAuthProfile, q: OAuthProfile, now1: Timestamp, now2: Timestamp)
    requires q.email == p.email
    ensures var first := LoginOrCreate(db, p, now1);
            LoginOrCreate(first.db, q, now2) == first
  {
    if FindFirst(db.users, HasEmail(p.email)).None? && LoginOrCreate(db, p, now1).result.Ok? {
      NewEmailFoundLast(db.users, LoginOrCreate(db, p, now1).result.value);
    }
  }

  /** After provisioning over a well-formed store: the new user is the one found by
      its identifier and points at the new workspace; that workspace is the one
      found by its identifier, is owned by the user, and is new; exactly one
      membership binds the user to it with the given role, and it is the
      workspace's only membership; and the store stays well formed. */
  lemma ProvisionedOwnership(db: Db, plan: Plan, ownerRole: ObjectId, now: Timestamp)
    requires WellFormed(db)
    requires ownerRole < db.nextId
    ensures var d := Provisioned(db, plan, ownerRole, now);
            var u := NewUserId(db);
            var w := NewWorkspaceId(db);
            && FindFirst(d.users, UserHasId(u)) == Some(|db.users|)
            && d.users[|db.users|].currentWorkspace == Some(w)
            && !AnyMatch(db.workspaces, WorkspaceHasId(w))
            && FindFirst(d.workspaces, WorkspaceHasId(w)) == Some(|db.workspaces|)
            && d.workspaces[|db.workspaces|].owner == u
            && Count(d.members, BindsWith(u, w, ownerRole)) == 1
            && Count(d.members, InWorkspace(w)) == 1
            && WellFormed(d)
  {
    var d := Provisioned(db, plan, ownerRole, now);
    var u := NewUserId(db);
    var w := NewWorkspaceId(db);
    FreshIdFoundLast(db.users, NewUser(db, plan), u);
    assert !AnyMatch(db.workspaces, WorkspaceHasId(w)) by {
      forall j | 0 <= j < |db.workspaces| ensures !WorkspaceHasId(w)(db.workspaces[j]) {
        assert db.workspaces[j].IdsBelow(db.nextId);
      }
    }
    FindFirstAppend(db.workspaces, d.workspaces[|db.workspaces|], WorkspaceHasId(w));
    ProvisionedMembership(db, plan, ownerRole, now);
  }

  /** The membership provisioning adds is the only one of the new workspace, and
      the only one binding the new user to it with the given role. */
  lemma ProvisionedMembership(db: Db, plan: Plan, ownerRole: ObjectId, now: Timestamp)
    requires WellFormed(db)
    ensures var members := db.members + [NewMember(db, ownerRole, now)];
            && Count(members, BindsWith(NewUserId(db), NewWorkspaceId(db), ownerRole)) == 1
            && Count(members, InWorkspace(NewWorkspaceId(db))) == 1
  {
    var u := NewUserId(db);
    var w := NewWorkspaceId(db);
    var m := NewMember(db, ownerRole, now);
    assert !AnyMatch(db.members, BindsWith(u, w, ownerRole)) by {
      forall j | 0 <= j < |db.members| ensures !BindsWith(u, w, ownerRole)(db.members[j]) {
        assert db.members[j].IdsBelow(db.nextId);
      }
    }
    CountAppend(db.members, m, BindsWith(u, w, ownerRole));
    assert !AnyMatch(db.members, InWorkspace(w)) by {
      forall j | 0 <= j < |db.members| ensures !InWorkspace(w)(db.members[j]) {
        assert db.members[j].IdsBelow(db.nextId);
      }
    }
    CountAppend(db.members, m, InWorkspace(w));
  }

  /** Provisioning keeps the ownership invariant of the whole store: every
      workspace, old or new, has exactly one owner membership for its owner. */
  lemma ProvisionedKeepsOwnersMembers(db: Db, plan: Plan, ownerRole: ObjectId, now: Timestamp)
    requires WellFormed(db)
    requires ownerRole < db.nextId
    requires OwnersAreMembers(db, ownerRole)
    ensures OwnersAreMembers(Provisioned(db, plan, ownerRole, now), ownerRole)
  {
    var d := Provisioned(db, plan, ownerRole, now);
    ProvisionedOwnership(db, plan, ownerRole, now);
    forall i | 0 <= i < |d.workspaces|
      ensures Count(d.members, BindsWith(d.workspaces[i].owner, d.workspaces[i].id, ownerRole)) == 1
    {
      if i < |db.workspaces| {
        var w := db.workspaces[i];
        assert d.workspaces[i] == w;
        assert w.IdsBelow(db.nextId);
        CountAppend(db.members, NewMember(db, ownerRole, now), BindsWith(w.owner, w.id, ownerRole));
      }
    }
  }

  /** Both creating services keep the ownership invariant, whatever save the
      database rejects, and leave the owner role as it was. */
  lemma CreatingKeepsOwnersMembers(db: Db, p: OAuthProfile, b: Registration, now: Timestamp, fault: Option<SaveStep>)
    requires WellFormed(db)
    requires OwnerRoleId(db).Some?
    requires OwnersAreMembers(db, OwnerRoleId(db).value)
    ensures var o := LoginOrCreate(db, p, now, fault);
            OwnerRoleId(o.db) == OwnerRoleId(db) && OwnersAreMembers(o.db, OwnerRoleId(db).value)
    ensures var o := Register(db, b, now, fault);
            OwnerRoleId(o.db) == OwnerRoleId(db) && OwnersAreMembers(o.db, OwnerRoleId(db).value)
  {
    var r := OwnerRoleId(db).value;
    assert r < db.nextId;
    ProvisionedKeepsOwnersMembers(db, ProfilePlan(p), r, now);
    ProvisionedKeepsOwnersMembers(db, RegistrationPlan(b), r, now);
  }

  /** The owner role that provisioning binds is a role of the store. */
  lemma OwnerRoleIsSeeded(db: Db)
    requires WellFormed(db)
    requires AnyMatch(db.roles, RoleNamed(RoleOwner))
    ensures var k := FindFirst(db.roles, RoleNamed(RoleOwner));
            k.Some? && db.roles[k.value].name == RoleOwner && db.roles[k.value].id < db.nextId
  {
  }

  /** A user created by loginOrCreateAccountService points at the workspace created
      with it, which it owns; the one membership of that workspace binds the user
      to it with the OWNER role. */
  lemma LoginOrCreateOwnsWorkspace(db: Db, p: OAuthProfile, now: Timestamp)
    requires WellFormed(db)
    requires !AnyMatch(db.users, HasEmail(p.email))
    requires LoginOrCreate(db, p, now).result.Ok?
    ensures var o := LoginOrCreate(db, p, now);
            var u := o.result.value;
            var owner := db.roles[FindFirst(db.roles, RoleNamed(RoleOwner)).value];
            && u.currentWorkspace == Some(NewWorkspaceId(db))
            && !AnyMatch(db.workspaces, WorkspaceHasId(NewWorkspaceId(db)))
            && FindFirst(o.db.workspaces, WorkspaceHasId(NewWorkspaceId(db))).Some?
            && o.db.workspaces[FindFirst(o.db.workspaces, WorkspaceHasId(NewWorkspaceId(db))).value].owner == u.id
            && owner.name == RoleOwner
            && Count(o.db.members, BindsWith(u.id, NewWorkspaceId(db), owner.id)) == 1
            && Count(o.db.members, InWorkspace(NewWorkspaceId(db))) == 1
            && WellFormed(o.db)
  {
    OwnerRoleIsSeeded(db);
    var k := FindFirst(db.roles, RoleNamed(RoleOwner)).value;
    ProvisionedOwnership(db, ProfilePlan(p), db.roles[k].id, now);
  }

  /** Without an owner role both creating services fail with NotFound and the
      store is as before: no orphan user, account or workspace remains. */
  lemma OwnerRoleMissingAborts(db: Db, p: OAuthProfile, b: Registration, now: Timestamp)
    requires !AnyMatch(db.roles, RoleNamed(RoleOwner))
    ensures !AnyMatch(db.users, HasEmail(p.email)) ==>
              LoginOrCreate(db, p, now) == Outcome(db, Err(NotFound(OwnerRoleNotFound)))
    ensures !AnyMatch(db.users, HasEmail(b.email)) ==>
              Register(db, b, now) == Outcome(db, Err(NotFound(OwnerRoleNotFound)))
  {
  }

  /** registerUserService fails with BadRequest exactly when the email is in use,
      and then changes nothing. */
  lemma RegisterExistingEmail(db: Db, b: Registration, now: Timestamp)
    ensures Register(db, b, now).result == Err(BadRequest(EmailAlreadyExists))
            <==> AnyMatch(db.users, HasEmail(b.email))
    ensures AnyMatch(db.users, HasEmail(b.email)) ==> Register(db, b, now).db == db
  {
  }

  /** Every failing call of either creating service leaves the store as it was. */
  lemma CreatingFailuresChangeNothing(db: Db, p: OAuthProfile, b: Registration, now: Timestamp, fault: Option<SaveStep>)
    ensures LoginOrCreate(db, p, now, fault).result.Err? ==> LoginOrCreate(db, p, now, fault).db == db
    ensures Register(db, b, now, fault).result.Err? ==> Register(db, b, now, fault).db == db
  {
  }

  /** A save the database rejects, at any step of the creating sequence for a new
      email, makes both services fail with that save's error, unless the missing
      owner role stopped the sequence first; either way the store is as before. */
  lemma SaveRejectedAborts(db: Db, p: OAuthProfile, b: Registration, now: Timestamp, step: SaveStep)
    ensures var e := if step.Index() < 3 || OwnerRoleId(db).Some? then SaveRejected(step)
                     else NotFound(OwnerRoleNotFound);
            && (!AnyMatch(db.users, HasEmail(p.email)) ==>
                  LoginOrCreate(db, p, now, Some(step)) == Outcome(db, Err(e)))
            && (!AnyMatch(db.users, HasEmail(b.email)) ==>
                  Register(db, b, now, Some(step)) == Outcome(db, Err(e)))
  {
  }

  /** On success registerUserService returns the new user's and workspace's
      identifiers; the account is a local one keyed by the email, the workspace is
      owned by the user, the user points at it, and its one membership binds the
      user to it with the OWNER role. */
  lemma RegisterCreates(db: Db, b: Registration, now: Timestamp)
    requires WellFormed(db)
    requires Register(db, b, now).result.Ok?
    ensures var o := Register(db, b, now);
            var ids := o.result.value;
            var owner := db.roles[FindFirst(db.roles, RoleNamed(RoleOwner)).value];
            && ids == RegisterIds(NewUserId(db), NewWorkspaceId(db))
            && o.db.users == db.users + [User(ids.userId, b.email, b.name, None, Some(b.password), Some(ids.workspaceId))]
            && o.db.accounts == db.accounts + [Account(NewAccountId(db), ProviderEmail, b.email, ids.userId)]
            && FindFirst(o.db.workspaces, WorkspaceHasId(ids.workspaceId)).Some?
            && o.db.workspaces[FindFirst(o.db.workspaces, WorkspaceHasId(ids.workspaceId)).value].owner == ids.userId
            && FindFirst(o.db.users, UserHasId(ids.userId)).Some?
            && o.db.users[FindFirst(o.db.users, UserHasId(ids.userId)).value].currentWorkspace == Some(ids.workspaceId)
            && Count(o.db.members, BindsWith(ids.userId, ids.workspaceId, owner.id)) == 1
            && Count(o.db.members, InWorkspace(ids.workspaceId)) == 1
            && owner.name == RoleOwner
            && WellFormed(o.db)
  {
    OwnerRoleIsSeeded(db);
    var k := FindFirst(db.roles, RoleNamed(RoleOwner)).value;
    ProvisionedOwnership(db, RegistrationPlan(b), db.roles[k].id, now);
  }

  /** Registering the same email twice: the second call fails with BadRequest and
      leaves the store as the first call left it. */
  lemma RegisterTwice(db: Db, b: Registration, b2: Registration, now1: Timestamp, now2: Timestamp)
    requires b2.email == b.email
    requires Register(db, b, now1).result.Ok?
    ensures var first := Register(db, b, now1);
            Register(first.db, b2, now2) == Outcome(first.db, Err(BadRequest(EmailAlreadyExists)))
  {
    var first := Register(db, b, now1);
    assert HasEmail(b.email)(first.db.users[|db.users|]);
  }

  /** The outcomes of verifyUserService: NotFound with the credentials message
      exactly when no account matches; otherwise the first matching account's user
      is looked up by identifier, and the call fails with NotFound when it is
      missing, with Unauthorized when the password does not match, and succeeds
      with that user, password removed, when it does. */
  lemma VerifyOutcomes(db: Db, c: Credentials)
    ensures Verify(db, c) == Err(NotFound(InvalidEmailOrPassword))
            <==> !AnyMatch(db.accounts, AccountFor(c.provider, c.email))
    ensures AnyMatch(db.accounts, AccountFor(c.provider, c.email)) ==>
              var a := db.accounts[FindFirst(db.accounts, AccountFor(c.provider, c.email)).value];
              && a.provider == c.provider && a.providerId == c.email
              && (!AnyMatch(db.users, UserHasId(a.userId)) <==>
                    Verify(db, c) == Err(NotFound(UserNotFoundForAccount)))
              && (AnyMatch(db.users, UserHasId(a.userId)) ==>
                    var u := db.users[FindFirst(db.users, UserHasId(a.userId)).value];
                    && u.id == a.userId
                    && (PasswordMatches(u, c.password) <==> Verify(db, c) == Ok(OmitPassword(u)))
                    && (!PasswordMatches(u, c.password) <==>
                          Verify(db, c) == Err(Unauthorized(InvalidEmailOrPassword))))
  {
  }

  /** A registered user can sign in with its email and password, and gets itself
      back without the password; any other password is Unauthorized. */
  lemma RegisterThenVerify(db: Db, b: Registration, now: Timestamp, wrong: string)
    requires WellFormed(db)
    requires !AnyMatch(db.accounts, AccountFor(ProviderEmail, b.email))
    requires Register(db, b, now).result.Ok?
    requires wrong != b.password
    ensures var o := Register(db, b, now);
            var ids := o.result.value;
            && Verify(o.db, Credentials(b.email, b.password))
               == Ok(SafeUser(ids.userId, b.email, b.name, None, Some(ids.workspaceId)))
            && Verify(o.db, Credentials(b.email, wrong)) == Err(Unauthorized(InvalidEmailOrPassword))
  {
    var o := Register(db, b, now);
    var plan := RegistrationPlan(b);
    var a := Account(NewAccountId(db), ProviderEmail, b.email, NewUserId(db));
    FindFirstAppend(db.accounts, a, AccountFor(ProviderEmail, b.email));
    FreshIdFoundLast(db.users, NewUser(db, plan), NewUserId(db));
  }

  /** Signing in with an email no account of the provider holds is NotFound, with
      the same message as a wrong password. */
  lemma VerifyUnknownEmail(db: Db, c: Credentials)
    requires !AnyMatch(db.accounts, AccountFor(c.provider, c.email))
    ensures Verify(db, c) == Err(NotFound(InvalidEmailOrPassword))
  {
  }
}
