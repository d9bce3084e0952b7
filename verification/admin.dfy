/** The outcome of the admin-session guard that opens every admin route.
    The session library itself is not part of this model: the guard either
    rejects the request with a status or lets it through, together with the
    user id of the admin session (None when no session can be read). */
module AdminSession {
  import opened Common
  import opened Records

  datatype AdminGuard = Rejected(status: int) | Allowed(caller: Option<UserId>)

  /** The self-modification test `userId === adminSession?.userId`. */
  predicate IsCaller(guard: AdminGuard, u: UserId)
    requires guard.Allowed?
  {
    guard.caller == Some(u)
  }
}

/** `app/api/admin/super-user`: granting and revoking the super-user flag
    and listing the super users. */
module SuperUserAdmin {
  import opened Common
  import opened Records
  import opened AdminSession

  datatype SuperUserReply =
    | GuardFailed(status: int)
    | MissingFields
    | SelfModification
    | LastSuperUser
    | Updated(userId: UserId, isSuperUser: bool)
  {
    function Status(): int {
      match this
      case GuardFailed(status) => status
      case MissingFields => 400
      case SelfModification => 403
      case LastSuperUser => 400
      case Updated(_, _) => 200
    }
  }

  /** POST: set the super-user flag of `userId` to `isSuperUser`. A body
      flag that is not a JSON boolean arrives as None. */
  function Post(profiles: map<UserId, Profile>, guard: AdminGuard, userId: Option<string>, isSuperUser: Option<bool>)
    : (out: (SuperUserReply, map<UserId, Profile>))
    ensures guard.Rejected? ==> out == (GuardFailed(guard.status), profiles)
    ensures guard.Allowed? && (!Truthy(userId) || isSuperUser.None?) ==> out == (MissingFields, profiles)
    ensures out.0 == MissingFields <==> guard.Allowed? && (!Truthy(userId) || isSuperUser.None?)
    ensures guard.Allowed? && Truthy(userId) && isSuperUser.Some? && !IsCaller(guard, userId.value)
            && (isSuperUser.value || |SuperUsers(profiles)| >= 2) ==>
              out.0 == Updated(userId.value, isSuperUser.value)
    ensures out.0 == SelfModification <==>
              guard.Allowed? && Truthy(userId) && isSuperUser.Some? && IsCaller(guard, userId.value)
    ensures out.0 == LastSuperUser <==>
              && guard.Allowed? && Truthy(userId) && isSuperUser == Some(false) && !IsCaller(guard, userId.value)
              && |SuperUsers(profiles)| <= 1
    ensures !out.0.Updated? ==> out.1 == profiles
    ensures out.0.Updated? ==>
              var u := userId.value;
              && out.0 == Updated(u, isSuperUser.value)
              && out.1.Keys == profiles.Keys
              && (forall id :: id in profiles && id != u ==> out.1[id] == profiles[id])
              && (u in profiles ==> out.1[u] == profiles[u].(isSuperUser := isSuperUser.value))
              && (isSuperUser.value ==> SuperUsers(profiles) <= SuperUsers(out.1))
              && (!isSuperUser.value ==> |SuperUsers(profiles)| >= 2 && |SuperUsers(out.1)| >= 1)
  {
    if guard.Rejected? then (GuardFailed(guard.status), profiles)
    else if !Truthy(userId) || isSuperUser.None? then (MissingFields, profiles)
    else
      var u := userId.value;
      if IsCaller(guard, u) then (SelfModification, profiles)
      else if !isSuperUser.value && |SuperUsers(profiles)| <= 1 then (LastSuperUser, profiles)
      else
        var after := SetSuperUserFlag(profiles, u, isSuperUser.value);
        SuperUsersAfterFlag(profiles, u, isSuperUser.value);
        (Updated(u, isSuperUser.value), after)
  }

  /** Once there is a super user, no request to this route leaves none. */
  lemma PostKeepsASuperUser(profiles: map<UserId, Profile>, guard: AdminGuard, userId: Option<string>, isSuperUser: Option<bool>)
    requires |SuperUsers(profiles)| >= 1
    ensures |SuperUsers(Post(profiles, guard, userId, isSuperUser).1)| >= 1
  {
    var out := Post(profiles, guard, userId, isSuperUser);
    if out.0.Updated? && isSuperUser.value {
      assert |SuperUsers(profiles)| <= |SuperUsers(out.1)| by {
        SetSizeMonotone(SuperUsers(profiles), SuperUsers(out.1));
      }
    }
  }

  lemma {:induction false} SetSizeMonotone<T>(a: set<T>, b: set<T>)
    requires a <= b
    ensures |a| <= |b|
  {
    assert b == a + (b - a);
  }

  /** The revocation guard counts every super user, not the target: with a
      single super user even revoking a profile that is not one is
      refused. */
  lemma RevokeRefusedWithOneSuperUser(profiles: map<UserId, Profile>, caller: UserId, target: UserId)
    requires caller != target && target != ""
    requires |SuperUsers(profiles)| == 1
    ensures Post(profiles, Allowed(Some(caller)), Some(target), Some(false)) == (LastSuperUser, profiles)
  {
  }

  datatype SuperUserListing = ListingDenied(status: int) | Listed(superUsers: map<UserId, Profile>)

  /** GET: the profiles flagged as super users. */
  function Get(profiles: map<UserId, Profile>, guard: AdminGuard): (out: SuperUserListing)
    ensures guard.Rejected? ==> out == ListingDenied(guard.status)
    ensures guard.Allowed? <==> out.Listed?
    ensures out.Listed? ==> out.superUsers.Keys == SuperUsers(profiles)
    ensures out.Listed? ==> forall id :: id in out.superUsers ==> out.superUsers[id] == profiles[id]
  {
    if guard.Rejected? then ListingDenied(guard.status)
    else Listed(map id | id in SuperUsers(profiles) :: profiles[id])
  }

  /** After a successful grant or revoke of an existing profile, the listing
      shows that profile exactly when it was granted. */
  lemma ListingReflectsPost(
    profiles: map<UserId, Profile>, guard: AdminGuard, u: UserId, flag: bool)
    requires guard.Allowed? && u in profiles
    requires Post(profiles, guard, Some(u), Some(flag)).0.Updated?
    ensures var after := Post(profiles, guard, Some(u), Some(flag)).1;
            (u in Get(after, guard).superUsers <==> flag)
  {
  }
}

/** `app/api/admin/promote-user`: changing a profile's role within the
    closed role set. */
module PromoteUser {
  import opened Common
  import opened Records
  import opened AdminSession

  datatype PromoteReply =
    | GuardFailed(status: int)
    | MissingFields
    | InvalidRole
    | NotFound
    | SelfModification
    | Promoted(userId: UserId, email: string, role: Role)
  {
    function Status(): int {
      match this
      case GuardFailed(status) => status
      case MissingFields => 400
      case InvalidRole => 400
      case NotFound => 404
      case SelfModification => 403
      case Promoted(_, _, _) => 200
    }
  }

  /** POST: give `userId` the role named by `role`. */
  function Post(profiles: map<UserId, Profile>, guard: AdminGuard, userId: Option<string>, role: Option<string>)
    : (out: (PromoteReply, map<UserId, Profile>))
    ensures guard.Rejected? ==> out == (GuardFailed(guard.status), profiles)
    ensures guard.Allowed? && (!Truthy(userId) || !Truthy(role)) ==> out == (MissingFields, profiles)
    ensures out.0 == InvalidRole <==>
              guard.Allowed? && Truthy(userId) && Truthy(role) && ParseRole(role.value).None?
    ensures out.0 == NotFound <==>
              guard.Allowed? && Truthy(userId) && Truthy(role) && ParseRole(role.value).Some?
              && userId.value !in profiles
    ensures out.0 == SelfModification <==>
              guard.Allowed? && Truthy(userId) && Truthy(role) && ParseRole(role.value).Some?
              && userId.value in profiles && IsCaller(guard, userId.value)
    ensures guard.Allowed? && Truthy(userId) && Truthy(role) && ParseRole(role.value).Some?
            && userId.value in profiles && !IsCaller(guard, userId.value) ==>
              out.0.Promoted?
    ensures !out.0.Promoted? ==> out.1 == profiles
    ensures out.0.Promoted? ==>
              var u := userId.value;
              && u in profiles && !IsCaller(guard, u)
              && out.0 == Promoted(u, profiles[u].email, ParseRole(role.value).value)
              && out.1.Keys == profiles.Keys
              && (forall id :: id in profiles && id != u ==> out.1[id] == profiles[id])
              && out.1[u].role == role.value
              && out.1[u].email == profiles[u].email && out.1[u].fullName == profiles[u].fullName
              && out.1[u].isSuperUser == (profiles[u].isSuperUser && out.0.role != Admin)
  {
    if guard.Rejected? then (GuardFailed(guard.status), profiles)
    else if !Truthy(userId) || !Truthy(role) then (MissingFields, profiles)
    else match ParseRole(role.value)
      case None => (InvalidRole, profiles)
      case Some(r) =>
        var u := userId.value;
        if u !in profiles then (NotFound, profiles)
        else if IsCaller(guard, u) then (SelfModification, profiles)
        else
          var p := profiles[u];
          var updated := p.(role := RoleName(r), isSuperUser := if r == Admin then false else p.isSuperUser);
          RoleTextRoundTrip(r, role.value);
          (Promoted(u, p.email, r), profiles[u := updated])
  }

  /** The existence check comes before the self check: a caller naming an
      id with no profile gets 404 even when it is their own. */
  lemma MissingSelfIsNotFound(profiles: map<UserId, Profile>, caller: UserId, role: Role)
    requires caller != "" && caller !in profiles
    ensures Post(profiles, Allowed(Some(caller)), Some(caller), Some(RoleName(role))).0 == NotFound
  {
    RoleTextRoundTrip(role, RoleName(role));
  }

  /** Promotion changes the super users only by clearing the target's flag
      when the new role is admin. */
  lemma PromoteSuperUsers(profiles: map<UserId, Profile>, guard: AdminGuard, userId: Option<string>, role: Option<string>)
    ensures var out := Post(profiles, guard, userId, role);
            SuperUsers(out.1) ==
              if out.0.Promoted? && out.0.role == Admin then SuperUsers(profiles) - {userId.value}
              else SuperUsers(profiles)
  {
    var out := Post(profiles, guard, userId, role);
    if out.0.Promoted? {
      var u := userId.value;
      var expected := if out.0.role == Admin then SuperUsers(profiles) - {u} else SuperUsers(profiles);
      forall id ensures id in SuperUsers(out.1) <==> id in expected {
        if id == u {
          assert out.1[u].isSuperUser == (profiles[u].isSuperUser && out.0.role != Admin);
        }
      }
    }
  }

  /** A caller who is a super user stays one: the route never touches the
      caller's own row. */
  lemma PromoteKeepsCallerSuperUser(profiles: map<UserId, Profile>, caller: UserId, userId: Option<string>, role: Option<string>)
    requires caller in SuperUsers(profiles)
    ensures caller in SuperUsers(Post(profiles, Allowed(Some(caller)), userId, role).1)
  {
    PromoteSuperUsers(profiles, Allowed(Some(caller)), userId, role);
  }

  /** Unlike the super-user route, promotion has no last-super-user guard:
      making the only super user an admin, by a caller whose session has no
      profile, leaves no super user at all. */
  lemma PromotionCanClearLastSuperUser()
    ensures var profiles := map["a" := Profile("a@example.com", None, "admin", true)];
            var out := Post(profiles, Allowed(None), Some("a"), Some("admin"));
            |SuperUsers(profiles)| == 1 && out.0.Promoted? && SuperUsers(out.1) == {}
  {
    var profiles := map["a" := Profile("a@example.com", None, "admin", true)];
    assert SuperUsers(profiles) == {"a"};
    PromoteSuperUsers(profiles, Allowed(None), Some("a"), Some("admin"));
  }
}
