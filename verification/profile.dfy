/** `app/api/create-profile`: create a profile row unless one with the same
    id exists, filling in the defaults. */
module ProfileCreation {
  import opened Common
  import opened Records

  datatype ProfileReply =
    | MissingFields
    | NotConfigured
    | AlreadyExists(profileId: UserId)
    | CreatedProfile(profileId: UserId)
  {
    function Status(): int {
      match this
      case MissingFields => 400
      case NotConfigured => 500
      case AlreadyExists(_) => 200
      case CreatedProfile(_) => 200
    }
  }

  /** The role a new profile gets: the given text, unchecked, or
      `subscriber` when none is given. */
  const DefaultRole: string := "subscriber"

  /** POST: `envConfigured` is the presence of the service credentials. */
  function Post(
    profiles: map<UserId, Profile>,
    envConfigured: bool,
    userId: Option<string>,
    email: Option<string>,
    fullName: Option<string>,
    role: Option<string>): (out: (ProfileReply, map<UserId, Profile>))
    ensures !Truthy(userId) || !Truthy(email) ==> out == (MissingFields, profiles)
    ensures out.0 == MissingFields <==> !Truthy(userId) || !Truthy(email)
    ensures Truthy(userId) && Truthy(email) && !envConfigured ==> out == (NotConfigured, profiles)
    ensures out.0 == NotConfigured <==> Truthy(userId) && Truthy(email) && !envConfigured
    ensures Truthy(userId) && Truthy(email) && envConfigured && userId.value !in profiles ==>
              out.0.CreatedProfile?
    ensures !out.0.CreatedProfile? ==> out.1 == profiles
    ensures out.0.AlreadyExists? <==> Truthy(userId) && Truthy(email) && envConfigured && userId.value in profiles
    ensures out.0.AlreadyExists? ==> out.0.profileId == userId.value
    ensures out.0.CreatedProfile? ==>
              var u := userId.value;
              && out.0.profileId == u
              && u !in profiles
              && out.1.Keys == profiles.Keys + {u}
              && (forall id :: id in profiles ==> out.1[id] == profiles[id])
              && out.1[u].email == email.value
              && !out.1[u].isSuperUser
              && (out.1[u].fullName.None? <==> !Truthy(fullName))
              && (Truthy(fullName) ==> out.1[u].fullName == fullName)
              && (Truthy(role) ==> out.1[u].role == role.value)
              && (!Truthy(role) ==> out.1[u].role == DefaultRole)
  {
    if !Truthy(userId) || !Truthy(email) then (MissingFields, profiles)
    else if !envConfigured then (NotConfigured, profiles)
    else
      var u := userId.value;
      if u in profiles then (AlreadyExists(u), profiles)
      else (CreatedProfile(u), profiles[u := Profile(email.value, OrNull(fullName), OrDefault(role, DefaultRole), false)])
  }

  /** Repeating a successful request reports the same profile and writes
      nothing, whatever the second request's other fields. */
  lemma PostIdempotent(
    profiles: map<UserId, Profile>, u: UserId, email: Option<string>,
    fullName: Option<string>, role: Option<string>,
    email2: Option<string>, fullName2: Option<string>, role2: Option<string>)
    requires Post(profiles, true, Some(u), email, fullName, role).0.CreatedProfile?
             || Post(profiles, true, Some(u), email, fullName, role).0.AlreadyExists?
    requires Truthy(email2)
    ensures var (first, p1) := Post(profiles, true, Some(u), email, fullName, role);
            Post(p1, true, Some(u), email2, fullName2, role2) == (AlreadyExists(u), p1)
  {
  }

  /** Profile creation never makes a super user. */
  lemma PostAddsNoSuperUser(
    profiles: map<UserId, Profile>, envConfigured: bool, userId: Option<string>,
    email: Option<string>, fullName: Option<string>, role: Option<string>)
    ensures SuperUsers(Post(profiles, envConfigured, userId, email, fullName, role).1) == SuperUsers(profiles)
  {
    var out := Post(profiles, envConfigured, userId, email, fullName, role);
    forall id ensures id in SuperUsers(out.1) <==> id in SuperUsers(profiles) {
      if out.0.CreatedProfile? && id == userId.value {
        assert !out.1[id].isSuperUser;
      }
    }
  }
}
