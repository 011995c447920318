/**
 * The identity store: who is signed in, with which role, and whether the
 * session counts as authenticated. Sign-in is a mock that accepts any
 * credentials and synthesises the profile record.
 */
module Auth {
  import opened Wrappers

  /** The two roles; the source spells them 'user' (a homeowner who posts jobs) and 'worker'. */
  datatype UserType = Homeowner | Worker

  datatype Location = Location(lat: real, lng: real, address: string)

  /** The profile record. A `userType` of `None` is the source's `null` role. */
  datatype User = User(
    id: string,
    name: string,
    email: string,
    userType: Option<UserType>,
    location: Option<Location>,
    profileImage: Option<string>,
    skills: Option<seq<string>>,
    rating: Option<real>)

  /**
   * A partial profile handed to `updateProfile`: `None` is a field the caller
   * left out, `Some(v)` a field it supplies.
   */
  datatype UserPatch = UserPatch(
    id: Option<string>,
    name: Option<string>,
    email: Option<string>,
    userType: Option<Option<UserType>>,
    location: Option<Location>,
    profileImage: Option<string>,
    skills: Option<seq<string>>,
    rating: Option<real>)

  const NoChanges := UserPatch(None, None, None, None, None, None, None, None)

  /** The location every freshly signed-in profile starts with. */
  const DefaultLocation := Location(40.7128, -74.0060, "New York, NY")

  /** The skills a worker who logs in is given. */
  const LoginSkills := ["Plumbing", "Electrical", "Carpentry"]

  const LoginRating: real := 4.5

  /** The generated avatar address for a display name. */
  function AvatarUrl(name: string): string
  {
    "https://ui-avatars.com/api/?name=" + name + "&background=random"
  }

  /** `email.split('@')[0]`: the text before the first '@', or all of it when there is none. */
  function LocalPart(email: string): (r: string)
    ensures r <= email
    ensures '@' !in r
    ensures r == email || email[|r|] == '@'
  {
    if email == [] || email[0] == '@' then []
    else [email[0]] + LocalPart(email[1..])
  }

  /** The name part of an address that has one '@' is recovered from the address. */
  lemma {:induction false} LocalPartOfAddress(local: string, domain: string)
    requires '@' !in local
    ensures LocalPart(local + "@" + domain) == local
  {
    if local != [] {
      assert (local + "@" + domain)[1..] == local[1..] + "@" + domain;
      LocalPartOfAddress(local[1..], domain);
    }
  }

  /** The profile `login` synthesises: only workers get a skills list. */
  function LoginUser(email: string, userType: Option<UserType>, id: string): User
  {
    var name := LocalPart(email);
    User(id, name, email, userType, Some(DefaultLocation), Some(AvatarUrl(name)),
         if userType == Some(Worker) then Some(LoginSkills) else None,
         Some(LoginRating))
  }

  /** The profile `register` synthesises: rating 0, and an empty skills list for workers only. */
  function RegisteredUser(name: string, email: string, userType: Option<UserType>, id: string): User
  {
    User(id, name, email, userType, Some(DefaultLocation), Some(AvatarUrl(name)),
         if userType == Some(Worker) then Some([]) else None,
         Some(0.0))
  }

  /** `{ ...user, ...patch }`: every supplied field overrides, every other keeps its value. */
  function ApplyPatch(u: User, p: UserPatch): User
  {
    User(
      if p.id.Some? then p.id.value else u.id,
      if p.name.Some? then p.name.value else u.name,
      if p.email.Some? then p.email.value else u.email,
      if p.userType.Some? then p.userType.value else u.userType,
      if p.location.Some? then p.location else u.location,
      if p.profileImage.Some? then p.profileImage else u.profileImage,
      if p.skills.Some? then p.skills else u.skills,
      if p.rating.Some? then p.rating else u.rating)
  }

  /** A patch that supplies no field leaves the profile as it is. */
  lemma EmptyPatchIsIdentity(u: User)
    ensures ApplyPatch(u, NoChanges) == u
  {
  }

  /** Applying the same patch twice has the effect of applying it once. */
  lemma PatchIdempotent(u: User, p: UserPatch)
    ensures ApplyPatch(ApplyPatch(u, p), p) == ApplyPatch(u, p)
  {
  }

  /**
   * The agreement the three store fields keep: authenticated exactly when
   * someone is signed in, and the store's role is that person's role.
   */
  predicate Consistent(currentUser: Option<User>, userType: Option<UserType>, isAuthenticated: bool)
  {
    && (isAuthenticated <==> currentUser.Some?)
    && userType == (if currentUser.Some? then currentUser.value.userType else None)
  }

  class AuthStore {
    var currentUser: Option<User>
    var userType: Option<UserType>
    var isAuthenticated: bool

    predicate Valid()
      reads this
    {
      Consistent(currentUser, userType, isAuthenticated)
    }

    /** The signed-out state the store starts in. */
    constructor ()
      ensures currentUser == None && userType == None && !isAuthenticated
      ensures Valid()
    {
      currentUser, userType, isAuthenticated := None, None, false;
    }

    /** `login`: any credentials are accepted; `id` is the generated `user-<time>`. */
    method Login(email: string, password: string, t: Option<UserType>, id: string)
      modifies this
      ensures currentUser == Some(LoginUser(email, t, id))
      ensures userType == t && isAuthenticated
      ensures currentUser.value.name == LocalPart(email) && currentUser.value.email == email
      ensures currentUser.value.skills.Some? <==> t == Some(Worker)
      ensures Valid()
    {
      var userData := LoginUser(email, t, id);
      currentUser := Some(userData);
      userType := t;
      isAuthenticated := true;
    }

    /** `register`: like `login`, but with the given display name. */
    method Register(name: string, email: string, password: string, t: Option<UserType>, id: string)
      modifies this
      ensures currentUser == Some(RegisteredUser(name, email, t, id))
      ensures userType == t && isAuthenticated
      ensures currentUser.value.rating == Some(0.0)
      ensures currentUser.value.skills == if t == Some(Worker) then Some([]) else None
      ensures Valid()
    {
      var userData := RegisteredUser(name, email, t, id);
      currentUser := Some(userData);
      userType := t;
      isAuthenticated := true;
    }

    method Logout()
      modifies this
      ensures currentUser == None && userType == None && !isAuthenticated
      ensures Valid()
    {
      currentUser := None;
      userType := None;
      isAuthenticated := false;
    }

    /**
     * `updateProfile`: merges the patch into the signed-in profile; nothing
     * happens when nobody is signed in. The role field is not touched, so a
     * patch that changes the profile's role breaks the store's agreement.
     */
    method UpdateProfile(patch: UserPatch)
      modifies this`currentUser
      ensures old(currentUser).None? ==> currentUser == None
      ensures old(currentUser).Some? ==> currentUser == Some(ApplyPatch(old(currentUser).value, patch))
      ensures old(Valid()) && patch.userType.None? ==> Valid()
    {
      if currentUser.Some? {
        var updatedUser := ApplyPatch(currentUser.value, patch);
        currentUser := Some(updatedUser);
      }
    }

    /** `updateLocation`: replaces the signed-in profile's location and nothing else. */
    method UpdateLocation(lat: real, lng: real, address: string)
      modifies this`currentUser
      ensures old(currentUser).None? ==> currentUser == None
      ensures old(currentUser).Some? ==>
        currentUser == Some(old(currentUser).value.(location := Some(Location(lat, lng, address))))
      ensures old(Valid()) ==> Valid()
    {
      if currentUser.Some? {
        currentUser := Some(currentUser.value.(location := Some(Location(lat, lng, address))));
      }
    }
  }
}
