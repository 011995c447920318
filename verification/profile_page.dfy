/**
 * The profile page: the edit form's skill list, the skill selector, and the
 * save handler that validates the form and builds the partial profile it
 * hands to the identity store.
 */
module Profile {
  import opened Wrappers
  import opened Seqs
  import opened Auth

  /** The skills the selector knows. */
  const AvailableSkills := ["Plumbing", "Electrical", "Carpentry", "Painting", "Cleaning",
                            "Junk Removal", "Flooring", "Roofing", "Landscaping", "HVAC"]

  const NameAndEmailRequired := "Name and email are required"
  const ProfileUpdated := "Profile updated successfully"

  predicate NoDuplicates(s: seq<string>)
  {
    forall i, j :: 0 <= i < j < |s| ==> s[i] != s[j]
  }

  /** `skill => !skills.includes(skill)` */
  function NotListed(skills: seq<string>): string -> bool
  {
    (s: string) => s !in skills
  }

  /** `skill => skill !== skillToRemove` */
  function Other(skillToRemove: string): string -> bool
  {
    (s: string) => s != skillToRemove
  }

  /** The options of the skill selector: the known skills not yet in the list, in their fixed order. */
  function SkillOptions(skills: seq<string>): seq<string>
  {
    Filter(AvailableSkills, NotListed(skills))
  }

  /** A filter of a list without duplicates has none either. */
  lemma {:induction false} FilterKeepsDistinct(s: seq<string>, p: string -> bool)
    requires NoDuplicates(s)
    ensures NoDuplicates(Filter(s, p))
  {
    if s != [] {
      FilterKeepsDistinct(s[1..], p);
      var rest := Filter(s[1..], p);
      assert s[0] !in s[1..] by {
        forall k | 0 <= k < |s[1..]|
          ensures s[1..][k] != s[0]
        {
          assert s[1..][k] == s[k + 1];
        }
      }
      assert s[0] !in rest;
      if p(s[0]) {
        var r := Filter(s, p);
        assert r == [s[0]] + rest;
        forall i, j | 0 <= i < j < |r|
          ensures r[i] != r[j]
        {
          assert r[j] == rest[j - 1];
          if i > 0 {
            assert r[i] == rest[i - 1];
          }
        }
      }
    }
  }

  /** No skill is known twice, and none is the empty text of "Select a skill". */
  lemma AvailableSkillsDistinct()
    ensures NoDuplicates(AvailableSkills)
    ensures "" !in AvailableSkills
  {
    forall i | 0 <= i < |AvailableSkills|
      ensures |AvailableSkills[i]| > 0
    {
    }
  }

  /**
   * The selector offers exactly the known skills that are not in the list,
   * each once, in the order of the known skills; so adding an offered skill
   * always succeeds.
   */
  lemma SkillOptionsExact(skills: seq<string>)
    ensures forall s :: s in SkillOptions(skills) <==> s in AvailableSkills && s !in skills
    ensures Subseq(SkillOptions(skills), AvailableSkills)
    ensures NoDuplicates(SkillOptions(skills))
    ensures forall s :: s in SkillOptions(skills) ==> s != "" && s !in skills
  {
    FilterIsSubseq(AvailableSkills, NotListed(skills));
    AvailableSkillsDistinct();
    FilterKeepsDistinct(AvailableSkills, NotListed(skills));
  }

  /** Appending a skill that is not in a list without duplicates keeps it without duplicates. */
  lemma AppendKeepsDistinct(skills: seq<string>, s: string)
    requires NoDuplicates(skills) && s !in skills
    ensures NoDuplicates(skills + [s])
  {
  }

  /** Removing a skill deletes every copy of it, keeps every other skill and their order. */
  lemma RemoveSkillExact(skills: seq<string>, skillToRemove: string)
    ensures skillToRemove !in Filter(skills, Other(skillToRemove))
    ensures forall s :: s != skillToRemove ==> (s in Filter(skills, Other(skillToRemove)) <==> s in skills)
    ensures forall s :: s != skillToRemove ==>
      multiset(Filter(skills, Other(skillToRemove)))[s] == multiset(skills)[s]
    ensures Subseq(Filter(skills, Other(skillToRemove)), skills)
    ensures NoDuplicates(skills) ==> NoDuplicates(Filter(skills, Other(skillToRemove)))
  {
    FilterIsSubseq(skills, Other(skillToRemove));
    if NoDuplicates(skills) {
      FilterKeepsDistinct(skills, Other(skillToRemove));
    }
  }

  /**
   * The partial profile `handleSave` hands to `updateProfile`: always the
   * name and email; the skills only when the role is worker; the location
   * only when the address is not empty and the profile has a location, in
   * which case the coordinates are kept and only the address is replaced.
   */
  function SavePayload(name: string, email: string, address: string, skills: seq<string>,
                       userType: Option<UserType>, currentUser: Option<User>): UserPatch
  {
    UserPatch(
      None, Some(name), Some(email), None,
      if address != "" && currentUser.Some? && currentUser.value.location.Some?
      then Some(Location(currentUser.value.location.value.lat, currentUser.value.location.value.lng, address))
      else None,
      None,
      if userType == Some(Worker) then Some(skills) else None,
      None)
  }

  /** What saving the form makes of the signed-in profile. */
  lemma SavedProfile(name: string, email: string, address: string, skills: seq<string>,
                     userType: Option<UserType>, u: User)
    ensures var saved := ApplyPatch(u, SavePayload(name, email, address, skills, userType, Some(u)));
      && saved.name == name && saved.email == email
      && saved.skills == (if userType == Some(Worker) then Some(skills) else u.skills)
      && saved.location == (if address != "" && u.location.Some?
                            then Some(u.location.value.(address := address))
                            else u.location)
      && saved.id == u.id && saved.userType == u.userType
      && saved.profileImage == u.profileImage && saved.rating == u.rating
  {
  }

  /** The form's text for the name, e-mail, address and skills of a profile (`currentUser?.x || ''`). */
  function NameOf(currentUser: Option<User>): string
  {
    if currentUser.Some? then currentUser.value.name else ""
  }

  function EmailOf(currentUser: Option<User>): string
  {
    if currentUser.Some? then currentUser.value.email else ""
  }

  function AddressOf(currentUser: Option<User>): string
  {
    if currentUser.Some? && currentUser.value.location.Some? then currentUser.value.location.value.address else ""
  }

  function SkillsOf(currentUser: Option<User>): seq<string>
  {
    if currentUser.Some? && currentUser.value.skills.Some? then currentUser.value.skills.value else []
  }

  /** The page's form state. */
  class ProfileForm {
    var isEditing: bool
    var name: string
    var email: string
    var address: string
    var skills: seq<string>
    var newSkill: string
    var isLoading: bool
    var error: string
    var success: string

    /** The form starts out showing the signed-in profile, not editing, with no messages. */
    constructor (currentUser: Option<User>)
      ensures name == NameOf(currentUser) && email == EmailOf(currentUser)
      ensures address == AddressOf(currentUser) && skills == SkillsOf(currentUser)
      ensures newSkill == "" && error == "" && success == ""
      ensures !isEditing && !isLoading
    {
      isEditing := false;
      name := NameOf(currentUser);
      email := EmailOf(currentUser);
      address := AddressOf(currentUser);
      skills := SkillsOf(currentUser);
      newSkill := "";
      isLoading := false;
      error := "";
      success := "";
    }

    /**
     * `handleAddSkill`: a chosen skill that is not empty and not yet listed is
     * appended and the choice cleared; otherwise nothing changes.
     */
    method AddSkill()
      modifies this`skills, this`newSkill
      ensures old(newSkill) != "" && old(newSkill) !in old(skills) ==>
        skills == old(skills) + [old(newSkill)] && newSkill == ""
      ensures !(old(newSkill) != "" && old(newSkill) !in old(skills)) ==>
        skills == old(skills) && newSkill == old(newSkill)
      ensures NoDuplicates(old(skills)) ==> NoDuplicates(skills)
      ensures forall s :: s in skills <==> s in old(skills) || (s == old(newSkill) && s != "")
    {
      if newSkill != "" && newSkill !in skills {
        if NoDuplicates(skills) {
          AppendKeepsDistinct(skills, newSkill);
        }
        skills := skills + [newSkill];
        newSkill := "";
      }
    }

    /** `handleRemoveSkill`: every copy of the skill leaves the list; the others keep their order. */
    method RemoveSkill(skillToRemove: string)
      modifies this`skills
      ensures skills == Filter(old(skills), Other(skillToRemove))
      ensures skillToRemove !in skills
      ensures forall s :: s != skillToRemove ==> (s in skills <==> s in old(skills))
      ensures NoDuplicates(old(skills)) ==> NoDuplicates(skills)
    {
      RemoveSkillExact(skills, skillToRemove);
      skills := Filter(skills, Other(skillToRemove));
    }

    /**
     * `handleSave`: with an empty name or e-mail it shows the error and
     * updates nothing. Otherwise it clears the error, merges the payload into
     * the signed-in profile, shows the success message and leaves edit mode.
     */
    method Save(auth: AuthStore)
      modifies this`error, this`success, this`isEditing, this`isLoading, auth`currentUser
      ensures old(name) == "" || old(email) == "" ==>
        && error == NameAndEmailRequired
        && auth.currentUser == old(auth.currentUser)
        && success == old(success) && isEditing == old(isEditing) && isLoading == old(isLoading)
      ensures old(name) != "" && old(email) != "" ==>
        && error == "" && success == ProfileUpdated && !isEditing && !isLoading
        && auth.currentUser == (if old(auth.currentUser).Some?
                                then Some(ApplyPatch(old(auth.currentUser).value,
                                                     SavePayload(name, email, address, skills,
                                                                 old(auth.userType), old(auth.currentUser))))
                                else None)
      ensures old(auth.Valid()) ==> auth.Valid()
    {
      if name == "" || email == "" {
        error := NameAndEmailRequired;
        return;
      }
      isLoading := true;
      error := "";
      auth.UpdateProfile(SavePayload(name, email, address, skills, auth.userType, auth.currentUser));
      success := ProfileUpdated;
      isEditing := false;
      isLoading := false;
    }

    /** The cancel button: leaves edit mode and resets the form to the signed-in profile. */
    method Cancel(currentUser: Option<User>)
      modifies this
      ensures !isEditing && error == "" && success == ""
      ensures name == NameOf(currentUser) && email == EmailOf(currentUser)
      ensures address == AddressOf(currentUser) && skills == SkillsOf(currentUser)
      ensures newSkill == old(newSkill) && isLoading == old(isLoading)
    {
      isEditing := false;
      name := NameOf(currentUser);
      email := EmailOf(currentUser);
      address := AddressOf(currentUser);
      skills := SkillsOf(currentUser);
      error := "";
      success := "";
    }
  }
}
