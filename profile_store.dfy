/**
 * The AWS profile store (AWSProfileContext): the saved profiles in the order
 * they were created, the profile currently in use, the last error shown, and
 * the two browser-storage entries the store writes through to. The new
 * lists are computed by the pure functions at the top; the class below
 * applies them one operation at a time and keeps the active profile tied to
 * the list and to the stored active id.
 */
module ProfileStore {
  import opened Wrappers
  import opened Strings
  import opened Sequences

  /** A saved profile (`AWSProfile`); dates are clock readings. */
  datatype Profile = Profile(
    id: string,
    name: string,
    accessKeyId: string,
    secretAccessKey: string,
    region: string,
    sessionToken: Option<string>,
    isActive: bool,
    isValid: Option<bool>,
    lastValidated: Option<int>,
    createdAt: int,
    updatedAt: int)

  /** What the create form submits (`CreateAWSProfileRequest`). */
  datatype NewProfileRequest = NewProfileRequest(
    name: string,
    accessKeyId: string,
    secretAccessKey: string,
    region: string,
    sessionToken: Option<string>)

  /** What the edit form submits (`UpdateAWSProfileRequest`): an absent field is left alone. */
  datatype ProfileUpdate = ProfileUpdate(
    id: string,
    name: Option<string>,
    accessKeyId: Option<string>,
    secretAccessKey: Option<string>,
    region: Option<string>,
    sessionToken: Option<string>)

  /** The part of a credential check the store records. */
  datatype Validation = Validation(isValid: bool, checkedAt: int)

  /** How the credential-check request ended: no answer, a non-2xx answer, or a verdict. */
  datatype ValidationReply = Unreachable(message: string) | NotOk | Replied(validation: Validation)

  const ProfileNotFound := "Profile not found"
  const ValidationRequestFailed := "Failed to validate credentials"
  const SetActiveFailed := "Failed to set active profile"
  const ValidateFailed := "Failed to validate profile"

  // -----------------------------------------------------------------------
  // The list operations
  // -----------------------------------------------------------------------

  /** A profile with the given id (`profiles.find`); `FindIsFirst` says it is the first one. */
  function Find(ps: seq<Profile>, id: string): (r: Option<Profile>)
    ensures r.None? <==> forall p :: p in ps ==> p.id != id
    ensures r.Some? ==> r.value in ps && r.value.id == id
    decreases |ps|
  {
    if ps == [] then None
    else if ps[0].id == id then Some(ps[0])
    else
      var r := Find(ps[1..], id);
      assert forall p :: p in ps <==> p == ps[0] || p in ps[1..];
      r
  }

  /** `find` returns the first profile with the id: every profile before it has another id. */
  lemma {:induction false} FindIsFirst(ps: seq<Profile>, id: string)
    requires Find(ps, id).Some?
    ensures exists i :: 0 <= i < |ps| && ps[i] == Find(ps, id).value && forall j :: 0 <= j < i ==> ps[j].id != id
    decreases |ps|
  {
    if ps[0].id == id {
      assert ps[0] == Find(ps, id).value;
    } else {
      var tail := ps[1..];
      FindIsFirst(tail, id);
      var i :| 0 <= i < |tail| && tail[i] == Find(tail, id).value && forall j :: 0 <= j < i ==> tail[j].id != id;
      assert ps[i + 1] == Find(ps, id).value;
      forall j | 0 <= j < i + 1
        ensures ps[j].id != id
      {
        if j > 0 { assert ps[j] == tail[j - 1]; }
      }
    }
  }

  /** A new profile: active exactly when it is the first one. */
  function NewProfile(r: NewProfileRequest, id: string, now: int, first: bool): (p: Profile)
    ensures p.id == id && p.isActive == first
    ensures p.isValid.None? && p.lastValidated.None? && p.createdAt == now && p.updatedAt == now
  {
    Profile(id, r.name, r.accessKeyId, r.secretAccessKey, r.region, r.sessionToken, first, None, None, now, now)
  }

  /** The record `{...profile, ...update, updatedAt: now}`: supplied fields win, the rest are kept. */
  function Updated(p: Profile, u: ProfileUpdate, now: int): (q: Profile)
    ensures q.id == u.id && q.updatedAt == now
    ensures q.isActive == p.isActive && q.isValid == p.isValid && q.lastValidated == p.lastValidated
    ensures q.createdAt == p.createdAt
    ensures q.name == u.name.GetOr(p.name) && q.region == u.region.GetOr(p.region)
    ensures q.accessKeyId == u.accessKeyId.GetOr(p.accessKeyId)
    ensures q.secretAccessKey == u.secretAccessKey.GetOr(p.secretAccessKey)
    ensures q.sessionToken == if u.sessionToken.Some? then u.sessionToken else p.sessionToken
  {
    p.(id := u.id,
       name := u.name.GetOr(p.name),
       accessKeyId := u.accessKeyId.GetOr(p.accessKeyId),
       secretAccessKey := u.secretAccessKey.GetOr(p.secretAccessKey),
       region := u.region.GetOr(p.region),
       sessionToken := if u.sessionToken.Some? then u.sessionToken else p.sessionToken,
       updatedAt := now)
  }

  /** `profiles.map(...)` for an update: the profiles with the update's id are rewritten, in place. */
  function UpdateAll(ps: seq<Profile>, u: ProfileUpdate, now: int): (r: seq<Profile>)
    ensures |r| == |ps|
    ensures forall i :: 0 <= i < |ps| ==> r[i].id == ps[i].id
    ensures forall i :: 0 <= i < |ps| && ps[i].id != u.id ==> r[i] == ps[i]
    ensures forall i :: 0 <= i < |ps| && ps[i].id == u.id ==> r[i] == Updated(ps[i], u, now)
    decreases |ps|
  {
    if ps == [] then []
    else
      var rest := UpdateAll(ps[1..], u, now);
      var head := if ps[0].id == u.id then Updated(ps[0], u, now) else ps[0];
      assert forall i :: 1 <= i < |ps| ==> ([head] + rest)[i] == rest[i - 1];
      [head] + rest
  }

  /** A profile with a validation verdict recorded on it. */
  function WithValidation(p: Profile, v: Validation): (q: Profile)
    ensures q.isValid == Some(v.isValid) && q.lastValidated == Some(v.checkedAt)
    ensures q.(isValid := p.isValid, lastValidated := p.lastValidated) == p
  {
    p.(isValid := Some(v.isValid), lastValidated := Some(v.checkedAt))
  }

  /** `profiles.map(...)` for a validation: only the profiles with that id gain the verdict. */
  function ValidateAll(ps: seq<Profile>, id: string, v: Validation): (r: seq<Profile>)
    ensures |r| == |ps|
    ensures forall i :: 0 <= i < |ps| && ps[i].id != id ==> r[i] == ps[i]
    ensures forall i :: 0 <= i < |ps| && ps[i].id == id ==> r[i] == WithValidation(ps[i], v)
    decreases |ps|
  {
    if ps == [] then []
    else
      var rest := ValidateAll(ps[1..], id, v);
      var head := if ps[0].id == id then WithValidation(ps[0], v) else ps[0];
      assert forall i :: 1 <= i < |ps| ==> ([head] + rest)[i] == rest[i - 1];
      [head] + rest
  }

  /** `profiles.filter(p => p.id !== id)`: every profile with another id, in order, and none with this one. */
  function Remove(ps: seq<Profile>, id: string): (r: seq<Profile>)
    ensures IsSubsequence(r, ps)
    ensures forall p :: p in r <==> p in ps && p.id != id
    ensures forall p :: multiset(r)[p] == if p.id != id then multiset(ps)[p] else 0
    decreases |ps|
  {
    if ps == [] then []
    else
      var rest := Remove(ps[1..], id);
      assert ps == [ps[0]] + ps[1..];
      assert multiset(ps) == multiset([ps[0]]) + multiset(ps[1..]);
      if ps[0].id != id then
        SubsequenceKeep(rest, ps[0], ps[1..]);
        assert multiset([ps[0]] + rest) == multiset([ps[0]]) + multiset(rest);
        [ps[0]] + rest
      else
        SubsequenceSkip(rest, ps[0], ps[1..]);
        rest
  }

  /**
   * The active profile after loading: with saved profiles and a saved id,
   * the first saved profile of that id, or none; otherwise it is not touched.
   */
  function LoadedActive(stored: Option<seq<Profile>>, storedId: Option<string>, current: Option<Profile>): (a: Option<Profile>)
    ensures stored.Some? && Present(storedId) ==> a == Find(stored.value, storedId.value)
    ensures stored.None? || !Present(storedId) ==> a == current
  {
    if stored.Some? && Present(storedId) then Find(stored.value, storedId.value) else current
  }

  // -----------------------------------------------------------------------
  // Properties of the list operations
  // -----------------------------------------------------------------------

  /** After an update, looking the id up gives the updated form of what it gave before. */
  lemma {:induction false} FindAfterUpdate(ps: seq<Profile>, u: ProfileUpdate, now: int)
    ensures Find(UpdateAll(ps, u, now), u.id)
         == match Find(ps, u.id) case None => None case Some(p) => Some(Updated(p, u, now))
    decreases |ps|
  {
    if ps != [] {
      var r := UpdateAll(ps, u, now);
      assert r[1..] == UpdateAll(ps[1..], u, now);
      if ps[0].id != u.id {
        FindAfterUpdate(ps[1..], u, now);
      }
    }
  }

  /** An update whose id matches no profile changes nothing. */
  lemma {:induction false} UpdateUnknownIdChangesNothing(ps: seq<Profile>, u: ProfileUpdate, now: int)
    requires Find(ps, u.id).None?
    ensures UpdateAll(ps, u, now) == ps
  {
    var r := UpdateAll(ps, u, now);
    assert forall i :: 0 <= i < |ps| ==> ps[i] in ps;
  }

  /** After a validation, looking the id up gives the first such profile with the verdict on it. */
  lemma {:induction false} FindAfterValidation(ps: seq<Profile>, id: string, v: Validation)
    ensures Find(ValidateAll(ps, id, v), id)
         == match Find(ps, id) case None => None case Some(p) => Some(WithValidation(p, v))
    decreases |ps|
  {
    if ps != [] {
      var r := ValidateAll(ps, id, v);
      assert r[1..] == ValidateAll(ps[1..], id, v);
      if ps[0].id != id {
        FindAfterValidation(ps[1..], id, v);
      }
    }
  }

  /** Deleting an id does not change which profile any other id finds. */
  lemma {:induction false} FindOtherAfterRemove(ps: seq<Profile>, id: string, other: string)
    requires other != id
    ensures Find(Remove(ps, id), other) == Find(ps, other)
    decreases |ps|
  {
    if ps != [] {
      FindOtherAfterRemove(ps[1..], id, other);
      if ps[0].id != id {
        assert ([ps[0]] + Remove(ps[1..], id))[1..] == Remove(ps[1..], id);
      }
    }
  }

  /** Deleting the same id twice is the same as deleting it once. */
  lemma {:induction false} RemoveIdempotent(ps: seq<Profile>, id: string)
    ensures Remove(Remove(ps, id), id) == Remove(ps, id)
    decreases |ps|
  {
    if ps != [] {
      RemoveIdempotent(ps[1..], id);
      if ps[0].id != id {
        assert ([ps[0]] + Remove(ps[1..], id))[1..] == Remove(ps[1..], id);
      }
    }
  }

  /** Deletion keeps every other profile: nothing is lost but the deleted id. */
  lemma {:induction false} RemoveLength(ps: seq<Profile>, id: string)
    ensures |Remove(ps, id)| <= |ps|
    ensures Find(ps, id).None? ==> Remove(ps, id) == ps
    decreases |ps|
  {
    if ps != [] {
      RemoveLength(ps[1..], id);
      assert Find(ps, id).None? ==> Find(ps[1..], id).None? by {
        assert forall p :: p in ps[1..] ==> p in ps;
      }
    }
  }

  /** A profile the update does not address is still in the list afterwards. */
  lemma UpdateKeepsOther(ps: seq<Profile>, u: ProfileUpdate, now: int, p: Profile)
    requires p in ps && p.id != u.id
    ensures p in UpdateAll(ps, u, now)
  {
    var i :| 0 <= i < |ps| && ps[i] == p;
    assert UpdateAll(ps, u, now)[i] == p;
  }

  /** An id held by some profile is still found after an update of that id. */
  lemma UpdateStillFinds(ps: seq<Profile>, u: ProfileUpdate, now: int, p: Profile)
    requires p in ps && p.id == u.id
    ensures Find(UpdateAll(ps, u, now), u.id).Some?
  {
    FindAfterUpdate(ps, u, now);
  }

  /** What an update leaves of the active profile: refound under its id, or untouched. */
  lemma UpdateKeepsActive(ps: seq<Profile>, u: ProfileUpdate, now: int, a: Profile)
    requires a in ps
    ensures a.id == u.id ==> Find(UpdateAll(ps, u, now), u.id).Some?
    ensures a.id != u.id ==> a in UpdateAll(ps, u, now)
  {
    if a.id == u.id {
      UpdateStillFinds(ps, u, now, a);
    } else {
      UpdateKeepsOther(ps, u, now, a);
    }
  }

  /** A profile in the list is there afterwards with the verdict recorded when it has the id. */
  lemma ValidateKeepsProfile(ps: seq<Profile>, id: string, v: Validation, p: Profile)
    requires p in ps
    ensures (if p.id == id then WithValidation(p, v) else p) in ValidateAll(ps, id, v)
  {
    var i :| 0 <= i < |ps| && ps[i] == p;
    assert ValidateAll(ps, id, v)[i] == (if p.id == id then WithValidation(p, v) else p);
  }

  // -----------------------------------------------------------------------
  // The store
  // -----------------------------------------------------------------------

  class ProfileContext {
    var profiles: seq<Profile>
    var active: Option<Profile>
    var error: Option<string>
    /** The `aws-profiles` storage entry; absent until something is saved. */
    var storedProfiles: Option<seq<Profile>>
    /** The `aws-active-profile-id` storage entry. */
    var storedActiveId: Option<string>

    /**
     * The active profile is one of the profiles and is the one whose id is
     * stored; the stored list is the list in memory, or absent while the
     * list is still empty.
     */
    predicate Valid()
      reads this
    {
      && (active.Some? ==> active.value in profiles)
      && (active.Some? ==> storedActiveId == Some(active.value.id))
      && (storedProfiles == Some(profiles) || (storedProfiles.None? && profiles == []))
    }

    /** Mounting the provider over whatever storage holds: the initial load. */
    constructor (stored: Option<seq<Profile>>, storedId: Option<string>)
      ensures Valid()
      ensures storedProfiles == stored && storedActiveId == storedId && error.None?
      ensures profiles == stored.GetOr([])
      ensures active == LoadedActive(stored, storedId, None)
    {
      storedProfiles := stored;
      storedActiveId := storedId;
      error := None;
      profiles := stored.GetOr([]);
      active := LoadedActive(stored, storedId, None);
    }

    /** `refreshProfiles`: read storage again; an id that finds nothing clears the active profile. */
    method Load()
      requires Valid()
      modifies this
      ensures Valid()
      ensures storedProfiles == old(storedProfiles) && storedActiveId == old(storedActiveId) && error == old(error)
      ensures profiles == if storedProfiles.Some? then storedProfiles.value else old(profiles)
      ensures active == LoadedActive(storedProfiles, storedActiveId, old(active))
    {
      if storedProfiles.Some? {
        profiles := storedProfiles.value;
        if Present(storedActiveId) {
          active := Find(profiles, storedActiveId.value);
        }
      }
    }

    /** `createProfile`: append; the first profile becomes the active one. */
    method Create(r: NewProfileRequest, id: string, now: int)
      requires Valid()
      modifies this
      ensures Valid()
      ensures profiles == old(profiles) + [NewProfile(r, id, now, old(profiles) == [])]
      ensures storedProfiles == Some(profiles) && error.None?
      ensures old(profiles) == [] ==> active == Some(NewProfile(r, id, now, true)) && storedActiveId == Some(id)
      ensures old(profiles) != [] ==> active == old(active) && storedActiveId == old(storedActiveId)
    {
      error := None;
      var p := NewProfile(r, id, now, profiles == []);
      if profiles == [] {
        active := Some(p);
        storedActiveId := Some(id);
      }
      profiles := profiles + [p];
      storedProfiles := Some(profiles);
    }

    /** `updateProfile`: rewrite the matching profiles; an active one is refreshed from the new list. */
    method Update(u: ProfileUpdate, now: int)
      requires Valid()
      modifies this
      ensures Valid()
      ensures profiles == UpdateAll(old(profiles), u, now)
      ensures storedProfiles == Some(profiles) && error.None? && storedActiveId == old(storedActiveId)
      ensures old(active).Some? && old(active).value.id == u.id ==> active == Find(profiles, u.id)
      ensures old(active).None? || old(active).value.id != u.id ==> active == old(active)
    {
      error := None;
      if active.Some? {
        UpdateKeepsActive(profiles, u, now, active.value);
      }
      profiles := UpdateAll(profiles, u, now);
      storedProfiles := Some(profiles);
      if active.Some? && active.value.id == u.id {
        active := Find(profiles, u.id);
      }
    }

    /** `deleteProfile`: drop the id; deleting the active profile hands over to the first remaining one. */
    method Delete(id: string)
      requires Valid()
      modifies this
      ensures Valid()
      ensures profiles == Remove(old(profiles), id)
      ensures storedProfiles == Some(profiles) && error.None?
      ensures old(active).Some? && old(active).value.id == id ==>
        && active == (if profiles == [] then None else Some(profiles[0]))
        && storedActiveId == (if profiles == [] then None else Some(profiles[0].id))
      ensures old(active).None? || old(active).value.id != id ==>
        active == old(active) && storedActiveId == old(storedActiveId)
    {
      error := None;
      profiles := Remove(profiles, id);
      storedProfiles := Some(profiles);
      if active.Some? && active.value.id == id {
        if profiles != [] {
          active := Some(profiles[0]);
          storedActiveId := Some(profiles[0].id);
        } else {
          active := None;
          storedActiveId := None;
        }
      }
    }

    /** `setActiveProfile`: an unknown id is an error and changes nothing but the error shown. */
    method SetActive(id: string) returns (res: Result<(), string>)
      requires Valid()
      modifies this
      ensures Valid()
      ensures profiles == old(profiles) && storedProfiles == old(storedProfiles)
      ensures res.Failure? <==> Find(profiles, id).None?
      ensures res.Failure? ==>
        && res.error == ProfileNotFound && error == Some(SetActiveFailed)
        && active == old(active) && storedActiveId == old(storedActiveId)
      ensures res.Success? ==>
        active == Find(profiles, id) && storedActiveId == Some(id) && error == old(error)
    {
      var found := Find(profiles, id);
      if found.None? {
        error := Some(SetActiveFailed);
        return Failure(ProfileNotFound);
      }
      active := found;
      storedActiveId := Some(id);
      return Success(());
    }

    /**
     * The state update of `validateProfile`: the verdict is written onto the
     * profiles with that id and onto the active copy when it is one of them;
     * an unknown id or a failed request is an error and leaves the list alone.
     */
    method RecordValidation(id: string, reply: ValidationReply) returns (res: Result<Validation, string>)
      requires Valid()
      modifies this
      ensures Valid()
      ensures storedActiveId == old(storedActiveId)
      ensures Find(old(profiles), id).None? ==> res == Failure(ProfileNotFound)
      ensures Find(old(profiles), id).Some? && reply.Unreachable? ==> res == Failure(reply.message)
      ensures Find(old(profiles), id).Some? && reply.NotOk? ==> res == Failure(ValidationRequestFailed)
      ensures res.Failure? ==>
        && error == Some(ValidateFailed) && profiles == old(profiles)
        && storedProfiles == old(storedProfiles) && active == old(active)
      ensures res.Success? <==> Find(old(profiles), id).Some? && reply.Replied?
      ensures res.Success? ==>
        && res.value == reply.validation && error.None?
        && profiles == ValidateAll(old(profiles), id, reply.validation)
        && storedProfiles == Some(profiles)
        && active == (if old(active).Some? && old(active).value.id == id
                      then Some(WithValidation(old(active).value, reply.validation))
                      else old(active))
    {
      error := None;
      if Find(profiles, id).None? {
        error := Some(ValidateFailed);
        return Failure(ProfileNotFound);
      }
      match reply
      case Unreachable(m) =>
        error := Some(ValidateFailed);
        return Failure(m);
      case NotOk =>
        error := Some(ValidateFailed);
        return Failure(ValidationRequestFailed);
      case Replied(v) =>
        var old_profiles := profiles;
        profiles := ValidateAll(profiles, id, v);
        storedProfiles := Some(profiles);
        if active.Some? {
          ValidateKeepsProfile(old_profiles, id, v, active.value);
          if active.value.id == id {
            active := Some(WithValidation(active.value, v));
          }
        }
        return Success(v);
    }
  }
}
