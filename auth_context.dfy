/**
 * The signed-in user and their profile (web/context/AuthContext.tsx). The
 * provider keeps three state fields, `user`, `userData` and `loading`, and the
 * profile-document subscription of the current user. The auth service and the
 * document store deliver events; each callback becomes a method here.
 *
 * A user is identified by their uid. A profile document is a map from field
 * names to values, the values kept as strings.
 */
module AuthContext {
  import opened Opt

  type Profile = map<string, string>

  /** `{ ...base, ...newData }` where a null `base` spreads nothing: keys of `newData` win. */
  function Merge(base: Option<Profile>, newData: Profile): (r: Profile)
    ensures r.Keys == newData.Keys + (if base.Some? then base.value.Keys else {})
    ensures forall k :: k in newData ==> r[k] == newData[k]
    ensures base.Some? ==> forall k :: k in base.value && k !in newData ==> r[k] == base.value[k]
  {
    base.GetOr(map[]) + newData
  }

  /** Merging the same data a second time changes nothing. */
  lemma MergeIdempotent(base: Option<Profile>, newData: Profile)
    ensures Merge(Some(Merge(base, newData)), newData) == Merge(base, newData)
  {
  }

  /** `{ ...docSnap.data(), uid }`: the stored fields, with the signed-in uid overriding any stored one. */
  function ProfileOf(fields: Profile, uid: string): (r: Profile)
    ensures r.Keys == fields.Keys + {"uid"}
    ensures r["uid"] == uid
    ensures forall k :: k in fields && k != "uid" ==> r[k] == fields[k]
  {
    fields["uid" := uid]
  }

  /** What the profile subscription reports. */
  datatype Snapshot =
    | Exists(fields: Profile)  // the document exists, with these fields
    | Missing                  // no document yet
    | Failed                   // the listener's error callback

  /** The document `updateUserData` writes (with merge) to users/<uid>. */
  datatype ProfileWrite = ProfileWrite(uid: string, fields: Profile)

  class AuthProvider {
    var user: Option<string>
    var userData: Option<Profile>
    var loading: bool
    /** The uid whose profile document is subscribed to (`unsubscribeDoc` is set). */
    var subscription: Option<string>
    /** The auth listener is registered (the effect has not been cleaned up). */
    var listening: bool

    /**
     * While the provider listens, the profile subscribed to is the signed-in
     * user's, and there is no profile without a signed-in user.
     */
    predicate Valid()
      reads this
    {
      (listening ==> subscription == user) &&
      (subscription.Some? ==> subscription == user) &&
      (userData.Some? ==> user.Some?)
    }

    /** The children are rendered only once loading is over. */
    predicate ShowsChildren()
      reads this
    {
      !loading
    }

    /** The initial state, with the auth listener registered. */
    constructor ()
      ensures Valid()
      ensures user == None && userData == None && loading && subscription == None && listening
    {
      user := None;
      userData := None;
      loading := true;
      subscription := None;
      listening := true;
    }

    /**
     * The auth-state callback. Any previous profile subscription is cancelled
     * first (`cancelled`). Signing in records the user and subscribes to their
     * profile, leaving `userData` and `loading` as they were; signing out clears
     * user and profile and ends loading.
     */
    method OnAuthChanged(authUser: Option<string>) returns (cancelled: Option<string>)
      requires Valid()
      modifies this
      ensures Valid()
      ensures listening == old(listening)
      ensures !listening ==>
        (cancelled == None && user == old(user) && userData == old(userData) &&
         loading == old(loading) && subscription == old(subscription))
      ensures listening ==> cancelled == old(subscription)
      ensures listening && authUser.Some? ==>
        user == authUser && subscription == authUser &&
        userData == old(userData) && loading == old(loading)
      ensures listening && authUser.None? ==>
        user == None && userData == None && !loading && subscription == None
    {
      if !listening {
        return None;
      }
      cancelled := subscription;
      subscription := None;
      if authUser.Some? {
        user := authUser;
        subscription := authUser;
      } else {
        user := None;
        userData := None;
        loading := false;
      }
    }

    /**
     * A report of the current profile subscription. An existing document becomes
     * the profile with the subscribed uid; a missing one clears the profile and
     * creates nothing; an error only ends loading. With no subscription nothing
     * is delivered.
     */
    method OnSnapshot(event: Snapshot)
      requires Valid()
      modifies this
      ensures Valid()
      ensures user == old(user) && subscription == old(subscription) && listening == old(listening)
      ensures old(subscription).None? ==> userData == old(userData) && loading == old(loading)
      ensures old(subscription).Some? ==> !loading
      ensures old(subscription).Some? && event.Exists? ==>
        userData == Some(ProfileOf(event.fields, old(subscription).value))
      ensures old(subscription).Some? && event.Missing? ==> userData == None
      ensures old(subscription).Some? && event.Failed? ==> userData == old(userData)
    {
      if subscription.None? {
        return;
      }
      match event
      case Exists(fields) =>
        userData := Some(ProfileOf(fields, subscription.value));
        loading := false;
      case Missing =>
        userData := None;
        loading := false;
      case Failed =>
        loading := false;
    }

    /**
     * `updateUserData(newData)`. Without a signed-in user nothing happens.
     * Otherwise the current profile merged with `newData` is written to the
     * user's document (`write`); `writeOk` is whether that write succeeded. On
     * success the local profile becomes the same merge; on failure the error is
     * rethrown (`threw`) and nothing changes.
     */
    method UpdateUserData(newData: Profile, writeOk: bool) returns (write: Option<ProfileWrite>, threw: bool)
      requires Valid()
      modifies this
      ensures Valid()
      ensures user == old(user) && loading == old(loading) &&
        subscription == old(subscription) && listening == old(listening)
      ensures old(user).None? ==> write == None && !threw && userData == old(userData)
      ensures old(user).Some? ==> write == Some(ProfileWrite(old(user).value, Merge(old(userData), newData)))
      ensures old(user).Some? ==> threw == !writeOk
      ensures old(user).Some? && writeOk ==> userData == Some(Merge(old(userData), newData))
      ensures threw ==> userData == old(userData)
    {
      if user.None? {
        return None, false;
      }
      write := Some(ProfileWrite(user.value, Merge(userData, newData)));
      if !writeOk {
        return write, true;
      }
      userData := Some(Merge(userData, newData));
      threw := false;
    }

    /**
     * `logout()`: asks the auth service to sign out and, when that succeeds,
     * navigates to "/login"; a failure is swallowed. The state changes only when
     * the auth service then reports the sign-out (`OnAuthChanged(None)`).
     */
    method Logout(signOutOk: bool) returns (navigateTo: Option<string>)
      ensures signOutOk ==> navigateTo == Some("/login")
      ensures !signOutOk ==> navigateTo == None
    {
      navigateTo := if signOutOk then Some("/login") else None;
    }

    /** The effect's cleanup: the auth listener and any profile subscription are cancelled. */
    method Dispose() returns (cancelled: Option<string>)
      requires Valid()
      modifies this
      ensures Valid()
      ensures !listening && subscription == None && cancelled == old(subscription)
      ensures user == old(user) && userData == old(userData) && loading == old(loading)
    {
      cancelled := subscription;
      subscription := None;
      listening := false;
    }
  }

  /** Anything that can happen to the provider, one callback or call at a time. */
  datatype Event =
    | AuthChanged(authUser: Option<string>)
    | Snap(snapshot: Snapshot)
    | Update(newData: Profile, writeOk: bool)
    | Logout(signOutOk: bool)
    | Cleanup

  /** Once loading is over it never starts again, whatever events follow and in whatever order. */
  method EventsNeverRestartLoading(p: AuthProvider, events: seq<Event>)
    requires p.Valid() && !p.loading
    modifies p
    ensures p.Valid() && p.ShowsChildren()
  {
    var i := 0;
    while i < |events|
      invariant 0 <= i <= |events|
      invariant p.Valid() && !p.loading
    {
      match events[i] {
        case AuthChanged(authUser) =>
          var _ := p.OnAuthChanged(authUser);
        case Snap(snapshot) =>
          p.OnSnapshot(snapshot);
        case Update(newData, writeOk) =>
          var _, _ := p.UpdateUserData(newData, writeOk);
        case Logout(signOutOk) =>
          var _ := p.Logout(signOutOk);
        case Cleanup =>
          var _ := p.Dispose();
      }
      i := i + 1;
    }
  }

  /**
   * The first sign-in shows the children only once the profile subscription has
   * reported: then the profile is the document's fields with the user's uid, or
   * none at all.
   */
  method FirstSignIn(uid: string, event: Snapshot) returns (p: AuthProvider)
    ensures p.Valid() && p.user == Some(uid) && p.ShowsChildren()
    ensures event.Exists? ==> p.userData == Some(ProfileOf(event.fields, uid))
    ensures !event.Exists? ==> p.userData == None
  {
    p := new AuthProvider();
    var _ := p.OnAuthChanged(Some(uid));
    assert !p.ShowsChildren();
    p.OnSnapshot(event);
  }

  /**
   * Signing in as another user keeps the previous user's profile until the new
   * subscription reports: for that moment `userData` still carries the old uid.
   */
  method SwitchKeepsPreviousProfile(p: AuthProvider, other: string)
    requires p.Valid() && p.listening
    requires p.userData.Some?
    modifies p
    ensures p.user == Some(other) && p.userData == old(p.userData)
  {
    var _ := p.OnAuthChanged(Some(other));
  }
}
