/**
 * The session slice: the signed-in user's record held in memory and mirrored
 * in one browser-storage slot under the key `userInfo`. The slot is a field
 * of the session: absent, or holding the serialised value. Serialisation
 * is taken to round-trip, so the slot holds the value itself.
 */
module AuthSlice {
  import opened Common

  /** A JSON value as the record's fields may hold it (numbers as integers). */
  datatype Value =
    | Null
    | Bool(b: bool)
    | Num(n: int)
    | Str(s: string)
    | List(items: seq<Value>)
    | Obj(fields: map<string, Value>)

  /** The user's record: field name to value. */
  type UserInfo = map<string, Value>

  /** The storage slot: `None` when the key is absent, else the stored value, which may
      itself be `null` (`Some(None)`). */
  type Slot = Option<Option<UserInfo>>

  /** What `setItem('userInfo', JSON.stringify(u))` leaves in the slot: the key is present. */
  function Persist(u: Option<UserInfo>): (s: Slot)
    ensures s.Some?
  {
    Some(u)
  }

  /** The initial `userInfo`: the parsed stored value when the key is present, else null.
      Every result is restored either from a value that was persisted or from an
      absent key. */
  function Restore(slot: Slot): (r: Option<UserInfo>)
    ensures slot == Persist(r) || (slot.None? && r.None?)
  {
    match slot
    case None => None
    case Some(v) => v
  }

  /** Reading a persisted value back as on startup gives it again, `null` included. */
  lemma RestorePersist(u: Option<UserInfo>)
    ensures Restore(Persist(u)) == u
  {
  }

  /** `{...current, ...patch}`: the patch's fields win, every other field is kept. */
  function Merge(current: UserInfo, patch: UserInfo): (r: UserInfo)
    ensures r.Keys == current.Keys + patch.Keys
    ensures forall k :: k in patch ==> r[k] == patch[k]
    ensures forall k :: k in current && k !in patch ==> r[k] == current[k]
  {
    current + patch
  }

  /** An empty patch changes nothing; applying the same patch twice is applying it
      once; two patches in a row are their own merge applied once. */
  lemma MergeLaws(current: UserInfo, p: UserInfo, q: UserInfo)
    ensures Merge(current, map[]) == current
    ensures Merge(Merge(current, p), p) == Merge(current, p)
    ensures Merge(Merge(current, p), q) == Merge(current, Merge(p, q))
  {
  }

  /** The slice's state: the in-memory record and the storage slot. */
  class Session {
    var userInfo: Option<UserInfo>
    var storage: Slot

    /** Memory and storage agree: restoring from the slot gives the current record. */
    ghost predicate Valid()
      reads this
    {
      Restore(storage) == userInfo
    }

    /** `initialState`, read from the slot as the program finds it. */
    constructor (stored: Slot)
      ensures storage == stored && userInfo == Restore(stored)
      ensures Valid()
    {
      storage := stored;
      userInfo := Restore(stored);
    }

    /** `getCredentials`: the payload becomes the record and is written to the slot. */
    method GetCredentials(payload: Option<UserInfo>)
      modifies this
      ensures userInfo == payload && storage == Persist(payload)
      ensures Valid()
    {
      userInfo := payload;
      storage := Persist(payload);
    }

    /** `logOut`: no record, and the key is removed. */
    method LogOut()
      modifies this
      ensures userInfo.None? && storage.None?
      ensures Valid()
    {
      userInfo := None;
      storage := None;
    }

    /** `updateUserInfo`: with a session, the patch is merged into the record and the
        result is written to the slot; without one, nothing changes. */
    method UpdateUserInfo(patch: UserInfo)
      modifies this
      ensures old(userInfo).None? ==> userInfo == old(userInfo) && storage == old(storage)
      ensures old(userInfo).Some? ==>
        userInfo == Some(Merge(old(userInfo).value, patch)) && storage == Persist(userInfo)
      ensures old(Valid()) ==> Valid()
    {
      if userInfo.Some? {
        var updated := Merge(userInfo.value, patch);
        userInfo := Some(updated);
        storage := Persist(userInfo);
      }
    }
  }

  /** A reload after sign-in restores exactly the payload, `null` included. */
  method ReloadAfterSignIn(stored: Slot, payload: Option<UserInfo>) returns (restored: Option<UserInfo>)
    ensures restored == payload
  {
    var session := new Session(stored);
    session.GetCredentials(payload);
    var reloaded := new Session(session.storage);
    restored := reloaded.userInfo;
  }

  /** Signing out twice leaves the same state as signing out once: no record, no key. */
  method SignOutTwice(stored: Slot) returns (once: (Option<UserInfo>, Slot), twice: (Option<UserInfo>, Slot))
    ensures once == twice == (None, None)
  {
    var session := new Session(stored);
    session.LogOut();
    once := (session.userInfo, session.storage);
    session.LogOut();
    twice := (session.userInfo, session.storage);
  }

  /** An update followed by a reload restores the merged record when a session was
      stored, and nothing when none was; an empty patch restores the stored record. */
  method ReloadAfterUpdate(stored: Slot, patch: UserInfo) returns (restored: Option<UserInfo>)
    ensures Restore(stored).None? ==> restored.None?
    ensures Restore(stored).Some? ==> restored == Some(Merge(Restore(stored).value, patch))
    ensures patch == map[] ==> restored == Restore(stored)
  {
    var session := new Session(stored);
    session.UpdateUserInfo(patch);
    var reloaded := new Session(session.storage);
    restored := reloaded.userInfo;
    if Restore(stored).Some? {
      MergeLaws(Restore(stored).value, patch, patch);
    }
  }
}
