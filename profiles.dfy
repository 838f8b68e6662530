/**
 * The user profiles that registration writes to the `users` collection and
 * the directory reads back, and the signed-in user the auth service reports.
 */
module Profiles {
  import opened Options

  /** The signed-in user, `auth.currentUser`; only its uid is used. */
  datatype AuthUser = AuthUser(uid: string)

  /** The fields of a `users/{id}` document; any of them may be missing. */
  datatype UserData = UserData(name: Option<string>, email: Option<string>, uid: Option<string>)

  /** A document of the `users` collection as a query returns it. */
  datatype UserDoc = UserDoc(id: string, data: UserData)

  /** `{ id: doc.id, ...doc.data() }`: the document id next to the document's fields. */
  datatype UserRecord = UserRecord(id: string, name: Option<string>, email: Option<string>, uid: Option<string>)

  function ToRecord(d: UserDoc): (u: UserRecord)
    ensures u.id == d.id
    ensures UserData(u.name, u.email, u.uid) == d.data
  {
    UserRecord(d.id, d.data.name, d.data.email, d.data.uid)
  }

  /** `auth.currentUser?.uid`: absent when nobody is signed in. */
  function UidOf(user: Option<AuthUser>): (uid: Option<string>)
    ensures uid.Some? <==> user.Some?
    ensures uid.Some? ==> uid.value == user.value.uid
  {
    if user.Some? then Some(user.value.uid) else None
  }
}
