/** Small value types shared by the modules of the MoodMate model. */
module Common {

  /** A value that may be missing: JavaScript's `null`/`undefined` for one field. */
  datatype Option<+T> = None | Some(value: T)

  /** The four moods an entry can carry, as the emoji strings the app stores. */
  const Happy: string := "😊"
  const Sad: string := "😢"
  const Angry: string := "😡"
  const Calm: string := "😌"

  /** The opaque identifier of a signed-in account (`User.uid`). */
  type Uid = string

  /**
   * The `role` field of a document in the `users` collection. Documents
   * are read untyped, so the field may be missing or hold any string.
   */
  datatype RoleField = Absent | Stored(name: string)

  /**
   * How the `getDoc` read of a signed-in user's `users` document settles:
   * the document does not exist, it exists with this role field, or the
   * read rejects (offline, permission denied).
   */
  datatype Lookup = Missing | Found(field: RoleField) | Failed

  /**
   * A notification's handler runs to its `setLoading(false)`: always when
   * nobody is signed in, and otherwise unless the document read rejects,
   * which ends the handler with an unhandled rejection.
   */
  predicate Settles(u: Option<Uid>, lookup: Lookup)
  {
    u.None? || !lookup.Failed?
  }
}
