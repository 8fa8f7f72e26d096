/** Values shared by the screen model: nullable slots, the outcome of an awaited
    device call, permission answers and positions. */
module Values {

  /** A slot that JavaScript holds as `null` or a value. */
  datatype Option<+T> = None | Some(value: T)

  /** What an awaited device call did: resolved with a value, or rejected (threw). */
  datatype Call<+T> = Resolved(value: T) | Rejected

  /** The `status` field of a permission answer: "granted" or anything else. */
  datatype PermissionStatus = Granted | Denied

  /** The `coords` of a position reported by the location provider. */
  datatype Position = Position(latitude: real, longitude: real)

  /** A reference to an image file. */
  type Uri = string

  /** JavaScript truthiness of a nullable string: `null` and "" are both falsy. */
  predicate Truthy(u: Option<string>) {
    u.Some? && u.value != ""
  }
}
