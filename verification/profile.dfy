/**
 * The user profile record held by the session store, and JavaScript's
 * truthiness rule for the optional strings in it.
 */
module Profile {
  import opened Wrappers

  /**
   * A user profile. Every known field is optional: `None` stands for a field
   * that is `undefined` or `null` in the JavaScript object.
   */
  datatype UserInfo = UserInfo(
    id: Option<int>,
    userAccount: Option<string>,
    userAvatar: Option<string>,
    userName: Option<string>)

  /** The profile with no field set (the JavaScript object `{}`). */
  const EmptyProfile: UserInfo := UserInfo(None, None, None, None)

  /**
   * JavaScript truthiness of a value that is a string, `undefined` or `null`:
   * absent values and the empty string are falsy, every other string is truthy.
   */
  predicate IsTruthy(s: Option<string>) {
    s.Some? && s.value != ""
  }
}
