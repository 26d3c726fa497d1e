/** The signed-in user as the hooks read it from the auth store (interfaces/auth.ts). */
module Session {
  import opened Wrappers

  /** `User`: every part is a string. */
  datatype User = User(id: string, name: string, email: string)

  /** `user?.part ?? fallback`: the part whenever there is a user, even an empty one. */
  function Nullish(user: Option<User>, part: User -> string, fallback: string): (r: string)
    ensures user.None? ==> r == fallback
    ensures user.Some? ==> r == part(user.value)
  {
    if user.Some? then part(user.value) else fallback
  }

  /** `user?.part || fallback`: the part only when there is a user and the part is not empty. */
  function Falsy(user: Option<User>, part: User -> string, fallback: string): (r: string)
    ensures r == fallback || (user.Some? && r == part(user.value) && r != "")
    ensures user.Some? && part(user.value) != "" ==> r == part(user.value)
  {
    if user.Some? && part(user.value) != "" then part(user.value) else fallback
  }
}
