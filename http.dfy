/**
 * The shape of a stored user and of an Express response as the handlers
 * leave it: a status, a JSON body and the cookies set or cleared on it.
 * The Mongoose schema itself (models/User.js) is not part of this model; the
 * record holds the fields the handlers read and write.
 */
module Http {
  import opened Wrappers

  /** A stored user document; `password` holds the bcrypt hash. */
  datatype UserRecord = UserRecord(
    id: string,
    fullName: string,
    email: string,
    password: string,
    bio: string,
    profilePic: Option<string>)

  /** A user document selected with `-password`: it has no password field. */
  datatype PublicUser = PublicUser(
    id: string,
    fullName: string,
    email: string,
    bio: string,
    profilePic: Option<string>)

  /** `.select("-password")` */
  function WithoutPassword(u: UserRecord): PublicUser
  {
    PublicUser(u.id, u.fullName, u.email, u.bio, u.profilePic)
  }

  /** The options object passed to `res.cookie` and `res.clearCookie`. */
  datatype CookieOptions = CookieOptions(httpOnly: bool, secure: bool, sameSite: string, maxAge: nat)

  datatype CookieEffect =
    | SetCookie(name: string, value: string, options: CookieOptions)
    | ClearCookie(name: string, options: CookieOptions)

  /** The JSON bodies the core sends. */
  datatype Body =
    | Failure(message: string)                      // { success: false, message }
    | Account(message: string, userData: UserRecord) // { success: true, userData, message }
    | Profile(user: PublicUser)                      // { success: true, user }
    | Done(message: string)                          // { success: true, message }

  datatype Response = Response(status: nat, body: Body, cookies: seq<CookieEffect>)

  /** The status `res.json` sends when no `res.status` came first. */
  const DefaultStatus: nat := 200
}
