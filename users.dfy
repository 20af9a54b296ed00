/**
 * The account handlers of server/controllers/userController.js over a user
 * store keyed by email. bcrypt, token issue (`generateToken`, a `jwt.sign`
 * of `{userId}`) and the Cloudinary upload are collaborators given as
 * functions; the salt from `bcrypt.genSalt(10)` and the `_id` that
 * `User.create` assigns are given as values.
 */
module Users {
  import opened Wrappers
  import opened Js
  import opened Http
  import Auth

  /** `COOKIE_OPTIONS`, computed once from `process.env.NODE_ENV`. */
  function CookieOptionsFor(nodeEnv: Option<string>): (o: CookieOptions)
    ensures o.httpOnly
    ensures o.sameSite == "strict"
    ensures o.maxAge == 86_400_000
    ensures o.secure <==> nodeEnv == Some("production")
  {
    CookieOptions(true, nodeEnv == Some("production"), "strict", 24 * 60 * 60 * 1000)
  }

  /** The name of the session cookie. */
  const TokenCookie: string := "token"

  /** The cost factor passed to `bcrypt.genSalt`. */
  const SaltRounds: nat := 10

  /** `req.body` of a signup; `None` is a field that is absent or null. */
  datatype SignupForm = SignupForm(
    fullName: Option<string>,
    email: Option<string>,
    password: Option<string>,
    bio: Option<string>)

  datatype LoginForm = LoginForm(email: Option<string>, password: Option<string>)

  datatype ProfileForm = ProfileForm(profilePic: Option<string>, bio: Option<string>, fullName: Option<string>)

  /** The collaborator calls a handler makes, in order. */
  datatype Effect =
    | FindOne(email: string)
    | GenSalt(rounds: nat)
    | HashPassword(password: string, salt: string)
    | Create(email: string)
    | ComparePassword(password: string, hash: string)
    | IssueToken(userId: string)

  /** Line 18: every one of the four fields must be truthy. */
  predicate SignupComplete(f: SignupForm)
  {
    Truthy(f.fullName) && Truthy(f.email) && Truthy(f.password) && Truthy(f.bio)
  }

  /** Line 57. */
  predicate LoginComplete(f: LoginForm)
  {
    Truthy(f.email) && Truthy(f.password)
  }

  const MissingDetails: Response := Response(400, Failure("Missing details"), [])
  const AccountExists: Response := Response(DefaultStatus, Failure("Account already exists"), [])
  const MissingCredentials: Response := Response(400, Failure("Missing credentials"), [])
  const InvalidCredentials: Response := Response(DefaultStatus, Failure("Invalid credentials"), [])

  /** The document `User.create` stores for a complete signup form. */
  function NewRecord(f: SignupForm, id: string, hashed: string): UserRecord
    requires SignupComplete(f)
  {
    UserRecord(id, f.fullName.value, f.email.value, hashed, f.bio.value, None)
  }

  /** `checkAuth`: echoes the user the guard attached to the request. */
  function CheckAuth(user: PublicUser): Response
  {
    Response(DefaultStatus, Profile(user), [])
  }

  /** The `User` collection as the signup and login handlers see it, together
      with the cookie options fixed at module load. */
  class Accounts {
    var users: map<string, UserRecord>
    const cookieOptions: CookieOptions

    /** Every record is filed under its own email. */
    ghost predicate Valid()
      reads this
    {
      forall e :: e in users ==> users[e].email == e
    }

    /** The collection as it stands when the server starts (it persists
        across restarts), each record filed under its own email. */
    constructor (nodeEnv: Option<string>, stored: map<string, UserRecord>)
      requires forall e :: e in stored ==> stored[e].email == e
      ensures Valid()
      ensures users == stored
      ensures cookieOptions == CookieOptionsFor(nodeEnv)
    {
      users := stored;
      cookieOptions := CookieOptionsFor(nodeEnv);
    }

    /** `signup` (lines 14-50, without the 500 catch-all). */
    method Signup(form: SignupForm, salt: string, newId: string,
                  hash: (string, string) -> string, issue: string -> string)
      returns (res: Response, calls: seq<Effect>)
      requires Valid()
      modifies this
      ensures Valid()
      ensures !SignupComplete(form) ==> res == MissingDetails && calls == [] && users == old(users)
      ensures SignupComplete(form) && form.email.value in old(users) ==>
        res == AccountExists && calls == [FindOne(form.email.value)] && users == old(users)
      ensures SignupComplete(form) && form.email.value !in old(users) ==>
        var hashed := hash(form.password.value, salt);
        var rec := NewRecord(form, newId, hashed);
        && users == old(users)[form.email.value := rec]
        && res == Response(201, Account("Account created successfully", rec), [SetCookie(TokenCookie, issue(newId), cookieOptions)])
        && calls == [FindOne(form.email.value), GenSalt(SaltRounds), HashPassword(form.password.value, salt),
                     Create(form.email.value), IssueToken(newId)]
      ensures old(users).Keys <= users.Keys
      ensures |users| == |old(users)| + (if res.status == 201 then 1 else 0)
      ensures res.cookies != [] <==> res.status == 201
    {
      calls := [];
      if !Truthy(form.fullName) || !Truthy(form.email) || !Truthy(form.password) || !Truthy(form.bio) {
        return MissingDetails, calls;
      }
      var email := form.email.value;
      calls := calls + [FindOne(email)];
      if email in users {
        return AccountExists, calls;
      }
      calls := calls + [GenSalt(SaltRounds)];
      calls := calls + [HashPassword(form.password.value, salt)];
      var hashedPassword := hash(form.password.value, salt);
      var newUser := UserRecord(newId, form.fullName.value, email, hashedPassword, form.bio.value, None);
      calls := calls + [Create(email)];
      users := users[email := newUser];
      calls := calls + [IssueToken(newId)];
      var token := issue(newId);
      res := Response(201, Account("Account created successfully", newUser), [SetCookie(TokenCookie, token, cookieOptions)]);
    }

    /** `login` (lines 53-80, without the 500 catch-all). It has no modifies
        clause: the store cannot change. */
    method Login(form: LoginForm, compare: (string, string) -> bool, issue: string -> string)
      returns (res: Response, calls: seq<Effect>)
      requires Valid()
      ensures !LoginComplete(form) ==> res == MissingCredentials && calls == []
      ensures LoginComplete(form) && form.email.value !in users ==>
        res == InvalidCredentials && calls == [FindOne(form.email.value)]
      ensures LoginComplete(form) && form.email.value in users ==>
        var user := users[form.email.value];
        if compare(form.password.value, user.password) then
          && res == Response(DefaultStatus, Account("Login successful", user), [SetCookie(TokenCookie, issue(user.id), cookieOptions)])
          && calls == [FindOne(form.email.value), ComparePassword(form.password.value, user.password), IssueToken(user.id)]
        else
          && res == InvalidCredentials
          && calls == [FindOne(form.email.value), ComparePassword(form.password.value, user.password)]
      ensures res.cookies != [] <==> res.body.Account?
      ensures res.body.Account? ==> res.body.userData.email == form.email.value
    {
      calls := [];
      if !Truthy(form.email) || !Truthy(form.password) {
        return MissingCredentials, calls;
      }
      var email := form.email.value;
      calls := calls + [FindOne(email)];
      if email !in users {
        return InvalidCredentials, calls;
      }
      var user := users[email];
      calls := calls + [ComparePassword(form.password.value, user.password)];
      var isPasswordCorrect := compare(form.password.value, user.password);
      if !isPasswordCorrect {
        return InvalidCredentials, calls;
      }
      calls := calls + [IssueToken(user.id)];
      var token := issue(user.id);
      res := Response(DefaultStatus, Account("Login successful", user), [SetCookie(TokenCookie, token, cookieOptions)]);
    }

    /** `logout`: clears the session cookie with the options it was set with. */
    method Logout() returns (res: Response)
      ensures res.status == DefaultStatus && res.body == Done("Logged out successfully")
      ensures res.cookies == [ClearCookie(TokenCookie, cookieOptions)]
    {
      res := Response(DefaultStatus, Done("Logged out successfully"), [ClearCookie(TokenCookie, cookieOptions)]);
    }
  }

  /** Lines 93-98 of `updateProfile`: the update document, with `profilePic`
      added in place when one was supplied (its value is the uploaded
      image's `secure_url`). */
  method BuildUpdate(form: ProfileForm, upload: string -> string) returns (updateData: map<string, Option<string>>)
    ensures "bio" in updateData && updateData["bio"] == form.bio
    ensures "fullName" in updateData && updateData["fullName"] == form.fullName
    ensures "profilePic" in updateData <==> Truthy(form.profilePic)
    ensures "profilePic" in updateData ==> updateData["profilePic"] == Some(upload(form.profilePic.value))
    ensures "password" !in updateData
    ensures updateData.Keys <= {"bio", "fullName", "profilePic"}
  {
    updateData := map["bio" := form.bio, "fullName" := form.fullName];
    if Truthy(form.profilePic) {
      var secureUrl := upload(form.profilePic.value);
      updateData := updateData["profilePic" := Some(secureUrl)];
    }
  }

  /** The `/check` route: `protectRoute` followed by `checkAuth`. */
  method CheckRoute(req: Auth.Request, verify: string -> Auth.Verification, findById: Option<string> -> Auth.Lookup)
    returns (res: Response)
    ensures res.cookies == []
    ensures res.status == DefaultStatus <==>
      && Truthy(Auth.Candidate(req))
      && verify(Auth.Candidate(req).value).Decoded?
      && findById(verify(Auth.Candidate(req).value).userId).Found?
    ensures res.status == DefaultStatus ==>
      res.body == Profile(WithoutPassword(findById(verify(Auth.Candidate(req).value).userId).record))
    ensures res.status != DefaultStatus ==> res.status in {401, 404} && res.body.Failure?
    ensures !Truthy(Auth.Candidate(req)) ==> res == Response(401, Failure("Not authorized, token missing"), [])
    ensures Truthy(Auth.Candidate(req)) ==>
      match verify(Auth.Candidate(req).value)
      case VerifyError(msg) => res == Response(401, Failure(msg), [])
      case Decoded(uid) =>
        match findById(uid)
        case LookupError(msg) => res == Response(401, Failure(msg), [])
        case NotFound => res == Response(404, Failure("User not found"), [])
        case Found(_) => true
  {
    var out, _ := Auth.ProtectRoute(req, verify, findById);
    match out
    case Rejected(reason) =>
      res := Auth.Reply(reason);
    case Admitted(user) =>
      res := CheckAuth(user);
  }
}
