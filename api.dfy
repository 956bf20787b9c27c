/**
 * The values exchanged with the remote API, as the client sees them: the
 * user record, the registration form, the requests the client issues and
 * the abstract outcome of each request. The transport itself (fetch, JSON
 * decoding, the base address) is not modelled.
 */
module Api {
  import opened Wrappers

  /**
   * A user record as decoded from `/api/user/profile`, `/api/user/basic`
   * or `/api/user/all-registered`. Every field the server may omit (or send
   * as `null`) is optional.
   */
  datatype User = User(
    username: Option<string>,
    email: Option<string>,
    name: Option<string>,
    collegeName: Option<string>,
    skills: Option<string>,
    linkedin: Option<string>,
    skillLinks: Option<seq<string>>,
    isRegistered: Option<bool>)

  /** The registration form's state; on submission it is also the request body. */
  datatype RegistrationForm = RegistrationForm(
    name: string,
    collegeName: string,
    skills: string,
    linkedin: string,
    skillLinks: seq<string>)

  /**
   * What one request came to: a successful response with its decoded body,
   * a non-ok response with the optional `message` of its error body, or an
   * exception. `Threw` means the request itself failed, or the handler
   * called `res.json()` on that reply and decoding failed. A reply whose
   * body the handler never reads is `Ok` or `NotOk` (with no message),
   * whatever the body holds.
   */
  datatype Reply<+T> = Ok(body: T) | NotOk(message: Option<string>) | Threw

  /** A request the client issued; `bearer` is the token read from storage, if any. */
  datatype Request =
    | GetProfile(bearer: Option<string>)
    | GetBasic(bearer: Option<string>)
    | GetAllRegistered(bearer: Option<string>)
    | DeleteProfile(bearer: Option<string>)
    | PostRegister(bearer: Option<string>, payload: RegistrationForm)
    | PostSignup(fields: map<string, string>)

  /** The client routes the rules navigate to. */
  const HomeRoute := "/"
  const SignInRoute := "/sign-in"
  const SignUpRoute := "/sign-up"
  const FindSkillsRoute := "/find-skills"
  const RegisterRoute := "/register"
  const ProfileRoute := "/profile"

  /** The message every page shows when a request throws. */
  const ServerErrorMessage := "Server error. Please try again later."
}
