/**
 * The session accessor (`src/utils/auth.js`): the single token the browser
 * keeps under the key `token`, the predicates derived from it, and the
 * registration check that asks the server for the signed-in user's profile.
 */
module Auth {
  import opened Wrappers
  import opened Api
  import Js

  /**
   * The token store. The browser keeps one string under one key; `None`
   * stands for a missing key.
   */
  class Session {
    var token: Option<string>

    constructor (stored: Option<string>)
      ensures token == stored
    {
      token := stored;
    }

    /** `logout`: removes the token; removing a missing key changes nothing. */
    method Logout()
      modifies this
      ensures token == None
      ensures old(token) == None ==> token == old(token)
      ensures !IsLoggedIn(token) && !IsTokenValid(token)
      ensures GetRegisterRoute(token) == SignUpRoute
    {
      token := None;
    }

    /** What a successful sign-in does to the store: it keeps the token the server returned. */
    method SignIn(issued: string)
      modifies this
      ensures token == Some(issued)
      ensures IsLoggedIn(token) <==> issued != ""
    {
      token := Some(issued);
    }
  }

  /** `isLoggedIn`: `!!token`, so an empty stored string counts as signed out. */
  function IsLoggedIn(token: Option<string>): (r: bool)
    ensures r <==> Js.Truthy(Js.OfString(token))
  {
    token.Some? && token.value != ""
  }

  /** `getRegisterRoute`: the directory for a signed-in visitor, the sign-up page otherwise. */
  function GetRegisterRoute(token: Option<string>): (route: string)
    ensures route == FindSkillsRoute <==> IsLoggedIn(token)
    ensures route == SignUpRoute <==> !IsLoggedIn(token)
  {
    if IsLoggedIn(token) then FindSkillsRoute else SignUpRoute
  }

  /**
   * `isTokenValid`: false without a token, otherwise whether `token.length`,
   * counted in UTF-16 code units, exceeds ten.
   */
  function IsTokenValid(token: Option<string>): (valid: bool)
    ensures valid ==> IsLoggedIn(token)
    ensures token.Some? ==> (valid <==> Js.Utf16Length(token.value) > 10)
    ensures token.Some? && |token.value| > 10 ==> valid
    ensures token.Some? && |token.value| <= 5 ==> !valid
    ensures token.None? ==> !valid
  {
    if !IsLoggedIn(token) then false else Js.Utf16Length(token.value) > 10
  }

  /** A profile the client counts as complete: name, skills and college non-empty, and flagged registered. */
  predicate IsComplete(u: User) {
    u.name.Some? && u.name.value != "" &&
    u.skills.Some? && u.skills.value != "" &&
    u.collegeName.Some? && u.collegeName.value != "" &&
    u.isRegistered == Some(true)
  }

  /**
   * `data.name && data.skills && data.collegeName && data.isRegistered`:
   * the value of the `&&` chain, which is one of the four fields and not
   * necessarily a boolean.
   */
  function CompletedProfile(u: User): (v: Js.Value)
    ensures Js.Truthy(v) <==> IsComplete(u)
    ensures v == Js.OfString(u.name) || v == Js.OfString(u.skills) ||
            v == Js.OfString(u.collegeName) || v == Js.OfBool(u.isRegistered)
  {
    Js.And(Js.And(Js.And(Js.OfString(u.name), Js.OfString(u.skills)), Js.OfString(u.collegeName)),
           Js.OfBool(u.isRegistered))
  }

  /** What `checkUserRegistration` resolves to, with the requests it issued. */
  datatype Registration = Registration(value: Js.Value, requests: seq<Request>)

  /**
   * `checkUserRegistration`: without a token it resolves to `false` and asks
   * nothing; otherwise it fetches the full profile once, and a non-ok
   * response or an exception resolve to `false`.
   */
  function CheckUserRegistration(token: Option<string>, reply: Reply<User>): (r: Registration)
    ensures !IsLoggedIn(token) ==> r == Registration(Js.Bool(false), [])
    ensures IsLoggedIn(token) ==> r.requests == [GetProfile(token)]
    ensures !reply.Ok? ==> r.value == Js.Bool(false)
    ensures Js.Truthy(r.value) <==> IsLoggedIn(token) && reply.Ok? && IsComplete(reply.body)
    ensures IsLoggedIn(token) && reply.Ok? ==> r.value == CompletedProfile(reply.body)
  {
    if !IsLoggedIn(token) then Registration(Js.Bool(false), [])
    else
      match reply
      case NotOk(_) => Registration(Js.Bool(false), [GetProfile(token)])
      case Threw => Registration(Js.Bool(false), [GetProfile(token)])
      case Ok(data) => Registration(CompletedProfile(data), [GetProfile(token)])
  }
}
