/**
 * The sign-up form (`src/pages/Signup.jsx`): a free-form record of the
 * inputs keyed by element id, the required-fields guard that runs before
 * any request, and what the reply does to the page.
 */
module Signup {
  import opened Wrappers
  import opened Api
  import opened Js

  const RequiredMessage := "All details are required"
  const SignupFailedMessage := "Signup failed"

  /** `{...formData, [id]: value}`: sets one key and keeps every other. */
  function HandleChange(form: map<string, string>, id: string, value: string): (r: map<string, string>)
    ensures id in r && r[id] == value
    ensures r.Keys == form.Keys + {id}
    ensures forall k :: k in form && k != id ==> r[k] == form[k]
  {
    form[id := value]
  }

  /** The inputs the guard requires. */
  const RequiredKeys: set<string> := {"username", "email", "password"}

  /** `!formData[key]`: the key was never set, or holds the empty string. No trimming. */
  function Missing(form: map<string, string>, key: string): (r: bool)
    ensures r <==> !Js.Truthy(Js.OfString(if key in form then Some(form[key]) else None))
  {
    key !in form || form[key] == ""
  }

  /** The guard of `handleSubmit`: username, email and password are all present and non-empty. */
  function HasAllDetails(form: map<string, string>): (r: bool)
    ensures r <==> forall key :: key in RequiredKeys ==> key in form && form[key] != ""
  {
    !Missing(form, "username") && !Missing(form, "email") && !Missing(form, "password")
  }

  /**
   * Values made only of spaces pass the guard, since nothing is trimmed.
   * This is a fact about the guard: the browser strips white space from the
   * email input before `handleSubmit` sees it.
   */
  lemma WhitespaceDetailsPass()
    ensures HasAllDetails(map["username" := " ", "email" := " ", "password" := " "])
    ensures !HasAllDetails(map["username" := "u", "email" := "e"])
  {
  }

  /** Filling the three inputs in any order, each with a non-empty value, satisfies the guard. */
  lemma FilledFormPasses(form: map<string, string>, u: string, e: string, p: string)
    requires u != "" && e != "" && p != ""
    ensures HasAllDetails(HandleChange(HandleChange(HandleChange(form, "username", u), "email", e), "password", p))
  {
    var f1 := HandleChange(form, "username", u);
    var f2 := HandleChange(f1, "email", e);
    assert f2["username"] == u;
  }

  /** The sign-up page: the form record and the error shown. */
  class SignupPage {
    var form: map<string, string>
    var error: Option<string>

    constructor ()
      ensures form == map[] && error == None
    {
      form := map[];
      error := None;
    }

    /** An input's change event. */
    method Change(id: string, value: string)
      modifies this
      ensures form == HandleChange(old(form), id, value)
      ensures error == old(error)
    {
      form := HandleChange(form, id, value);
    }

    /**
     * `handleSubmit`: a missing detail sets the required message and asks
     * nothing; otherwise the previous error is cleared, the form is posted
     * once, and an ok reply moves to the sign-in page.
     */
    method HandleSubmit(reply: Reply<()>) returns (requests: seq<Request>, nav: Option<string>)
      modifies this
      ensures form == old(form)
      ensures !HasAllDetails(form) ==> error == Some(RequiredMessage) && requests == [] && nav == None
      ensures HasAllDetails(form) ==> requests == [PostSignup(form)]
      ensures HasAllDetails(form) && reply.Ok? ==> error == None && nav == Some(SignInRoute)
      ensures HasAllDetails(form) && reply.NotOk? ==>
                error == Some(OrElse(reply.message, SignupFailedMessage)) && nav == None
      ensures HasAllDetails(form) && reply.Threw? ==> error == Some(ServerErrorMessage) && nav == None
    {
      if !HasAllDetails(form) {
        error := Some(RequiredMessage);
        return [], None;
      }
      error := None;
      requests := [PostSignup(form)];
      nav := None;
      match reply {
        case Ok(_) =>
          nav := Some(SignInRoute);
        case NotOk(message) =>
          error := Some(OrElse(message, SignupFailedMessage));
        case Threw =>
          error := Some(ServerErrorMessage);
      }
    }
  }
}
