/**
 * The home page (`src/pages/Home.jsx`): the registration state loaded on
 * mount and the rule behind the "Add skills" button.
 */
module Home {
  import opened Wrappers
  import opened Api
  import Js
  import Auth

  /** What a click on "Add skills" does: navigate, or show the "already added" notice. */
  datatype Decision = GoTo(route: string) | ShowAlreadyAdded

  /**
   * `handleAddSkillsClick`'s rule: the token is checked first, so a visitor
   * without one is sent to sign up whatever `isRegistered` holds; a
   * signed-in visitor is told the skills are already added when
   * `isRegistered` is truthy, and sent to the registration form otherwise.
   */
  function AddSkillsDecision(token: Option<string>, isRegistered: Js.Value): (d: Decision)
    ensures !Auth.IsLoggedIn(token) ==> d == GoTo(SignUpRoute)
    ensures Auth.IsLoggedIn(token) ==> (d == ShowAlreadyAdded <==> Js.Truthy(isRegistered))
    ensures Auth.IsLoggedIn(token) && !Js.Truthy(isRegistered) ==> d == GoTo(RegisterRoute)
  {
    if !Auth.IsLoggedIn(token) then GoTo(SignUpRoute)
    else if Js.Truthy(isRegistered) then ShowAlreadyAdded
    else GoTo(RegisterRoute)
  }

  /**
   * Once the registration check has settled (with the same token), the
   * button shows the notice exactly for a signed-in visitor whose fetched
   * profile is complete, and sends every other signed-in visitor to the
   * registration form.
   */
  lemma DecisionAfterCheck(token: Option<string>, reply: Reply<User>)
    requires Auth.IsLoggedIn(token)
    ensures var d := AddSkillsDecision(token, Auth.CheckUserRegistration(token, reply).value);
            d == (if reply.Ok? && Auth.IsComplete(reply.body) then ShowAlreadyAdded else GoTo(RegisterRoute))
  {
  }

  /**
   * Before the check settles `isRegistered` still holds its initial `false`,
   * so a click then sends even a registered visitor to the registration form.
   */
  lemma DecisionBeforeCheck(token: Option<string>)
    requires Auth.IsLoggedIn(token)
    ensures AddSkillsDecision(token, Js.Bool(false)) == GoTo(RegisterRoute)
  {
  }

  /** The hero link: the same target as every register link, `getRegisterRoute()`. */
  function HeroLinkTarget(token: Option<string>): (route: string)
    ensures route == Auth.GetRegisterRoute(token)
  {
    Auth.GetRegisterRoute(token)
  }

  /** The home page's state. */
  class HomePage {
    var isRegistered: Js.Value
    var loading: bool
    var showAlreadyAdded: bool

    constructor ()
      ensures isRegistered == Js.Bool(false) && loading && !showAlreadyAdded
    {
      isRegistered := Js.Bool(false);
      loading := true;
      showAlreadyAdded := false;
    }

    /** The mount effect: stores what `checkUserRegistration` resolved to and stops loading. */
    method CheckRegistration(token: Option<string>, reply: Reply<User>) returns (requests: seq<Request>)
      modifies this
      ensures isRegistered == Auth.CheckUserRegistration(token, reply).value
      ensures requests == Auth.CheckUserRegistration(token, reply).requests
      ensures !loading && showAlreadyAdded == old(showAlreadyAdded)
    {
      var registered := Auth.CheckUserRegistration(token, reply);
      isRegistered := registered.value;
      loading := false;
      requests := registered.requests;
    }

    /** `handleAddSkillsClick`, with the token read from storage at the time of the click. */
    method HandleAddSkillsClick(token: Option<string>) returns (nav: Option<string>)
      modifies this
      ensures isRegistered == old(isRegistered) && loading == old(loading)
      ensures AddSkillsDecision(token, isRegistered) == ShowAlreadyAdded ==> showAlreadyAdded && nav == None
      ensures AddSkillsDecision(token, isRegistered).GoTo? ==>
                nav == Some(AddSkillsDecision(token, isRegistered).route) &&
                showAlreadyAdded == old(showAlreadyAdded)
    {
      if !Auth.IsLoggedIn(token) {
        return Some(SignUpRoute);
      }
      if Js.Truthy(isRegistered) {
        showAlreadyAdded := true;
        nav := None;
      } else {
        nav := Some(RegisterRoute);
      }
    }
  }
}
