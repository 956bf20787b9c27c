/**
 * The profile page (`src/pages/Profile.jsx`): the two-tier load of the
 * signed-in user's record, the choice of what to render, and deleting the
 * profile.
 */
module Profile {
  import opened Wrappers
  import opened Api
  import opened Js
  import Auth

  const NoTokenMessage := "No authentication token found"
  const FetchFailedMessage := "Failed to fetch user data"
  const DeleteFailedMessage := "Failed to delete profile"

  /** Where `fetchUserData` leaves the record and the error, with the requests it issued. */
  datatype Loaded = Loaded(userData: Option<User>, error: Option<string>, requests: seq<Request>)

  /**
   * `fetchUserData`: without a token it asks nothing; otherwise it asks for
   * the full profile and, only when that reply is not ok, for the basic
   * record. Every path ends with exactly one of the record and a non-empty
   * error message set.
   */
  function FetchUserData(token: Option<string>, full: Reply<User>, basic: Reply<User>): (r: Loaded)
    ensures r.userData.Some? <==> r.error.None?
    ensures r.error.Some? ==> r.error.value != ""
    ensures !Auth.IsLoggedIn(token) ==> r == Loaded(None, Some(NoTokenMessage), [])
    ensures Auth.IsLoggedIn(token) && !full.NotOk? ==> r.requests == [GetProfile(token)]
    ensures Auth.IsLoggedIn(token) && full.NotOk? ==> r.requests == [GetProfile(token), GetBasic(token)]
    ensures Auth.IsLoggedIn(token) && full.Ok? ==> r.userData == Some(full.body)
    ensures Auth.IsLoggedIn(token) && full.NotOk? && basic.Ok? ==> r.userData == Some(basic.body)
    ensures Auth.IsLoggedIn(token) && full.NotOk? && basic.NotOk? ==>
              r.error == Some(OrElse(basic.message, FetchFailedMessage))
    ensures Auth.IsLoggedIn(token) && (full.Threw? || (full.NotOk? && basic.Threw?)) ==>
              r.error == Some(ServerErrorMessage)
  {
    if !Auth.IsLoggedIn(token) then Loaded(None, Some(NoTokenMessage), [])
    else
      match full
      case Ok(data) => Loaded(Some(data), None, [GetProfile(token)])
      case Threw => Loaded(None, Some(ServerErrorMessage), [GetProfile(token)])
      case NotOk(_) =>
        var requests := [GetProfile(token), GetBasic(token)];
        match basic
        case Ok(basicData) => Loaded(Some(basicData), None, requests)
        case NotOk(message) => Loaded(None, Some(OrElse(message, FetchFailedMessage)), requests)
        case Threw => Loaded(None, Some(ServerErrorMessage), requests)
  }

  /**
   * The view the page renders. `Broken` stands for reading `isRegistered`
   * of a missing record, which would throw while rendering.
   */
  datatype View = LoadingView | ErrorView(message: string) | IncompleteView | FullView | Broken

  /**
   * The render branches in order: loading, then the error when there is no
   * record, then the incomplete profile when the record is not flagged
   * registered, then the full profile.
   */
  function ViewOf(loading: bool, userData: Option<User>, error: Option<string>): (v: View)
    ensures v == LoadingView <==> loading
    ensures v.ErrorView? <==> !loading && userData.None? && error.Some? && error.value != ""
    ensures v.ErrorView? ==> v.message == error.value
    ensures v == Broken <==> !loading && userData.None? && (error.None? || error.value == "")
    ensures v == FullView <==> !loading && userData.Some? && userData.value.isRegistered == Some(true)
    ensures v == IncompleteView <==> !loading && userData.Some? && userData.value.isRegistered != Some(true)
  {
    if loading then LoadingView
    else if error.Some? && error.value != "" && userData.None? then ErrorView(error.value)
    else if userData.None? then Broken
    else if !Truthy(OfBool(userData.value.isRegistered)) then IncompleteView
    else FullView
  }

  /**
   * After the load the page never renders from a missing record: it shows
   * the error exactly when the load failed, and the full profile exactly
   * when the record it got is flagged registered.
   */
  lemma ViewAfterFetch(token: Option<string>, full: Reply<User>, basic: Reply<User>)
    ensures var r := FetchUserData(token, full, basic);
            var v := ViewOf(false, r.userData, r.error);
            v != Broken && v != LoadingView &&
            (v.ErrorView? <==> r.error.Some?) &&
            (v.ErrorView? ==> v.message == r.error.value) &&
            (v == FullView <==> r.userData.Some? && r.userData.value.isRegistered == Some(true))
  {
  }

  /**
   * A failed delete sets `error` on a page that already holds a record, and
   * the render branches ignore an error while there is a record: the page
   * looks exactly as before.
   */
  lemma DeleteErrorIsNotRendered(u: User, before: Option<string>, message: string)
    ensures ViewOf(false, Some(u), Some(message)) == ViewOf(false, Some(u), before)
  {
  }

  /** The profile page's state. */
  class ProfilePage {
    var userData: Option<User>
    var loading: bool
    var error: Option<string>
    var showDeleteModal: bool
    var deleting: bool

    constructor ()
      ensures userData == None && loading && error == None && !showDeleteModal && !deleting
    {
      userData := None;
      loading := true;
      error := None;
      showDeleteModal := false;
      deleting := false;
    }

    /**
     * What the page renders in its current state: `ViewOf` read off the
     * page's own fields, so that the methods' contracts can speak of the
     * view while the lemmas about `ViewOf` stay free of the heap.
     */
    function Rendered(): (v: View)
      reads this
      ensures v == LoadingView <==> loading
      ensures v.ErrorView? <==> !loading && userData.None? && error.Some? && error.value != ""
      ensures v == FullView <==> !loading && userData.Some? && userData.value.isRegistered == Some(true)
      ensures v == Broken <==> !loading && userData.None? && (error.None? || error.value == "")
    {
      ViewOf(loading, userData, error)
    }

    /**
     * The mount effect. It runs once, on the page as constructed, and
     * leaves it in the state `FetchUserData` describes, no longer loading.
     */
    method LoadUserData(token: Option<string>, full: Reply<User>, basic: Reply<User>) returns (requests: seq<Request>)
      requires userData == None && loading && error == None
      modifies this
      ensures userData == FetchUserData(token, full, basic).userData
      ensures error == FetchUserData(token, full, basic).error
      ensures requests == FetchUserData(token, full, basic).requests
      ensures !loading && showDeleteModal == old(showDeleteModal) && deleting == old(deleting)
      ensures Rendered() != Broken
    {
      requests := [];
      if !Auth.IsLoggedIn(token) {
        error := Some(NoTokenMessage);
        loading := false;
        return;
      }
      requests := [GetProfile(token)];
      match full {
        case Ok(data) =>
          userData := Some(data);
          loading := false;
          return;
        case Threw =>
          error := Some(ServerErrorMessage);
        case NotOk(_) =>
          requests := requests + [GetBasic(token)];
          match basic {
            case Ok(basicData) =>
              userData := Some(basicData);
            case NotOk(message) =>
              error := Some(OrElse(message, FetchFailedMessage));
            case Threw =>
              error := Some(ServerErrorMessage);
          }
      }
      loading := false;
    }

    /** The "Delete Profile" button opens the confirmation. */
    method OpenDeleteModal()
      modifies this
      ensures showDeleteModal
      ensures userData == old(userData) && loading == old(loading) && error == old(error) && deleting == old(deleting)
    {
      showDeleteModal := true;
    }

    /** The confirmation's "Cancel" button closes it. */
    method CloseDeleteModal()
      modifies this
      ensures !showDeleteModal
      ensures userData == old(userData) && loading == old(loading) && error == old(error) && deleting == old(deleting)
    {
      showDeleteModal := false;
    }

    /**
     * `handleDeleteProfile`: one DELETE request with whatever token is
     * stored. Only an ok reply clears the token and leaves for the home
     * page; a non-ok reply or an exception sets the error and keeps the
     * token. Every outcome ends with `deleting` false and the modal closed.
     */
    method HandleDeleteProfile(session: Auth.Session, reply: Reply<()>) returns (requests: seq<Request>, nav: Option<string>)
      modifies this, session
      ensures requests == [DeleteProfile(old(session.token))]
      ensures !deleting && !showDeleteModal
      ensures userData == old(userData) && loading == old(loading)
      ensures reply.Ok? ==> session.token == None && nav == Some(HomeRoute) && error == old(error)
      ensures reply.NotOk? ==>
                session.token == old(session.token) && nav == None &&
                error == Some(OrElse(reply.message, DeleteFailedMessage))
      ensures reply.Threw? ==> session.token == old(session.token) && nav == None && error == Some(ServerErrorMessage)
    {
      deleting := true;
      requests := [DeleteProfile(session.token)];
      nav := None;
      match reply {
        case Ok(_) =>
          session.Logout();
          nav := Some(HomeRoute);
        case NotOk(message) =>
          error := Some(OrElse(message, DeleteFailedMessage));
        case Threw =>
          error := Some(ServerErrorMessage);
      }
      deleting := false;
      showDeleteModal := false;
    }
  }
}
