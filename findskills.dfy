/**
 * The directory page (`src/pages/findskills.jsx`): loading the registered
 * users, the search filter over them, and how many portfolio links a card
 * shows.
 */
module FindSkills {
  import opened Wrappers
  import opened Api
  import opened Js
  import opened Seqs
  import Auth

  /**
   * `user.<field>?.toLowerCase().includes(searchTerm.toLowerCase())`: the
   * query is lower-cased but not trimmed, and a missing field never matches.
   */
  function FieldMatches(field: Option<string>, query: string): (r: bool)
    ensures r <==> field.Some? && exists i :: OccursAt(Lower(field.value), Lower(query), i)
    ensures r ==> field.Some? && |query| <= |field.value|
    ensures query == "" ==> (r <==> field.Some?)
  {
    field.Some? &&
    (assert query == "" ==> OccursAt(Lower(field.value), Lower(query), 0);
     Includes(Lower(field.value), Lower(query)))
  }

  /**
   * A user is kept when its name, skills or college matches the query; the
   * empty query matches every user with at least one of those fields.
   */
  function UserMatches(u: User, query: string): (r: bool)
    ensures u.name.None? && u.skills.None? && u.collegeName.None? ==> !r
    ensures query == "" ==> (r <==> u.name.Some? || u.skills.Some? || u.collegeName.Some?)
  {
    FieldMatches(u.name, query) || FieldMatches(u.skills, query) || FieldMatches(u.collegeName, query)
  }

  /**
   * The search effect: a query that is blank after trimming shows every
   * user; any other query keeps the matching users in their original order.
   */
  function Search(users: seq<User>, query: string): (r: seq<User>)
    ensures IsBlank(query) ==> r == users
    ensures |r| <= |users|
    ensures !IsBlank(query) ==> forall i :: 0 <= i < |r| ==> UserMatches(r[i], query) && r[i] in users
  {
    if IsBlank(query) then users else Filter(u => UserMatches(u, query), users)
  }

  /** Every sequence is a subsequence of itself. */
  lemma {:induction false} SubsequenceReflexive<T>(s: seq<T>)
    ensures IsSubsequence(s, s)
  {
    if s != [] {
      SubsequenceReflexive(s[1..]);
    }
  }

  /** The search result is always the user list with some users left out, in the original order. */
  lemma SearchIsSubsequence(users: seq<User>, query: string)
    ensures IsSubsequence(Search(users, query), users)
  {
    if IsBlank(query) {
      SubsequenceReflexive(users);
    } else {
      FilterIsSubsequence(u => UserMatches(u, query), users);
    }
  }

  /**
   * For a non-blank query, a user appears in the result exactly as often as
   * in the list when it matches, and not at all otherwise.
   */
  lemma SearchKeepsExactlyMatches(users: seq<User>, query: string, u: User)
    requires !IsBlank(query)
    ensures multiset(Search(users, query))[u] == if UserMatches(u, query) then multiset(users)[u] else 0
  {
    FilterCount(v => UserMatches(v, query), users, u);
  }

  /** A non-blank query that every user matches leaves the list as it is. */
  lemma SearchAllMatch(users: seq<User>, query: string)
    requires forall i :: 0 <= i < |users| ==> UserMatches(users[i], query)
    ensures Search(users, query) == users
  {
    if !IsBlank(query) {
      FilterAll(u => UserMatches(u, query), users);
    }
  }

  /**
   * The query is trimmed only for the blank test: `"react"` finds a user
   * whose skills are `"React"`, but `" react"` does not, because the
   * leading space must occur in the field.
   */
  lemma QueryIsNotTrimmedForMatching()
    ensures var u := User(None, None, None, None, Some("React"), None, None, None);
            Search([u], "react") == [u] && Search([u], " react") == []
  {
    var u := User(None, None, None, None, Some("React"), None, None, None);
    ReactQueries(u);
    assert Filter(v => UserMatches(v, "react"), [u]) == [u];
    assert Filter(v => UserMatches(v, " react"), [u]) == [];
  }

  /** Of the example's two queries only the unpadded one matches the skills `"React"`. */
  lemma ReactQueries(u: User)
    requires u.skills == Some("React") && u.name.None? && u.collegeName.None?
    ensures !IsBlank("react") && !IsBlank(" react")
    ensures UserMatches(u, "react") && !UserMatches(u, " react")
  {
    ReactIsNotBlank();
    ReactLowered();
    SameWordMatches(u, "react");
    LongerQueryMisses(u, " react");
  }

  /** `"React"` and `"react"` lower-case to the same word. */
  lemma ReactLowered()
    ensures Lower("React") == Lower("react") == "react"
  {
    LowerAppend("R", "eact");
    LowerUnchanged("eact");
    LowerUnchanged("react");
  }

  /** A query that lower-cases to a user's lower-cased skills finds that user. */
  lemma SameWordMatches(u: User, query: string)
    requires u.skills.Some? && Lower(u.skills.value) == Lower(query)
    ensures UserMatches(u, query)
  {
    assert OccursAt(Lower(query), Lower(query), 0);
  }

  /** A query longer than the only field a user has never finds that user. */
  lemma LongerQueryMisses(u: User, query: string)
    requires u.skills.Some? && u.name.None? && u.collegeName.None?
    requires |query| > |u.skills.value|
    ensures !UserMatches(u, query)
  {
  }

  /** Neither query of the example is blank. */
  lemma ReactIsNotBlank()
    ensures !IsBlank("react") && !IsBlank(" react")
  {
    TrimUnchanged("react");
    assert LeadingSpaces(" react") == 1;
    assert " react"[1..] == "react";
  }

  /** The directory page's state. */
  datatype Directory = Directory(
    users: seq<User>,
    filteredUsers: seq<User>,
    loading: bool,
    error: Option<string>)

  /** The page as first rendered: nothing loaded yet. */
  const Initial := Directory([], [], true, None)

  const SignInToViewMessage := "Please sign in to view skills"
  const FetchUsersFailedMessage := "Failed to fetch users"

  /**
   * `fetchUsers`: without a token the page asks nothing and shows the
   * sign-in message; otherwise it fetches the registered users once, and a
   * success sets both `users` and `filteredUsers` to the list received.
   * `loading` is false at the end of every path.
   */
  function LoadUsers(token: Option<string>, reply: Reply<seq<User>>): (r: (Directory, seq<Request>))
    ensures !r.0.loading
    ensures !Auth.IsLoggedIn(token) ==> r.0.error == Some(SignInToViewMessage) && r.1 == []
    ensures Auth.IsLoggedIn(token) ==> r.1 == [GetAllRegistered(token)]
    ensures r.0.error.None? <==> Auth.IsLoggedIn(token) && reply.Ok?
    ensures r.0.error.None? ==> r.0.users == r.0.filteredUsers == reply.body
    ensures r.0.error.Some? ==> r.0.users == r.0.filteredUsers == [] && r.0.error.value != ""
    ensures Auth.IsLoggedIn(token) && reply.NotOk? ==>
              r.0.error == Some(OrElse(reply.message, FetchUsersFailedMessage))
    ensures Auth.IsLoggedIn(token) && reply.Threw? ==> r.0.error == Some(ServerErrorMessage)
  {
    if !Auth.IsLoggedIn(token) then
      (Initial.(error := Some(SignInToViewMessage), loading := false), [])
    else
      var requests := [GetAllRegistered(token)];
      match reply
      case Ok(data) => (Initial.(users := data, filteredUsers := data, loading := false), requests)
      case NotOk(message) =>
        (Initial.(error := Some(OrElse(message, FetchUsersFailedMessage)), loading := false), requests)
      case Threw => (Initial.(error := Some(ServerErrorMessage), loading := false), requests)
  }

  /** The search effect, run whenever the query or the user list changes. */
  function ApplySearch(d: Directory, query: string): (r: Directory)
    ensures r.users == d.users && r.loading == d.loading && r.error == d.error
    ensures r.filteredUsers == Search(d.users, query)
    ensures IsSubsequence(r.filteredUsers, r.users)
  {
    SearchIsSubsequence(d.users, query);
    d.(filteredUsers := Search(d.users, query))
  }

  /**
   * After a successful load the search effect runs with the initial empty
   * query and leaves `filteredUsers` equal to `users`, so the count shown,
   * `filteredUsers.length`, is the number of users received.
   */
  lemma LoadedCountIsEveryUser(token: Option<string>, users: seq<User>)
    requires Auth.IsLoggedIn(token)
    ensures var d := ApplySearch(LoadUsers(token, Ok(users)).0, "");
            d.filteredUsers == d.users == users && |d.filteredUsers| == |users|
  {
    assert IsBlank("");
  }

  /**
   * The message shown when no card is listed. It tests the raw query, not
   * its trim, so a whitespace-only query lists everyone yet would speak of
   * "your search" if the list were empty.
   */
  function EmptyListMessage(query: string): (m: string)
    ensures query != "" ==> m == "No users found matching your search."
    ensures query == "" ==> m == "No registered users found."
  {
    if query != "" then "No users found matching your search." else "No registered users found."
  }

  /**
   * The empty-list message as the search leaves it: a blank query shows the
   * whole list, so the list is empty only when no user was loaded, yet a
   * query of spaces still makes the message speak of "your search".
   */
  lemma EmptyListAfterSearch(users: seq<User>, query: string)
    requires Search(users, query) == []
    ensures IsBlank(query) ==> users == []
    ensures query == "" ==> EmptyListMessage(query) == "No registered users found."
    ensures query != "" && IsBlank(query) ==>
              users == [] && EmptyListMessage(query) == "No users found matching your search."
  {
  }

  /** What a card shows of a user's portfolio links. */
  datatype LinkSection = Hidden | Shown(links: seq<string>, moreCount: Option<nat>)

  /**
   * The card's link section: hidden without links; otherwise the first two
   * links and, when there are more than two, a "+(n-2) more links" line.
   */
  function CardLinks(skillLinks: Option<seq<string>>): (r: LinkSection)
    ensures r.Hidden? <==> skillLinks.None? || skillLinks.value == []
    ensures r.Shown? ==> r.links <= skillLinks.value
    ensures r.Shown? ==> |r.links| == if |skillLinks.value| > 2 then 2 else |skillLinks.value|
    ensures r.Shown? ==> (r.moreCount.Some? <==> |skillLinks.value| > 2)
    ensures r.Shown? ==> |r.links| + (if r.moreCount.Some? then r.moreCount.value else 0) == |skillLinks.value|
    ensures r.Shown? && r.moreCount.Some? ==> r.moreCount.value == |skillLinks.value| - 2
  {
    match skillLinks
    case None => Hidden
    case Some(links) =>
      if links == [] then Hidden
      else if |links| > 2 then Shown(links[..2], Some(|links| - 2))
      else Shown(links, None)
  }
}
