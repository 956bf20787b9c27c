/**
 * The registration form (`src/pages/Register.jsx`): the form state with its
 * list of skill links edited in place, the three-stage validation that runs
 * before any request, and the submission.
 */
module Register {
  import opened Wrappers
  import opened Api
  import opened Js
  import opened Seqs
  import opened UrlPatterns
  import Auth

  const LinkedInMessage := "Please enter a valid LinkedIn profile URL (e.g., https://linkedin.com/in/your-profile)"
  const SkillLinkMessage := "Skill links must be valid GitHub profile or repository URLs."
  const MandatoryMessage := "At least one skill link is mandatory"
  const RegistrationFailedMessage := "Registration failed"

  /** The form starts with every text field empty and one blank skill link. */
  const EmptyForm := RegistrationForm("", "", "", "", [""])

  /** The text inputs, named by their element ids. */
  datatype Field = Name | CollegeName | Skills | Linkedin

  /** The value of a text input. */
  function Get(f: RegistrationForm, field: Field): string {
    match field
    case Name => f.name
    case CollegeName => f.collegeName
    case Skills => f.skills
    case Linkedin => f.linkedin
  }

  /**
   * The LinkedIn check: a value of white space only passes; any other value
   * passes exactly when its trim passes the LinkedIn test.
   */
  function LinkedInOk(value: string): (r: bool)
    ensures AllSpace(value) ==> r
    ensures !AllSpace(value) ==> (r <==> IsLinkedInUrl(Trim(value)))
  {
    IsBlank(value) || IsLinkedInUrl(Trim(value))
  }

  /**
   * One skill link passes when it is white space only; any other link
   * passes exactly when its trim passes the GitHub test.
   */
  function SkillLinkOk(link: string): (r: bool)
    ensures AllSpace(link) ==> r
    ensures !AllSpace(link) ==> (r <==> IsGitHubUrl(Trim(link)))
  {
    IsBlank(link) || IsGitHubUrl(Trim(link))
  }

  /** The LinkedIn check in terms of the pattern's language. */
  lemma LinkedInOkLanguage(value: string)
    ensures LinkedInOk(value) <==> AllSpace(value) || InPattern(Trim(value), LinkedInSite)
  {
    IsLinkedInUrlSpec(Trim(value));
  }

  /** The skill-link check in terms of the pattern's language. */
  lemma SkillLinkOkLanguage(link: string)
    ensures SkillLinkOk(link) <==> AllSpace(link) || InPattern(Trim(link), GitHubSite)
  {
    IsGitHubUrlSpec(Trim(link));
  }

  /** A skill link that counts as given: non-blank after trimming. */
  predicate NonBlank(link: string) {
    !IsBlank(link)
  }

  /** A skill link that rejects the submission. */
  predicate BadSkillLink(link: string) {
    !SkillLinkOk(link)
  }

  /**
   * `handleSubmit`'s checks, in order: the LinkedIn URL, then every skill
   * link, then that some skill link is non-blank. On success the payload is
   * the form with its skill links narrowed to the non-blank ones, untrimmed.
   */
  function Validate(f: RegistrationForm): (r: Result<RegistrationForm, string>)
    ensures r.Failure? ==> r.error in {LinkedInMessage, SkillLinkMessage, MandatoryMessage}
    ensures r.Success? ==> r.value == f.(skillLinks := r.value.skillLinks)
    ensures r.Success? ==> r.value.skillLinks != [] && IsSubsequence(r.value.skillLinks, f.skillLinks)
  {
    FilterIsSubsequence(NonBlank, f.skillLinks);
    if !IsBlank(f.linkedin) && !IsLinkedInUrl(Trim(f.linkedin)) then Failure(LinkedInMessage)
    else if |Filter(BadSkillLink, f.skillLinks)| > 0 then Failure(SkillLinkMessage)
    else
      var valid := Filter(NonBlank, f.skillLinks);
      if |valid| == 0 then Failure(MandatoryMessage)
      else Success(f.(skillLinks := valid))
  }

  /**
   * The checks run in order and the first failing one decides the message:
   * the LinkedIn URL, then any non-blank skill link that is not a GitHub
   * profile URL, then the absence of any non-blank skill link.
   */
  lemma ValidateFailures(f: RegistrationForm)
    ensures !LinkedInOk(f.linkedin) ==> Validate(f) == Failure(LinkedInMessage)
    ensures LinkedInOk(f.linkedin) && (exists i :: 0 <= i < |f.skillLinks| && !SkillLinkOk(f.skillLinks[i])) ==>
              Validate(f) == Failure(SkillLinkMessage)
    ensures LinkedInOk(f.linkedin) && (forall i :: 0 <= i < |f.skillLinks| ==> SkillLinkOk(f.skillLinks[i])) &&
            (forall i :: 0 <= i < |f.skillLinks| ==> IsBlank(f.skillLinks[i])) ==>
              Validate(f) == Failure(MandatoryMessage)
  {
    FilterEmpty(BadSkillLink, f.skillLinks);
    FilterEmpty(NonBlank, f.skillLinks);
  }

  /**
   * A form is accepted exactly when the LinkedIn check passes, every skill
   * link passes, and some skill link is non-blank; every link of the payload
   * is then non-blank and, trimmed, a GitHub profile URL. This is the one
   * statement callers use; its two halves are proved apart, in
   * `AcceptanceCondition` and `PayloadLinksPass`, to keep each proof small.
   */
  lemma ValidateAccepts(f: RegistrationForm)
    ensures Validate(f).Success? <==>
              LinkedInOk(f.linkedin) &&
              (forall i :: 0 <= i < |f.skillLinks| ==> SkillLinkOk(f.skillLinks[i])) &&
              (exists i :: 0 <= i < |f.skillLinks| && !IsBlank(f.skillLinks[i]))
    ensures Validate(f).Success? ==> forall i :: 0 <= i < |Validate(f).value.skillLinks| ==>
              !IsBlank(Validate(f).value.skillLinks[i]) && IsGitHubUrl(Trim(Validate(f).value.skillLinks[i]))
  {
    AcceptanceCondition(f);
    if Validate(f).Success? {
      PayloadLinksPass(f);
    }
  }

  /** The first half of `ValidateAccepts`: the acceptance condition alone. */
  lemma AcceptanceCondition(f: RegistrationForm)
    ensures Validate(f).Success? <==>
              LinkedInOk(f.linkedin) &&
              (forall i :: 0 <= i < |f.skillLinks| ==> SkillLinkOk(f.skillLinks[i])) &&
              (exists i :: 0 <= i < |f.skillLinks| && !IsBlank(f.skillLinks[i]))
  {
    FilterEmpty(BadSkillLink, f.skillLinks);
    FilterEmpty(NonBlank, f.skillLinks);
  }

  /** The second half of `ValidateAccepts`: every link of an accepted payload is non-blank and, trimmed, a GitHub profile URL. */
  lemma PayloadLinksPass(f: RegistrationForm)
    requires Validate(f).Success?
    ensures forall i :: 0 <= i < |Validate(f).value.skillLinks| ==>
              !IsBlank(Validate(f).value.skillLinks[i]) && IsGitHubUrl(Trim(Validate(f).value.skillLinks[i]))
  {
    FilterEmpty(BadSkillLink, f.skillLinks);
    ValidatePayload(f);
    NonBlankLinksPass(f.skillLinks);
  }

  /** When every link passes, each non-blank one is, trimmed, a GitHub profile URL. */
  lemma NonBlankLinksPass(links: seq<string>)
    requires forall i :: 0 <= i < |links| ==> SkillLinkOk(links[i])
    ensures forall i :: 0 <= i < |Filter(NonBlank, links)| ==>
              !IsBlank(Filter(NonBlank, links)[i]) && IsGitHubUrl(Trim(Filter(NonBlank, links)[i]))
  {
    var valid := Filter(NonBlank, links);
    forall i | 0 <= i < |valid|
      ensures !IsBlank(valid[i]) && IsGitHubUrl(Trim(valid[i]))
    {
      assert valid[i] in links;
      var j :| 0 <= j < |links| && links[j] == valid[i];
      assert SkillLinkOk(links[j]);
    }
  }

  /**
   * The payload carries every non-blank skill link of the form exactly as
   * often as the form does, and no blank one.
   */
  lemma PayloadKeepsNonBlankLinks(f: RegistrationForm, link: string)
    requires Validate(f).Success?
    ensures multiset(Validate(f).value.skillLinks)[link] ==
            if IsBlank(link) then 0 else multiset(f.skillLinks)[link]
  {
    FilterCount(NonBlank, f.skillLinks, link);
  }

  /** The untouched form, with its single blank link, is refused as having no skill link. */
  lemma EmptyFormRejected()
    ensures Validate(EmptyForm) == Failure(MandatoryMessage)
  {
    assert IsBlank("");
    assert EmptyForm.skillLinks[0] == "";
  }

  /** On success the payload's links are the form's non-blank links. */
  lemma ValidatePayload(f: RegistrationForm)
    requires Validate(f).Success?
    ensures Validate(f).value.skillLinks == Filter(NonBlank, f.skillLinks)
  {
  }

  /** A form with one link, non-blank and passing, and a passing LinkedIn field is sent as it is. */
  lemma SingleGoodLinkAccepted(f: RegistrationForm)
    requires LinkedInOk(f.linkedin) && |f.skillLinks| == 1
    requires !IsBlank(f.skillLinks[0]) && SkillLinkOk(f.skillLinks[0])
    ensures Validate(f) == Success(f)
  {
    FilterEmpty(BadSkillLink, f.skillLinks);
    FilterAll(NonBlank, f.skillLinks);
  }

  /** A form whose LinkedIn field passes and some link fails is refused with the skill-link message. */
  lemma SingleBadLinkRejected(f: RegistrationForm)
    requires LinkedInOk(f.linkedin) && |f.skillLinks| == 1 && !SkillLinkOk(f.skillLinks[0])
    ensures Validate(f) == Failure(SkillLinkMessage)
  {
    ValidateFailures(f);
  }

  /**
   * A form whose only link is a GitHub profile URL passes, and the link is sent as typed.
   * The link is a parameter fixed by `requires` rather than a literal in
   * the `ensures`, so that the verifier does not unroll `Validate`, `Trim`
   * and `Lower` on a literal argument.
   */
  lemma GitHubProfileLinkAccepted(link: string)
    requires link == "https://github.com/me"
    ensures Validate(EmptyForm.(skillLinks := [link])) == Success(EmptyForm.(skillLinks := [link]))
  {
    LinkAccepted(link);
    EmptyLinkedInPasses();
    SingleGoodLinkAccepted(EmptyForm.(skillLinks := [link]));
  }

  /** The form's initial, empty LinkedIn field passes its check. */
  lemma EmptyLinkedInPasses()
    ensures LinkedInOk(EmptyForm.linkedin)
  {
    assert IsBlank(EmptyForm.linkedin);
  }

  /**
   * `https://github.com/me` is a non-blank link that passes the skill-link check.
   * The link is a parameter fixed by `requires` rather than a literal in
   * the `ensures`, so that the verifier does not unroll `Validate`, `Trim`
   * and `Lower` on a literal argument.
   */
  lemma LinkAccepted(link: string)
    requires link == "https://github.com/me"
    ensures !IsBlank(link) && SkillLinkOk(link)
  {
    GitHubProfileAccepted();
    assert link[0] == 'h' && link[|link| - 1] == 'e';
    TrimUnchanged(link);
  }

  /**
   * A link on another host is refused with the skill-link message.
   * The link is a parameter fixed by `requires` rather than a literal in
   * the `ensures`, so that the verifier does not unroll `Validate`, `Trim`
   * and `Lower` on a literal argument.
   */
  lemma ForeignLinkRejected(link: string)
    requires link == "https://example.com/me"
    ensures Validate(EmptyForm.(skillLinks := [link])) == Failure(SkillLinkMessage)
  {
    LinkRejected(link);
    EmptyLinkedInPasses();
    SingleBadLinkRejected(EmptyForm.(skillLinks := [link]));
  }

  /**
   * `https://example.com/me` fails the skill-link check.
   * The link is a parameter fixed by `requires` rather than a literal in
   * the `ensures`, so that the verifier does not unroll `Validate`, `Trim`
   * and `Lower` on a literal argument.
   */
  lemma LinkRejected(link: string)
    requires link == "https://example.com/me"
    ensures !SkillLinkOk(link)
  {
    ExampleHostRejected();
    assert link[0] == 'h' && link[|link| - 1] == 'e';
    TrimUnchanged(link);
  }

  /** The registration page: the form, the error shown, and the two progress flags. */
  class RegisterPage {
    var form: RegistrationForm
    var error: Option<string>
    var loading: bool
    var checkingAuth: bool

    /** The form always holds at least one skill-link input. */
    ghost predicate Valid()
      reads this
    {
      |form.skillLinks| >= 1
    }

    constructor ()
      ensures Valid()
      ensures form == EmptyForm && |form.skillLinks| == 1
      ensures error == None && !loading && checkingAuth
    {
      form := EmptyForm;
      error := None;
      loading := false;
      checkingAuth := true;
    }

    /** The mount effect: without a token the page sends the visitor to sign in. */
    method CheckAuth(token: Option<string>) returns (nav: Option<string>)
      modifies this
      ensures !Auth.IsLoggedIn(token) ==> nav == Some(SignInRoute) && checkingAuth == old(checkingAuth)
      ensures Auth.IsLoggedIn(token) ==> nav == None && !checkingAuth
      ensures form == old(form) && error == old(error) && loading == old(loading)
    {
      if !Auth.IsLoggedIn(token) {
        return Some(SignInRoute);
      }
      checkingAuth := false;
      nav := None;
    }

    /** `handleChange`: sets the input named by `field` and keeps everything else. */
    method HandleChange(field: Field, value: string)
      requires Valid()
      modifies this
      ensures Valid()
      ensures Get(form, field) == value
      ensures forall other :: other != field ==> Get(form, other) == Get(old(form), other)
      ensures form.skillLinks == old(form.skillLinks)
      ensures error == old(error) && loading == old(loading) && checkingAuth == old(checkingAuth)
    {
      match field
      case Name => form := form.(name := value);
      case CollegeName => form := form.(collegeName := value);
      case Skills => form := form.(skills := value);
      case Linkedin => form := form.(linkedin := value);
    }

    /** `handleSkillLinkChange`: replaces entry `index` and nothing else. */
    method HandleSkillLinkChange(index: nat, value: string)
      requires Valid() && index < |form.skillLinks|
      modifies this
      ensures Valid()
      ensures |form.skillLinks| == |old(form.skillLinks)|
      ensures form.skillLinks[index] == value
      ensures forall j :: 0 <= j < |form.skillLinks| && j != index ==> form.skillLinks[j] == old(form.skillLinks)[j]
      ensures form == old(form).(skillLinks := form.skillLinks)
      ensures error == old(error) && loading == old(loading) && checkingAuth == old(checkingAuth)
    {
      form := form.(skillLinks := form.skillLinks[index := value]);
    }

    /** `addSkillLink`: appends one blank entry at the end. */
    method AddSkillLink()
      requires Valid()
      modifies this
      ensures Valid()
      ensures form.skillLinks == old(form.skillLinks) + [""]
      ensures form == old(form).(skillLinks := form.skillLinks)
      ensures error == old(error) && loading == old(loading) && checkingAuth == old(checkingAuth)
    {
      form := form.(skillLinks := form.skillLinks + [""]);
    }

    /** `removeSkillLink`: drops entry `index`, but never the last remaining one. */
    method RemoveSkillLink(index: nat)
      requires Valid()
      modifies this
      ensures Valid()
      ensures |old(form.skillLinks)| > 1 ==> form.skillLinks == RemoveAt(old(form.skillLinks), index)
      ensures |old(form.skillLinks)| == 1 ==> form.skillLinks == old(form.skillLinks)
      ensures form == old(form).(skillLinks := form.skillLinks)
      ensures error == old(error) && loading == old(loading) && checkingAuth == old(checkingAuth)
    {
      if |form.skillLinks| > 1 {
        form := form.(skillLinks := RemoveAt(form.skillLinks, index));
      }
    }

    /**
     * `handleSubmit`: a failed check sets its message and stops before any
     * request; otherwise the payload is posted once, and success moves to the
     * profile page. `loading` is false when it returns on every path.
     */
    method HandleSubmit(token: Option<string>, reply: Reply<()>) returns (requests: seq<Request>, nav: Option<string>)
      requires Valid()
      modifies this
      ensures Valid()
      ensures form == old(form) && checkingAuth == old(checkingAuth) && !loading
      ensures Validate(form).Failure? ==> error == Some(Validate(form).error) && requests == [] && nav == None
      ensures Validate(form).Success? ==> requests == [PostRegister(token, Validate(form).value)]
      ensures Validate(form).Success? && reply.Ok? ==> nav == Some(ProfileRoute) && error == None
      ensures Validate(form).Success? && reply.NotOk? ==>
                nav == None && error == Some(OrElse(reply.message, RegistrationFailedMessage))
      ensures Validate(form).Success? && reply.Threw? ==> nav == None && error == Some(ServerErrorMessage)
    {
      error := None;
      loading := true;
      var checked := Validate(form);
      if checked.Failure? {
        error := Some(checked.error);
        loading := false;
        return [], None;
      }
      requests := [PostRegister(token, checked.value)];
      nav := None;
      match reply {
        case Ok(_) =>
          nav := Some(ProfileRoute);
        case NotOk(message) =>
          error := Some(OrElse(message, RegistrationFailedMessage));
        case Threw =>
          error := Some(ServerErrorMessage);
      }
      loading := false;
    }
  }
}
