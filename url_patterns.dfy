/**
 * The two URL patterns of the registration form, written as recognisers:
 *
 *   LinkedIn: `^https://(www\.)?linkedin\.com/in/[A-Za-z0-9_-]+/?$`, flag `i`
 *   GitHub:   `^https://(www\.)?github\.com/[A-Za-z0-9_-]+/?$`,      flag `i`
 *
 * Both have the shape scheme, optional `www.`, a fixed site part, a handle of
 * one or more handle characters, optional trailing slash. Under the `i` flag
 * an ASCII letter of the pattern matches either case and no other character
 * (a non-ASCII character never folds onto an ASCII one without the `u` flag),
 * and the handle class is closed under case change, so a string matches
 * exactly when its ASCII-lower-cased form matches the lower-case pattern.
 */
module UrlPatterns {
  import opened Js

  const Scheme := "https://"
  const Www := "www."
  const LinkedInSite := "linkedin.com/in/"
  const GitHubSite := "github.com/"

  /** `[A-Za-z0-9_-]` */
  predicate IsHandleChar(c: char) {
    'a' <= c <= 'z' || 'A' <= c <= 'Z' || '0' <= c <= '9' || c == '_' || c == '-'
  }

  /** `[A-Za-z0-9_-]+` */
  predicate IsHandle(h: string) {
    |h| >= 1 && forall i :: 0 <= i < |h| ==> IsHandleChar(h[i])
  }

  /** The string `https://` + optional `www.` + `site` + `handle` + optional `/`. */
  function Url(www: bool, site: string, handle: string, slash: bool): string {
    Scheme + ((if www then Www else "") + (site + (handle + (if slash then "/" else ""))))
  }

  /** The strings the pattern for a lower-case `site` matches, case-insensitively. */
  ghost predicate InPattern(s: string, site: string) {
    exists www: bool, handle: string, slash: bool ::
      IsHandle(handle) && Lower(s) == Url(www, site, handle, slash)
  }

  /** Drops a leading `www.`, if there is one. */
  function SkipWww(a: string): (r: string)
    ensures a == (if Www <= a then Www else "") + r
  {
    if Www <= a then a[|Www|..] else a
  }

  /** Whether the remainder after the site ends with the optional slash. */
  predicate EndsWithSlash(tail: string) {
    tail != [] && tail[|tail| - 1] == '/'
  }

  /** The remainder after the site, less its optional final slash. */
  function HandlePart(tail: string): (h: string)
    ensures tail == h + (if EndsWithSlash(tail) then "/" else "")
  {
    if EndsWithSlash(tail) then tail[..|tail| - 1] else tail
  }

  /**
   * Recognises the lower-case pattern in one left-to-right pass: the scheme,
   * an optional `www.`, the site, then a handle with an optional trailing
   * slash. Skipping `www.` whenever it is present is the only choice because
   * the site does not start with `w`.
   */
  function MatchesLowered(l: string, site: string): (r: bool)
    requires site != [] && site[0] != 'w'
  {
    Scheme <= l &&
    site <= SkipWww(l[|Scheme|..]) &&
    IsHandle(HandlePart(SkipWww(l[|Scheme|..])[|site|..]))
  }

  /** `pattern.test(s)` for the pattern with a lower-case `site` and the `i` flag. */
  function MatchesSiteUrl(s: string, site: string): (r: bool)
    requires site != [] && site[0] != 'w'
  {
    MatchesLowered(Lower(s), site)
  }

  /** Every string the recogniser accepts is in the pattern's language. */
  lemma MatchesLoweredSound(l: string, site: string)
    requires site != [] && site[0] != 'w'
    requires MatchesLowered(l, site)
    ensures exists www: bool, handle: string, slash: bool :: IsHandle(handle) && l == Url(www, site, handle, slash)
  {
    var afterScheme := l[|Scheme|..];
    var afterWww := SkipWww(afterScheme);
    var tail := afterWww[|site|..];
    var handle := HandlePart(tail);
    var www, slash := Www <= afterScheme, EndsWithSlash(tail);
    SplitAtPrefix(site, afterWww);
    SplitAtPrefix(Scheme, l);
    assert l == Scheme + ((if www then Www else "") + (site + (handle + (if slash then "/" else ""))));
    assert l == Url(www, site, handle, slash);
  }

  /** A string that starts with `p` is `p` followed by the rest. */
  lemma SplitAtPrefix(p: string, l: string)
    requires p <= l
    ensures l == p + l[|p|..]
  {
  }

  /** Every string of the pattern's language is accepted by the recogniser. */
  lemma MatchesLoweredComplete(l: string, site: string, www: bool, handle: string, slash: bool)
    requires site != [] && site[0] != 'w'
    requires IsHandle(handle) && l == Url(www, site, handle, slash)
    ensures MatchesLowered(l, site)
  {
    var tail := handle + (if slash then "/" else "");
    PrefixOf(Scheme, (if www then Www else "") + (site + tail));
    SkipWwwOf(www, site + tail);
    PrefixOf(site, tail);
    HandlePartOf(handle, slash);
  }

  /** `SkipWww` removes exactly the optional `www.` in front of text that does not start with `w`. */
  lemma SkipWwwOf(www: bool, rest: string)
    requires rest != [] && rest[0] != 'w'
    ensures SkipWww((if www then Www else "") + rest) == rest
  {
    if www {
      PrefixOf(Www, rest);
    } else {
      assert !(Www <= rest) by { assert Www[0] != rest[0]; }
    }
  }

  /** `HandlePart` removes exactly the optional slash after a handle. */
  lemma HandlePartOf(handle: string, slash: bool)
    requires IsHandle(handle)
    ensures HandlePart(handle + (if slash then "/" else "")) == handle
  {
    var tail := handle + (if slash then "/" else "");
    if slash {
      assert tail[..|tail| - 1] == handle;
    } else {
      assert tail[|tail| - 1] == handle[|handle| - 1];
    }
  }

  /** `p` is a prefix of `p + r`, and dropping it leaves `r`. */
  lemma PrefixOf(p: string, r: string)
    ensures p <= p + r && (p + r)[|p|..] == r
  {
  }

  /** The recogniser accepts exactly the strings the pattern denotes. */
  lemma MatchesSiteUrlSpec(s: string, site: string)
    requires site != [] && site[0] != 'w'
    ensures MatchesSiteUrl(s, site) <==> InPattern(s, site)
  {
    if MatchesSiteUrl(s, site) {
      MatchesLoweredSound(Lower(s), site);
    }
    if InPattern(s, site) {
      var www: bool, handle: string, slash: bool :|
        IsHandle(handle) && Lower(s) == Url(www, site, handle, slash);
      MatchesLoweredComplete(Lower(s), site, www, handle, slash);
    }
  }

  /**
   * `linkedinUrlPattern.test(v)`: an accepted string starts with `https://`
   * in some letter case and has a handle after the fixed part;
   * `IsLinkedInUrlSpec` gives the exact language.
   */
  function IsLinkedInUrl(s: string): (r: bool)
    ensures r ==> Scheme <= Lower(s) && |s| > |Scheme| + |LinkedInSite|
  {
    MatchesSiteUrl(s, LinkedInSite)
  }

  /**
   * `githubUrlPattern.test(v)`: an accepted string starts with `https://`
   * in some letter case and has a handle after the fixed part;
   * `IsGitHubUrlSpec` gives the exact language.
   */
  function IsGitHubUrl(s: string): (r: bool)
    ensures r ==> Scheme <= Lower(s) && |s| > |Scheme| + |GitHubSite|
  {
    MatchesSiteUrl(s, GitHubSite)
  }

  /** The LinkedIn recogniser accepts exactly the strings of its pattern. */
  lemma IsLinkedInUrlSpec(s: string)
    ensures IsLinkedInUrl(s) <==> InPattern(s, LinkedInSite)
  {
    MatchesSiteUrlSpec(s, LinkedInSite);
  }

  /** The GitHub recogniser accepts exactly the strings of its pattern. */
  lemma IsGitHubUrlSpec(s: string)
    ensures IsGitHubUrl(s) <==> InPattern(s, GitHubSite)
  {
    MatchesSiteUrlSpec(s, GitHubSite);
  }

  /** Input whose ninth character neither starts `www.` nor the site is refused. */
  lemma MatchesLoweredWrongSite(l: string, site: string)
    requires site != [] && site[0] != 'w'
    requires Scheme <= l && |l| > |Scheme| && l[|Scheme|] != 'w' && l[|Scheme|] != site[0]
    ensures !MatchesLowered(l, site)
  {
    assert l[|Scheme|..][0] == l[|Scheme|];
  }

  /** The fixed parts of both patterns are already in lower case. */
  lemma FixedPartsAreLower()
    ensures Lower(Scheme) == Scheme && Lower(Www) == Www
    ensures Lower(GitHubSite) == GitHubSite && Lower(LinkedInSite) == LinkedInSite
  {
    LowerUnchanged(Scheme);
    LowerUnchanged(Www);
    LowerUnchanged(GitHubSite);
    LowerUnchanged(LinkedInSite);
  }

  /**
   * A URL with a path below the handle, such as a repository URL
   * `https://github.com/<owner>/<repo>`, is refused in any letter case,
   * although the form's message speaks of repository URLs.
   */
  lemma RepositoryUrlRejected(s: string, www: bool, owner: string, repo: string)
    requires repo != []
    requires Lower(s) == Scheme + ((if www then Www else "") + (GitHubSite + (owner + ("/" + repo))))
    ensures !IsGitHubUrl(s)
  {
    var tail := owner + ("/" + repo);
    PrefixOf(Scheme, (if www then Www else "") + (GitHubSite + tail));
    SkipWwwOf(www, GitHubSite + tail);
    PrefixOf(GitHubSite, tail);
    var h := HandlePart(tail);
    assert |h| > |owner| && h[|owner|] == '/';
  }

  /** A URL whose host is neither `github.com` nor `www.github.com` is refused. */
  lemma ForeignHostRejected(s: string, rest: string)
    requires Lower(s) == Scheme + rest && rest != [] && rest[0] != 'w' && rest[0] != 'g'
    ensures !IsGitHubUrl(s)
  {
    PrefixOf(Scheme, rest);
    MatchesLoweredWrongSite(Lower(s), GitHubSite);
  }

  /** `https://github.com/me`, the form's own example, passes the GitHub test. */
  lemma GitHubProfileAccepted()
    ensures IsGitHubUrl("https://github.com/me")
  {
    ProfileUrlLowered();
    assert IsHandle("me");
    MatchesLoweredComplete(Lower("https://github.com/me"), GitHubSite, false, "me", false);
  }

  /** `https://github.com/me` is already lower case and is the GitHub pattern with handle `me`. */
  lemma ProfileUrlLowered()
    ensures Lower("https://github.com/me") == Url(false, GitHubSite, "me", false)
  {
    var good := "https://github.com/me";
    LiteralSplit(good, Scheme, GitHubSite, "me");
    FixedPartsAreLower();
    LowerAppend(Scheme, GitHubSite + "me");
    LowerAppend(GitHubSite, "me");
    LowerUnchanged("me");
  }

  /** `https://example.com/me` fails the GitHub test. */
  lemma ExampleHostRejected()
    ensures !IsGitHubUrl("https://example.com/me")
  {
    var bad := "https://example.com/me";
    LiteralSplit(bad, Scheme, "example.com/", "me");
    FixedPartsAreLower();
    LowerAppend(Scheme, "example.com/me");
    ForeignHostRejected(bad, Lower("example.com/me"));
  }

  /** Splits a literal into three parts. */
  lemma LiteralSplit(s: string, a: string, b: string, c: string)
    requires s == a + b + c
    ensures s == a + (b + c)
  {
  }
}
