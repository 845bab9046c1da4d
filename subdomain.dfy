/** Which page the site renders: chosen by the host name on the deployed
    subdomains, and by the path on any other host. */
module Subdomain {
  import opened Wrappers
  import opened Strings

  datatype Site = Root | Presentes | Hospedagem

  datatype Page = HomePage | PresentesPage | HospedagemPage

  const PRESENTES_PREFIX: string := "presentes."
  const HOSPEDAGEM_PREFIX: string := "hospedagem."

  /** The hosts of the main site. */
  predicate IsRootHost(host: string) {
    host == "yoshaemark.com" || host == "www.yoshaemark.com"
  }

  /** The site a host name belongs to; `None` for development hosts and any
      host that is not one of the deployed names. */
  function GetSubdomain(host: string): (r: Option<Site>)
    ensures r == Some(Presentes) <==> StartsWith(host, PRESENTES_PREFIX)
    ensures r == Some(Hospedagem) <==> StartsWith(host, HOSPEDAGEM_PREFIX)
    ensures r == Some(Root) <==> IsRootHost(host)
  {
    HostTestsExclusive(host);
    if StartsWith(host, PRESENTES_PREFIX) then Some(Presentes)
    else if StartsWith(host, HOSPEDAGEM_PREFIX) then Some(Hospedagem)
    else if IsRootHost(host) then Some(Root)
    else None
  }

  /** The three tests never both hold, so their order does not matter. */
  lemma HostTestsExclusive(host: string)
    ensures !(StartsWith(host, PRESENTES_PREFIX) && StartsWith(host, HOSPEDAGEM_PREFIX))
    ensures IsRootHost(host) ==> !StartsWith(host, PRESENTES_PREFIX) && !StartsWith(host, HOSPEDAGEM_PREFIX)
  {
    if StartsWith(host, PRESENTES_PREFIX) {
      assert host[0] == host[..|PRESENTES_PREFIX|][0] == 'p';
    }
    if StartsWith(host, HOSPEDAGEM_PREFIX) {
      assert host[0] == host[..|HOSPEDAGEM_PREFIX|][0] == 'h';
    }
    if IsRootHost(host) {
      assert host[0] == 'y' || host[0] == 'w';
    }
  }

  /** Any host that is none of the deployed names has no site. */
  lemma OtherHostsHaveNoSite(host: string)
    requires !StartsWith(host, PRESENTES_PREFIX) && !StartsWith(host, HOSPEDAGEM_PREFIX)
    requires !IsRootHost(host)
    ensures GetSubdomain(host) == None
  {
  }

  /** Examples: a development host, and a `www.` in front of a subdomain. */
  lemma SubdomainExamples()
    ensures GetSubdomain("presentes.yoshaemark.com") == Some(Presentes)
    ensures GetSubdomain("hospedagem.yoshaemark.com") == Some(Hospedagem)
    ensures GetSubdomain("www.yoshaemark.com") == Some(Root)
    ensures GetSubdomain("localhost") == None
    ensures GetSubdomain("www.presentes.yoshaemark.com") == None
  {
    assert !StartsWith("www.presentes.yoshaemark.com", PRESENTES_PREFIX) by {
      assert "www.presentes.yoshaemark.com"[0] == 'w';
    }
    assert !StartsWith("www.presentes.yoshaemark.com", HOSPEDAGEM_PREFIX) by {
      assert "www.presentes.yoshaemark.com"[0] == 'w';
    }
  }

  /** The page of a deployed site. */
  function SitePage(site: Site): Page {
    match site
    case Presentes => PresentesPage
    case Hospedagem => HospedagemPage
    case Root => HomePage
  }

  /** The path a site's page has in the development route table. */
  function SitePath(site: Site): string {
    match site
    case Root => "/"
    case Presentes => "/presentes"
    case Hospedagem => "/hospedagem"
  }

  /** ASCII lower case: what a case-insensitive regular expression without
      the Unicode flag identifies a letter with. */
  function AsciiLower(c: char): char {
    if 'A' <= c <= 'Z' then (c as int - 'A' as int + 'a' as int) as char else c
  }

  /** How the router matches a route's path (all lower case) against the
      current path: letters compare without regard to case, and any number
      of slashes may follow. */
  predicate MatchesRoute(route: string, path: string) {
    && |route| <= |path|
    && (forall i :: 0 <= i < |route| ==> AsciiLower(path[i]) == route[i])
    && (forall i :: |route| <= i < |path| ==> path[i] == '/')
  }

  /** A path matches at most one of the three routes. */
  lemma RoutesExclusive(a: Site, b: Site, path: string)
    requires a != b
    ensures !(MatchesRoute(SitePath(a), path) && MatchesRoute(SitePath(b), path))
  {
    if MatchesRoute(SitePath(a), path) && 2 <= |path| {
      if a == Root {
        assert path[1] == '/';
      } else {
        assert AsciiLower(path[1]) == SitePath(a)[1];
      }
    }
  }

  /** The page rendered for a site (or none) and the current path; `None`
      when no route matches. A detected site ignores the path. */
  function Route(site: Option<Site>, path: string): (r: Option<Page>)
    ensures site.Some? ==> r == Some(SitePage(site.value))
    ensures site.None? ==> forall s :: r == Some(SitePage(s)) <==> MatchesRoute(SitePath(s), path)
  {
    match site
    case Some(s) => Some(SitePage(s))
    case None =>
      RoutesExclusiveAll(path);
      assert SitePath(Root) == "/" && SitePath(Presentes) == "/presentes" && SitePath(Hospedagem) == "/hospedagem";
      if MatchesRoute("/", path) then Some(HomePage)
      else if MatchesRoute("/presentes", path) then Some(PresentesPage)
      else if MatchesRoute("/hospedagem", path) then Some(HospedagemPage)
      else None
  }

  lemma RoutesExclusiveAll(path: string)
    ensures forall a, b :: MatchesRoute(SitePath(a), path) && MatchesRoute(SitePath(b), path) ==> a == b
  {
    forall a, b | a != b ensures !(MatchesRoute(SitePath(a), path) && MatchesRoute(SitePath(b), path)) {
      RoutesExclusive(a, b, path);
    }
  }

  /** Examples: a trailing slash and upper case still reach a page; a longer
      path does not. */
  lemma RouteExamples()
    ensures Route(None, "/presentes/") == Some(PresentesPage)
    ensures Route(None, "/PRESENTES") == Some(PresentesPage)
    ensures Route(None, "//") == Some(HomePage)
    ensures Route(None, "/presentesx") == None
  {
    assert MatchesRoute("/presentes", "/presentes/");
    assert MatchesRoute("/presentes", "/PRESENTES");
    assert MatchesRoute("/", "//");
    assert !MatchesRoute("/", "/presentesx") by { assert "/presentesx"[1] != '/'; }
    assert !MatchesRoute("/presentes", "/presentesx") by { assert "/presentesx"[10] != '/'; }
    assert !MatchesRoute("/hospedagem", "/presentesx") by { assert AsciiLower("/presentesx"[1]) != 'h'; }
  }

  /** The two dispatches agree: a site renders the page its path leads to on
      a development host. */
  lemma RouteAgreement(site: Site, path: string)
    ensures Route(Some(site), path) == Route(None, SitePath(site))
  {
  }

  /** The site whose page `p` is: every page is reachable from a host. */
  function SiteOf(p: Page): (s: Site)
    ensures SitePage(s) == p
    ensures Route(None, SitePath(s)) == Some(p)
  {
    match p
    case HomePage => Root
    case PresentesPage => Presentes
    case HospedagemPage => Hospedagem
  }

  /** Distinct sites render distinct pages. */
  lemma SitePageInjective(a: Site, b: Site)
    requires SitePage(a) == SitePage(b)
    ensures a == b
  {
  }

  /** What the router shows for a host and a path. */
  function SubdomainRouter(host: string, path: string): (r: Option<Page>)
    ensures StartsWith(host, PRESENTES_PREFIX) ==> r == Some(PresentesPage)
    ensures StartsWith(host, HOSPEDAGEM_PREFIX) ==> r == Some(HospedagemPage)
    ensures IsRootHost(host) ==> r == Some(HomePage)
    ensures GetSubdomain(host).None? ==> r == Route(None, path)
  {
    Route(GetSubdomain(host), path)
  }
}
