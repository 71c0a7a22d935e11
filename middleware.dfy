/**
 * The route guard run before every page under /dashboard and /auth: visitors
 * without a session are sent from the dashboard to the login page, signed-in
 * users are sent from the auth pages to the dashboard, and everything else
 * (including a failed session lookup) passes through.
 */
module Middleware {
  /** The parts of the request URL the guard reads or keeps. */
  datatype Url = Url(origin: string, pathname: string, search: string)

  /** The session lookup: it threw, or found no session, or found one. */
  datatype SessionLookup = LookupFailed | NoSession | HasSession

  datatype Outcome = PassThrough | Redirect(to: Url)

  const LoginPath: string := "/auth/login"
  const DashboardPath: string := "/dashboard"

  predicate StartsWith(s: string, prefix: string) {
    |prefix| <= |s| && s[..|prefix|] == prefix
  }

  /** A pattern `/<section>/:path*`: the section itself or anything below it. */
  predicate InSection(pathname: string, section: string) {
    pathname == section || StartsWith(pathname, section + "/")
  }

  /** The `matcher` configuration: only these requests reach the guard. */
  predicate Intercepted(pathname: string) {
    InSection(pathname, "/dashboard") || InSection(pathname, "/auth")
  }

  /** The guard's decision for a request that reached it. */
  function Decide(session: SessionLookup, url: Url): (r: Outcome)
    ensures r.Redirect? ==> r.to.origin == url.origin && r.to.search == url.search
    ensures r == Redirect(url.(pathname := LoginPath)) <==>
      session.NoSession? && StartsWith(url.pathname, "/dashboard")
    ensures r == Redirect(url.(pathname := DashboardPath)) <==>
      session.HasSession? && StartsWith(url.pathname, "/auth")
    ensures r.PassThrough? <==>
      || session.LookupFailed?
      || (session.NoSession? && !StartsWith(url.pathname, "/dashboard"))
      || (session.HasSession? && !StartsWith(url.pathname, "/auth"))
  {
    if session.NoSession? && StartsWith(url.pathname, "/dashboard") then
      Redirect(url.(pathname := LoginPath))
    else if session.HasSession? && StartsWith(url.pathname, "/auth") then
      Redirect(url.(pathname := DashboardPath))
    else
      PassThrough
  }

  /** What a request gets: requests outside the matcher never meet the guard. */
  function Handle(session: SessionLookup, url: Url): (r: Outcome)
    ensures !Intercepted(url.pathname) ==> r.PassThrough?
    ensures Intercepted(url.pathname) ==> r == Decide(session, url)
  {
    if Intercepted(url.pathname) then Decide(session, url) else PassThrough
  }

  /**
   * Following a redirect with the same session state lands on a page the
   * guard lets through: the guard never bounces a user between the two.
   */
  lemma NoRedirectLoop(session: SessionLookup, url: Url)
    requires Decide(session, url).Redirect?
    ensures Intercepted(Decide(session, url).to.pathname)
    ensures Handle(session, Decide(session, url).to) == PassThrough
  {
    var target := Decide(session, url).to;
    if session.NoSession? {
      assert target.pathname == LoginPath;
      assert LoginPath[..|"/auth/"|] == "/auth/";
      assert !StartsWith(LoginPath, "/dashboard") by {
        assert LoginPath[1] != "/dashboard"[1];
      }
    } else {
      assert target.pathname == DashboardPath;
      assert !StartsWith(DashboardPath, "/auth") by {
        assert DashboardPath[1] != "/auth"[1];
      }
    }
  }

  /**
   * Within the matcher the guard's prefix tests agree with the sections:
   * a "/dashboard" prefix means a dashboard page, an "/auth" prefix an auth page.
   */
  lemma PrefixesMatchSections(pathname: string)
    requires Intercepted(pathname)
    ensures StartsWith(pathname, "/dashboard") <==> InSection(pathname, "/dashboard")
    ensures StartsWith(pathname, "/auth") <==> InSection(pathname, "/auth")
  {
    if InSection(pathname, "/dashboard") {
      assert pathname[..|"/dashboard"|] == "/dashboard";
      assert pathname[..|"/auth"|] != "/auth";
    } else {
      assert pathname[..|"/auth"|] == "/auth";
      if |pathname| >= |"/dashboard"| {
        assert pathname[..|"/dashboard"|][1] == 'a';
      }
    }
  }
}
