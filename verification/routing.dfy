/** The request guard of `lib/supabase/middleware.ts`: for each request
    path, either let it through or redirect it. The session cookies, the
    database client and the admin-session check are abstracted into a
    request context. */
module Middleware {
  import opened Common
  import opened Records

  datatype Decision = Pass | Redirect(path: string)

  /** What the guard knows besides the path: whether the database settings
      are present, the configured admin-portal segment, whether reading the
      session or the profile threw, the signed-in user, the user id of a
      valid admin session, and the profiles it reads roles from. */
  datatype RequestContext = RequestContext(
    envConfigured: bool,
    portalSetting: Option<string>,
    fault: bool,
    user: Option<UserId>,
    adminSession: Option<UserId>,
    profiles: map<UserId, Profile>)

  const DefaultPortal: string := "secure-admin-gateway"

  /** The path prefix of the admin portal. */
  function Portal(ctx: RequestContext): (r: string)
    ensures |r| >= 2 && r[0] == '/'
  {
    "/" + OrDefault(ctx.portalSetting, DefaultPortal)
  }

  /** The paths that stay reachable without a working database. */
  predicate IsPublic(path: string) {
    StartsWith(path, "/auth") || path == "/"
  }

  /** Two prefixes that differ at a position cannot both start a path. */
  lemma PrefixesClash(path: string, a: string, b: string, i: nat)
    requires i < |a| && i < |b| && a[i] != b[i]
    ensures StartsWith(path, a) ==> !StartsWith(path, b)
  {
    if StartsWith(path, a) {
      assert path[i] == a[i];
    }
  }

  /** The decision without a usable database: public paths pass, all
      others go to the home page. */
  function Fallback(path: string): (d: Decision)
    ensures d == Pass <==> IsPublic(path)
    ensures d != Pass ==> d == Redirect("/")
  {
    if IsPublic(path) then Pass else Redirect("/")
  }

  /** `profile?.role` for the signed-in user. */
  function RoleOf(ctx: RequestContext): Option<string> {
    if ctx.user.Some? && ctx.user.value in ctx.profiles then Some(ctx.profiles[ctx.user.value].role) else None
  }

  /** The portal sections reserved for super admins. */
  predicate IsSuperAdminRoute(portal: string, path: string) {
    || StartsWith(path, portal + "/dashboard/users")
    || StartsWith(path, portal + "/dashboard/analytics")
    || StartsWith(path, portal + "/dashboard/commissions")
    || StartsWith(path, portal + "/dashboard/all-letters")
  }

  predicate IsSuperAdmin(profiles: map<UserId, Profile>, u: UserId) {
    u in profiles && profiles[u].role == "admin" && profiles[u].isSuperUser
  }

  /** The decision for a path under the admin portal. */
  function PortalDecision(ctx: RequestContext, portal: string, path: string): (d: Decision)
    ensures path == portal + "/login" ==> d == Pass
    ensures path != portal + "/login" && ctx.adminSession.None? ==> d == Redirect(portal + "/login")
    ensures d == Redirect(portal + "/review") <==>
              && path != portal + "/login" && ctx.adminSession.Some?
              && IsSuperAdminRoute(portal, path) && !IsSuperAdmin(ctx.profiles, ctx.adminSession.value)
    ensures d == Pass <==>
              || path == portal + "/login"
              || (ctx.adminSession.Some?
                  && (!IsSuperAdminRoute(portal, path) || IsSuperAdmin(ctx.profiles, ctx.adminSession.value)))
    ensures d == Pass || d == Redirect(portal + "/login") || d == Redirect(portal + "/review")
  {
    if path == portal + "/login" then Pass
    else if ctx.adminSession.None? then Redirect(portal + "/login")
    else if IsSuperAdminRoute(portal, path) && !IsSuperAdmin(ctx.profiles, ctx.adminSession.value) then
      Redirect(portal + "/review")
    else Pass
  }

  /** A prefix that differs at position `i` from each of the four
      role-restricted sections starts none of them. */
  lemma RoleSectionsClash(path: string, a: string, i: nat)
    requires i < |a| && i < 18
    requires a[i] != "/dashboard/letters"[i] && a[i] != "/dashboard/subscription"[i]
    requires a[i] != "/dashboard/commissions"[i] && a[i] != "/dashboard/coupons"[i]
    ensures StartsWith(path, a) ==>
              && !StartsWith(path, "/dashboard/letters") && !StartsWith(path, "/dashboard/subscription")
              && !StartsWith(path, "/dashboard/commissions") && !StartsWith(path, "/dashboard/coupons")
  {
    PrefixesClash(path, a, "/dashboard/letters", i);
    PrefixesClash(path, a, "/dashboard/subscription", i);
    PrefixesClash(path, a, "/dashboard/commissions", i);
    PrefixesClash(path, a, "/dashboard/coupons", i);
  }

  /** The decision for a path outside the admin portal. */
  function AppDecision(ctx: RequestContext, path: string): (d: Decision)
    ensures d == Redirect("/dashboard") <==> StartsWith(path, "/dashboard/admin")
    ensures IsPublic(path) ==> d == Pass
    ensures d == Redirect("/auth/login") <==>
              ctx.user.None? && StartsWith(path, "/dashboard") && !StartsWith(path, "/dashboard/admin")
    ensures d == Redirect("/dashboard/commissions") <==>
              RoleOf(ctx) == Some("employee")
              && (StartsWith(path, "/dashboard/letters") || StartsWith(path, "/dashboard/subscription"))
    ensures d == Redirect("/dashboard/letters") <==>
              RoleOf(ctx) == Some("subscriber")
              && (StartsWith(path, "/dashboard/commissions") || StartsWith(path, "/dashboard/coupons"))
    ensures d == Pass <==>
              && !StartsWith(path, "/dashboard/admin")
              && !(ctx.user.None? && StartsWith(path, "/dashboard"))
              && !(RoleOf(ctx) == Some("employee")
                   && (StartsWith(path, "/dashboard/letters") || StartsWith(path, "/dashboard/subscription")))
              && !(RoleOf(ctx) == Some("subscriber")
                   && (StartsWith(path, "/dashboard/commissions") || StartsWith(path, "/dashboard/coupons")))
    ensures d == Pass || d == Redirect("/dashboard") || d == Redirect("/auth/login")
            || d == Redirect("/dashboard/commissions") || d == Redirect("/dashboard/letters")
  {
    if StartsWith(path, "/dashboard/admin") then
      PrefixesClash(path, "/dashboard/admin", "/auth", 1);
      RoleSectionsClash(path, "/dashboard/admin", 11);
      Redirect("/dashboard")
    else if IsPublic(path) then
      PrefixesClash(path, "/auth", "/dashboard", 1);
      RoleSectionsClash(path, "/auth", 1);
      Pass
    else if ctx.user.None? && StartsWith(path, "/dashboard") then
      PrefixesClash(path, "/dashboard", "/auth", 1);
      Redirect("/auth/login")
    else
      var role := RoleOf(ctx);
      if ctx.user.Some? && Truthy(role) then
        if role.value == "employee"
           && (StartsWith(path, "/dashboard/letters") || StartsWith(path, "/dashboard/subscription")) then
          Redirect("/dashboard/commissions")
        else if (StartsWith(path, "/dashboard/commissions") || StartsWith(path, "/dashboard/coupons"))
                && role.value == "subscriber" then
          Redirect("/dashboard/letters")
        else Pass
      else Pass
  }

  /** The routing decision of `updateSession`. */
  function Route(ctx: RequestContext, path: string): (d: Decision)
    ensures !ctx.envConfigured || ctx.fault ==> d == Fallback(path)
    ensures ctx.envConfigured && !ctx.fault && StartsWith(path, Portal(ctx)) ==>
              d == PortalDecision(ctx, Portal(ctx), path)
    ensures ctx.envConfigured && !ctx.fault && !StartsWith(path, Portal(ctx)) ==>
              d == AppDecision(ctx, path)
  {
    if !ctx.envConfigured then Fallback(path)
    else if ctx.fault then Fallback(path)
    else
      var portal := Portal(ctx);
      if StartsWith(path, portal) then PortalDecision(ctx, portal, path)
      else AppDecision(ctx, path)
  }

  /** Every redirect goes to one of seven fixed places. */
  lemma RedirectTargets(ctx: RequestContext, path: string)
    ensures var d := Route(ctx, path);
            d.Redirect? ==>
              d.path in {"/", Portal(ctx) + "/login", Portal(ctx) + "/review", "/dashboard", "/auth/login",
                         "/dashboard/commissions", "/dashboard/letters"}
  {
  }

  /** A portal segment that does not capture any of the application's own
      redirect targets. */
  predicate PortalClear(portal: string) {
    && !StartsWith("/dashboard", portal)
    && !StartsWith("/dashboard/commissions", portal)
    && !StartsWith("/dashboard/letters", portal)
    && !StartsWith("/auth/login", portal)
  }

  lemma DefaultPortalClear(ctx: RequestContext)
    requires !Truthy(ctx.portalSetting)
    ensures PortalClear(Portal(ctx))
  {
    var portal := Portal(ctx);
    assert portal == "/secure-admin-gateway";
    NotPrefixAt("/dashboard/commissions", portal, 1);
    NotPrefixAt("/dashboard/letters", portal, 1);
    NotPrefixAt("/dashboard", portal, 1);
    NotPrefixAt("/auth/login", portal, 1);
  }

  lemma NotPrefixAt(s: string, p: string, i: nat)
    requires i < |s| && i < |p| && s[i] != p[i]
    ensures !StartsWith(s, p)
  {
  }

  /** A shared prefix does not change whether one path starts with another. */
  lemma {:induction false} PrefixCancel(p: string, a: string, b: string)
    ensures StartsWith(p + a, p + b) <==> StartsWith(a, b)
  {
    if StartsWith(p + a, p + b) {
      assert |b| <= |a|;
      forall i | 0 <= i < |b| ensures b[i] == a[i] {
        assert (p + b)[|p| + i] == (p + a)[|p| + i];
      }
    }
    if StartsWith(a, b) {
      assert p + b == (p + a)[..|p + b|];
    }
  }

  /** The review page is not one of the super-admin sections. */
  lemma ReviewIsOpenToAdmins(portal: string)
    ensures !IsSuperAdminRoute(portal, portal + "/review")
    ensures portal + "/review" != portal + "/login"
  {
    PrefixCancel(portal, "/review", "/dashboard/users");
    PrefixCancel(portal, "/review", "/dashboard/analytics");
    PrefixCancel(portal, "/review", "/dashboard/commissions");
    PrefixCancel(portal, "/review", "/dashboard/all-letters");
    assert (portal + "/review")[|portal| + 1] == 'r';
  }

  /** Following a redirect, with the same session and settings, lands on a
      page that passes, unless the redirect went to `/dashboard`. */
  lemma OnlyDashboardRedirectsAgain(ctx: RequestContext, path: string)
    requires PortalClear(Portal(ctx))
    ensures var d := Route(ctx, path);
            d.Redirect? && d.path != "/dashboard" ==> Route(ctx, d.path) == Pass
  {
    var portal := Portal(ctx);
    var d := Route(ctx, path);
    if d.Redirect? && d.path != "/dashboard" {
      if !ctx.envConfigured || ctx.fault {
        assert d.path == "/";
      } else if StartsWith(path, portal) {
        PortalTargetsPass(ctx, path);
      } else {
        AppTargetsPass(ctx, path);
      }
    }
  }

  /** The login and review pages of the portal pass for the session that
      was sent there. */
  lemma PortalTargetsPass(ctx: RequestContext, path: string)
    requires ctx.envConfigured && !ctx.fault
    requires PortalDecision(ctx, Portal(ctx), path).Redirect?
    ensures Route(ctx, PortalDecision(ctx, Portal(ctx), path).path) == Pass
  {
    var portal := Portal(ctx);
    var d := PortalDecision(ctx, portal, path);
    assert StartsWith(d.path, portal);
    if d.path == portal + "/review" {
      ReviewIsOpenToAdmins(portal);
    }
  }

  /** The application's own redirect targets, other than `/dashboard`,
      pass for the user that was sent there. */
  lemma AppTargetsPass(ctx: RequestContext, path: string)
    requires ctx.envConfigured && !ctx.fault && PortalClear(Portal(ctx))
    requires AppDecision(ctx, path).Redirect? && AppDecision(ctx, path).path != "/dashboard"
    ensures Route(ctx, AppDecision(ctx, path).path) == Pass
  {
    var t := AppDecision(ctx, path).path;
    if t == "/auth/login" {
      assert IsPublic(t);
    } else {
      RoleTargetPasses(ctx, t);
    }
  }

  /** The role redirects' targets are let through for the role that was
      sent there: employees to commissions, subscribers to letters. */
  lemma RoleTargetPasses(ctx: RequestContext, t: string)
    requires ctx.envConfigured && !ctx.fault && !StartsWith(t, Portal(ctx))
    requires || (t == "/dashboard/commissions" && RoleOf(ctx) == Some("employee"))
             || (t == "/dashboard/letters" && RoleOf(ctx) == Some("subscriber"))
    ensures Route(ctx, t) == Pass
  {
    NotPrefixAt(t, "/dashboard/admin", 11);
    NotPrefixAt(t, "/auth", 1);
    if t == "/dashboard/commissions" {
      NotPrefixAt(t, "/dashboard/letters", 11);
      NotPrefixAt(t, "/dashboard/subscription", 11);
    } else {
      NotPrefixAt(t, "/dashboard/commissions", 11);
      NotPrefixAt(t, "/dashboard/coupons", 11);
    }
  }

  /** No redirect loop: from any path at most two redirects lead to a page
      that passes. */
  lemma RedirectsSettle(ctx: RequestContext, path: string)
    requires PortalClear(Portal(ctx))
    ensures var d1 := Route(ctx, path);
            d1.Redirect? ==>
              var d2 := Route(ctx, d1.path);
              d2.Redirect? ==> Route(ctx, d2.path) == Pass
  {
    var d1 := Route(ctx, path);
    if d1.Redirect? {
      OnlyDashboardRedirectsAgain(ctx, path);
      OnlyDashboardRedirectsAgain(ctx, d1.path);
      if d1.path == "/dashboard" {
        var d2 := Route(ctx, d1.path);
        assert !StartsWith("/dashboard", "/dashboard/admin");
      }
    }
  }

  /** The redirect targets of the role rules are not redirected again for
      the same user. */
  lemma RoleRedirectsDoNotLoop(ctx: RequestContext, path: string)
    requires PortalClear(Portal(ctx))
    requires Route(ctx, path) == Redirect("/dashboard/commissions") || Route(ctx, path) == Redirect("/dashboard/letters")
    ensures Route(ctx, Route(ctx, path).path) == Pass
  {
    OnlyDashboardRedirectsAgain(ctx, path);
  }
}

/** `app/secure-admin-gateway/page.tsx`: the portal's landing page sends
    each visitor to the login page, the super-admin dashboard or the review
    centre. */
module AdminGateway {
  import opened Common
  import Middleware

  datatype GatewayTarget = ToLogin | ToDashboard | ToReview

  function TargetPath(t: GatewayTarget): string {
    match t
    case ToLogin => "/secure-admin-gateway/login"
    case ToDashboard => "/secure-admin-gateway/dashboard"
    case ToReview => "/secure-admin-gateway/review"
  }

  /** The landing decision from what the admin-session library reports:
      whether there is a session, its role and its super-user flag. */
  function Land(hasSession: bool, role: Option<string>, isSuperUser: bool): (r: GatewayTarget)
    ensures r == ToLogin <==> !hasSession || role != Some("admin")
    ensures r == ToDashboard <==> hasSession && role == Some("admin") && isSuperUser
    ensures r == ToReview <==> hasSession && role == Some("admin") && !isSuperUser
  {
    if !hasSession || role != Some("admin") then ToLogin
    else if isSuperUser then ToDashboard
    else ToReview
  }

  /** With the default portal segment, wherever the landing page sends a
      visitor, the request guard lets them in: the login page always, the
      dashboard and review centre whenever there is an admin session. */
  lemma LandingTargetsPass(ctx: Middleware.RequestContext, hasSession: bool, role: Option<string>, isSuperUser: bool)
    requires ctx.envConfigured && !ctx.fault && !Truthy(ctx.portalSetting)
    requires hasSession ==> ctx.adminSession.Some?
    ensures Middleware.Route(ctx, TargetPath(Land(hasSession, role, isSuperUser))) == Middleware.Pass
  {
    var portal := Middleware.Portal(ctx);
    assert portal == "/secure-admin-gateway";
    var t := Land(hasSession, role, isSuperUser);
    assert TargetPath(t) == portal + "/login" || TargetPath(t) == portal + "/dashboard" || TargetPath(t) == portal + "/review";
    assert StartsWith(TargetPath(t), portal);
    if t == ToReview {
      Middleware.ReviewIsOpenToAdmins(portal);
    } else if t == ToDashboard {
      assert !Middleware.IsSuperAdminRoute(portal, TargetPath(t));
      assert TargetPath(t) != portal + "/login";
    }
  }
}
