/**
 * The request gate in front of every page: public path prefixes always pass,
 * any other path needs the `authToken` cookie or is redirected to `/auth`.
 */
module Middleware {
  import opened Text

  const PublicPaths: seq<string> := ["/auth", "/_next", "/api/auth", "/favicon.ico"]

  const AdminPaths: seq<string> := ["/admin"]

  /** `publicPaths.some(p => path.startsWith(p))`: a raw prefix test. */
  predicate IsPublicPath(path: string) {
    exists p | p in PublicPaths :: StartsWith(path, p)
  }

  /** `adminPaths.some(p => path.startsWith(p))`. */
  predicate IsAdminPath(path: string) {
    exists p | p in AdminPaths :: StartsWith(path, p)
  }

  /** What the gate answers: let the request through, or redirect it. */
  datatype Decision = Next | Redirect(location: string)

  /** Where an unauthenticated request is sent. */
  const LoginPath := "/auth"

  /**
   * `middleware`: `hasAuthCookie` is whether an `authToken` cookie came with
   * the request (its value is not looked at).
   */
  function Decide(path: string, hasAuthCookie: bool): (d: Decision)
    ensures d == Next <==> IsPublicPath(path) || hasAuthCookie
    ensures d != Next ==> d == Redirect(LoginPath)
  {
    if IsPublicPath(path) then Next
    else if !hasAuthCookie then Redirect(LoginPath)
    else Next
  }

  /** A path beginning "/ad" matches none of the public prefixes. */
  lemma NotPublicUnderAd(path: string)
    requires StartsWith(path, "/ad")
    ensures !IsPublicPath(path)
  {
    forall p | p in PublicPaths
      ensures !StartsWith(path, p)
    {
      assert p == "/auth" || p == "/_next" || p == "/api/auth" || p == "/favicon.ico";
      assert path[..3][2] == 'd';
    }
  }

  /** A path shorter than every public prefix is not public. */
  lemma NotPublicWhenShort(path: string)
    requires |path| < 5
    ensures !IsPublicPath(path)
  {
    forall p | p in PublicPaths
      ensures !StartsWith(path, p)
    {
      assert p == "/auth" || p == "/_next" || p == "/api/auth" || p == "/favicon.ico";
    }
  }

  /** The prefix tests are on raw strings, not on path segments. */
  lemma PrefixExamples()
    ensures IsPublicPath("/auth") && IsPublicPath("/authx") && IsPublicPath("/api/auth/callback")
    ensures !IsPublicPath("/") && !IsPublicPath("/admin") && !IsPublicPath("/api")
    ensures IsAdminPath("/admin/users") && IsAdminPath("/administrator") && !IsAdminPath("/")
  {
    assert StartsWith("/auth", "/auth");
    assert StartsWith("/authx", "/auth");
    assert StartsWith("/api/auth/callback", "/api/auth");
    assert StartsWith("/admin/users", "/admin");
    assert StartsWith("/administrator", "/admin");
    NotPublicWhenShort("/");
    NotPublicWhenShort("/api");
    NotPublicUnderAd("/admin");
  }

  /** The gate does not single out admin paths: they need only the cookie. */
  lemma AdminPathsNotSpecial(path: string, hasAuthCookie: bool)
    requires IsAdminPath(path)
    ensures !IsPublicPath(path)
    ensures Decide(path, hasAuthCookie) == (if hasAuthCookie then Next else Redirect(LoginPath))
  {
    assert path[..|"/admin"|] == "/admin";
    assert path[..3] == "/ad";
    NotPublicUnderAd(path);
  }

  /** The redirect target itself always passes, so a redirect never repeats. */
  lemma RedirectTargetPasses(hasAuthCookie: bool)
    ensures Decide(LoginPath, hasAuthCookie) == Next
  {
    assert StartsWith(LoginPath, "/auth");
  }
}
