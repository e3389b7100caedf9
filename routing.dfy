/**
 * Request-time routing policy: the maintenance gate, the per-page auth and
 * role gate, and the ordered redirect-rule rewriter.
 */
module Routing {
  import opened Wrappers
  import opened JsString
  import opened Config

  /** The framework's redirect response, reduced to its target and status. */
  datatype Redirect = Redirect(url: string, status: int)

  const MaintenancePath: string := "/maintenance"

  /** The status the framework's `redirect(url)` uses when none is given. */
  const FrameworkDefaultStatus: int := 302

  /** The status used when a rule's own status is 0. */
  const DefaultRuleStatus: int := 301

  /**
   * `checkMaintenanceMode`: the maintenance page itself is never redirected;
   * any other path goes to it exactly when `maintenanceMode` is `true`.
   */
  function CheckMaintenanceMode(cfg: SiteConfig, pathname: string): (r: Option<Redirect>)
    ensures pathname == MaintenancePath ==> r == None
    ensures pathname != MaintenancePath ==> (r.Some? <==> cfg.maintenanceMode == Some(true))
    ensures r.Some? ==> r.value == Redirect(MaintenancePath, FrameworkDefaultStatus)
  {
    if pathname == MaintenancePath then None
    else if IsTrue(cfg.maintenanceMode) then Some(Redirect(MaintenancePath, FrameworkDefaultStatus))
    else None
  }

  /** `requiresAuthentication`: the page exists and its `requires_auth` is `true`. */
  function RequiresAuthentication(cfg: SiteConfig, pageName: string): (r: bool)
    ensures r <==> pageName in cfg.pages && cfg.pages[pageName].requiresAuth == Some(true)
  {
    pageName in cfg.pages && IsTrue(cfg.pages[pageName].requiresAuth)
  }

  /** `userRoles.some(role => allowedRoles.includes(role))`. */
  function SomeRoleAllowed(userRoles: seq<string>, allowedRoles: seq<string>): (r: bool)
    ensures r <==> exists i :: 0 <= i < |userRoles| && userRoles[i] in allowedRoles
  {
    if |userRoles| == 0 then false
    else userRoles[0] in allowedRoles || SomeRoleAllowed(userRoles[1..], allowedRoles)
  }

  /**
   * `hasRequiredRole`: a page that is unknown or does not require auth, or
   * that lists no allowed roles, lets everyone in; otherwise some role of
   * the user must be among the allowed ones.
   */
  function HasRequiredRole(cfg: SiteConfig, pageName: string, userRoles: seq<string>): (r: bool)
    ensures !RequiresAuthentication(cfg, pageName) ==> r
    ensures RequiresAuthentication(cfg, pageName) ==>
      var allowed := cfg.pages[pageName].allowedRoles;
      (r <==> allowed.None? || |allowed.value| == 0 ||
              exists i, j :: 0 <= i < |userRoles| && 0 <= j < |allowed.value| && userRoles[i] == allowed.value[j])
  {
    if pageName !in cfg.pages || !IsTrue(cfg.pages[pageName].requiresAuth) then true
    else
      match cfg.pages[pageName].allowedRoles
      case None => true
      case Some(allowed) => |allowed| == 0 || SomeRoleAllowed(userRoles, allowed)
  }

  /** A user without roles is turned away from a page that requires auth and lists allowed roles. */
  lemma NoRolesRejected(cfg: SiteConfig, pageName: string)
    requires RequiresAuthentication(cfg, pageName)
    requires cfg.pages[pageName].allowedRoles.Some? && |cfg.pages[pageName].allowedRoles.value| > 0
    ensures !HasRequiredRole(cfg, pageName, [])
  {
  }

  /** The configured rules, an absent list being empty. */
  function Rules(cfg: SiteConfig): seq<RedirectRule> {
    match cfg.redirectRules
    case None => []
    case Some(rs) => rs
  }

  /** `s.slice(0, -2)` for a string ending in the wildcard suffix: the part before it. */
  function WildcardBase(s: string): (b: string)
    requires EndsWith(s, "/*")
    ensures s == b + "/*"
  {
    s[..|s| - 2]
  }

  /**
   * A rule matches on exact equality, or, when `from` ends in the wildcard
   * suffix (slash, star), when the path starts with `from` without those two
   * characters (a plain string prefix).
   */
  predicate RuleMatches(rule: RedirectRule, pathname: string)
    ensures rule.from == pathname ==> RuleMatches(rule, pathname)
    ensures !EndsWith(rule.from, "/*") ==> (RuleMatches(rule, pathname) <==> rule.from == pathname)
    ensures EndsWith(rule.from, "/*") ==>
      (RuleMatches(rule, pathname) <==> StartsWith(pathname, rule.from[..|rule.from| - 2]))
  {
    assert EndsWith(rule.from, "/*") && rule.from == pathname ==>
      pathname[..|rule.from| - 2] == rule.from[..|rule.from| - 2];
    rule.from == pathname || (EndsWith(rule.from, "/*") && StartsWith(pathname, WildcardBase(rule.from)))
  }

  /** Rule `i` matches and no earlier rule does. */
  predicate IsFirstMatch(rules: seq<RedirectRule>, pathname: string, i: int) {
    0 <= i < |rules| && RuleMatches(rules[i], pathname) &&
    forall j :: 0 <= j < i ==> !RuleMatches(rules[j], pathname)
  }

  /** `Array.find` from index `i`: the index of the first matching rule. */
  function FindRuleFrom(rules: seq<RedirectRule>, pathname: string, i: nat): (r: Option<nat>)
    requires i <= |rules|
    ensures r.Some? ==> i <= r.value < |rules| && RuleMatches(rules[r.value], pathname)
    ensures r.Some? ==> forall j :: i <= j < r.value ==> !RuleMatches(rules[j], pathname)
    ensures r.None? ==> forall j :: i <= j < |rules| ==> !RuleMatches(rules[j], pathname)
    decreases |rules| - i
  {
    if i == |rules| then None
    else if RuleMatches(rules[i], pathname) then Some(i)
    else FindRuleFrom(rules, pathname, i + 1)
  }

  /**
   * The target of a matching rule: for a wildcard-to-wildcard rule the part
   * of the path after the `from` base is appended to the `to` base;
   * otherwise `to` verbatim.
   */
  function RedirectTarget(rule: RedirectRule, pathname: string): (url: string)
    requires RuleMatches(rule, pathname)
    ensures !(EndsWith(rule.from, "/*") && EndsWith(rule.to, "/*")) ==> url == rule.to
    ensures EndsWith(rule.from, "/*") && EndsWith(rule.to, "/*") ==>
      StartsWith(pathname, WildcardBase(rule.from)) &&
      url == WildcardBase(rule.to) + pathname[|WildcardBase(rule.from)|..]
  {
    if EndsWith(rule.from, "/*") && EndsWith(rule.to, "/*") then
      var baseFrom := WildcardBase(rule.from);
      assert StartsWith(pathname, baseFrom) by {
        if rule.from == pathname {
          assert pathname[..|baseFrom|] == baseFrom;
        }
      }
      WildcardBase(rule.to) + pathname[|baseFrom|..]
    else rule.to
  }

  /** `rule.status || 301`. */
  function EffectiveStatus(status: int): (s: int)
    ensures status != 0 ==> s == status
    ensures status == 0 ==> s == DefaultRuleStatus
  {
    if status != 0 then status else DefaultRuleStatus
  }

  /** The redirect a matching rule produces. */
  function RuleRedirect(rule: RedirectRule, pathname: string): Redirect
    requires RuleMatches(rule, pathname)
  {
    Redirect(RedirectTarget(rule, pathname), EffectiveStatus(rule.status))
  }

  /**
   * `applyRedirectRules`: nothing when there are no rules or none match;
   * otherwise the redirect of the FIRST matching rule in list order.
   */
  function ApplyRedirectRules(cfg: SiteConfig, pathname: string): (r: Option<Redirect>)
    ensures r.None? <==> forall j :: 0 <= j < |Rules(cfg)| ==> !RuleMatches(Rules(cfg)[j], pathname)
    ensures r.Some? ==> (exists i :: IsFirstMatch(Rules(cfg), pathname, i) &&
                                     r.value == RuleRedirect(Rules(cfg)[i], pathname))
  {
    var rules := Rules(cfg);
    if |rules| == 0 then None
    else
      match FindRuleFrom(rules, pathname, 0)
      case None => None
      case Some(i) => Some(RuleRedirect(rules[i], pathname))
  }

  /** A wildcard-to-wildcard rule carries the rest of the path over to the new base. */
  lemma {:induction false} WildcardCarriesRemainder(rule: RedirectRule, base: string, rest: string)
    requires rule.from == base + "/*" && EndsWith(rule.to, "/*")
    ensures RuleMatches(rule, base + rest)
    ensures RedirectTarget(rule, base + rest) == WildcardBase(rule.to) + rest
  {
    var p := base + rest;
    assert WildcardBase(rule.from) == base;
    assert p[..|base|] == base;
    assert p[|base|..] == rest;
  }

  /** The wildcard is a plain string prefix: the rule from `/old/` plus star also matches `/older`. */
  lemma WildcardIsStringPrefix()
    ensures RuleMatches(RedirectRule("/old/*", "/new/*", 301), "/older")
  {
    assert WildcardBase("/old/*") == "/old";
    assert "/older"[..4] == "/old";
  }

  /** A rule list whose first rule matches redirects by that rule, whatever comes after it. */
  lemma FirstMatchWins(cfg: SiteConfig, pathname: string)
    requires |Rules(cfg)| > 0 && RuleMatches(Rules(cfg)[0], pathname)
    ensures ApplyRedirectRules(cfg, pathname) == Some(RuleRedirect(Rules(cfg)[0], pathname))
  {
  }
}
