/**
 * The site configuration record every other module reads. It is built once
 * per deployment and never changed, so it is a value passed in as a
 * parameter. Optional fields are `Option`s; `undefined` is `None`.
 */
module Config {
  import opened Wrappers
  import Colors

  datatype MenuItem = MenuItem(href: string, caption: string)

  datatype HeroStat = HeroStat(caption: string, value: string)

  /** One configured redirect: `from` may end in the wildcard suffix (slash, star) for a prefix match. */
  datatype RedirectRule = RedirectRule(from: string, to: string, status: int)

  datatype SocialLink = SocialLink(platform: string, url: string)

  datatype ProjectPhase = Planning | Development | Testing | Staging | Production | Maintenance

  /** One block of page body: raw HTML with a stable id. */
  datatype Section = Section(id: string, content: string)

  /** One entry of `pages`, keyed by page name. */
  datatype PageEntry = PageEntry(
    pageName: string,
    pageTitle: string,
    pageDescription: string,
    sections: seq<Section>,
    isPublished: bool,
    metaTitle: Option<string>,
    metaDescription: Option<string>,
    pageSlug: Option<string>,
    metaKeywords: Option<string>,
    ogTitle: Option<string>,
    ogDescription: Option<string>,
    ogImage: Option<string>,
    canonicalUrl: Option<string>,
    isFeatured: Option<bool>,
    sitemapPriority: Option<real>,
    sitemapChangefreq: Option<string>,
    noindex: Option<bool>,
    nofollow: Option<bool>,
    isHidden: Option<bool>,
    requiresAuth: Option<bool>,
    allowedRoles: Option<seq<string>>)

  /** The whole configuration record (`SiteConfig`). */
  datatype SiteConfig = SiteConfig(
    themeName: Option<string>,
    appName: string,
    appAuthor: Option<string>,
    appDescription: Option<string>,
    tagline: string,
    menuItems: seq<MenuItem>,
    heroTitle: string,
    heroSubtitle: Option<string>,
    heroDescription: string,
    heroBadge: Option<string>,
    heroCTA: Option<string>,
    heroCTALink: Option<string>,
    heroStats: Option<seq<HeroStat>>,
    enableHeroAnimation: Option<bool>,
    heroBackgroundImage: Option<string>,
    heroImageUrl: Option<string>,
    heroVideoUrl: Option<string>,
    footerText: string,
    primaryColor: string,
    ogImage: Option<string>,
    favicon: Option<string>,
    seoTitle: Option<string>,
    seoDescription: Option<string>,
    seoKeywords: Option<string>,
    projectPhase: Option<ProjectPhase>,
    appCategory: Option<string>,
    industry: Option<string>,
    projectTags: Option<seq<string>>,
    expectedLaunchDate: Option<string>,
    actualLaunchDate: Option<string>,
    maintenanceMode: Option<bool>,
    maintenanceMessage: Option<string>,
    sitemapEnabled: Option<bool>,
    robotsTxtCustom: Option<string>,
    redirectRules: Option<seq<RedirectRule>>,
    canonicalDomain: Option<string>,
    cookieConsentEnabled: Option<bool>,
    gdprBannerEnabled: Option<bool>,
    privacyPolicyUrl: Option<string>,
    termsOfServiceUrl: Option<string>,
    notifyOnDeployFailure: Option<bool>,
    notifyOnDeploySuccess: Option<bool>,
    notificationEmail: Option<string>,
    contentLanguage: Option<string>,
    socialMediaLinks: Option<seq<SocialLink>>,
    pages: map<string, PageEntry>)
  {
    /**
     * The `secondaryColor` getter: recomputed from `primaryColor` on every
     * read, so it is always the inverted primary and never stale.
     */
    function SecondaryColor(): (r: Result<string>)
      ensures r.Ok? <==> Colors.IsHexColor(primaryColor)
      ensures r.Err? ==> r.message == Colors.InvalidHexMessage(primaryColor)
      ensures r.Ok? ==> Colors.IsCanonicalHex(r.value) &&
                        Colors.HexToRgb(r.value) == Ok(Colors.Negate(Colors.Channels(primaryColor)))
    {
      Colors.InvertColor(primaryColor)
    }
  }

  /**
   * Inverting the derived secondary colour gives back the primary colour in
   * its lowercase, `#`-prefixed spelling.
   */
  lemma {:induction false} SecondaryInvertsBack(cfg: SiteConfig)
    requires Colors.IsHexColor(cfg.primaryColor)
    ensures cfg.SecondaryColor().Ok?
    ensures Colors.InvertColor(cfg.SecondaryColor().value) == Ok(Colors.Canonical(cfg.primaryColor))
  {
    Colors.InvertInvolution(cfg.primaryColor);
  }
}
