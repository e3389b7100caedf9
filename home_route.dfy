/**
 * The index route: the home page's meta builder, which falls back from the
 * optional `home` page entry to site-wide fields, and the theme it renders.
 */
module HomeRoute {
  import opened Wrappers
  import opened JsString
  import opened Config
  import opened MetaTags
  import PageRoute

  /** The page-level overrides the home meta reads through optional chaining. */
  datatype HomeOverrides = HomeOverrides(
    metaTitle: Option<string>,
    metaDescription: Option<string>,
    ogTitle: Option<string>,
    ogDescription: Option<string>,
    ogImage: Option<string>,
    metaKeywords: Option<string>,
    canonicalUrl: Option<string>,
    noindex: Option<bool>,
    nofollow: Option<bool>)

  /**
   * `pages?.home`, read field by field: without a `home` entry every
   * override is absent; with one, each is that entry's field.
   */
  function OverridesOf(cfg: SiteConfig): (o: HomeOverrides)
    ensures "home" !in cfg.pages ==>
      o == HomeOverrides(None, None, None, None, None, None, None, None, None)
    ensures "home" in cfg.pages ==>
      var home := cfg.pages["home"];
      o.metaTitle == home.metaTitle && o.metaDescription == home.metaDescription &&
      o.ogTitle == home.ogTitle && o.ogDescription == home.ogDescription &&
      o.ogImage == home.ogImage && o.metaKeywords == home.metaKeywords &&
      o.canonicalUrl == home.canonicalUrl && o.noindex == home.noindex && o.nofollow == home.nofollow
  {
    if "home" in cfg.pages then
      var home := cfg.pages["home"];
      HomeOverrides(home.metaTitle, home.metaDescription, home.ogTitle, home.ogDescription,
                    home.ogImage, home.metaKeywords, home.canonicalUrl, home.noindex, home.nofollow)
    else
      HomeOverrides(None, None, None, None, None, None, None, None, None)
  }

  /** Title: home `meta_title`, else the site name with `' – ' + tagline` when there is a tagline. */
  function HomeTitle(cfg: SiteConfig): (t: string)
    ensures Truthy(OverridesOf(cfg).metaTitle) ==> t == OverridesOf(cfg).metaTitle.value
    ensures !Truthy(OverridesOf(cfg).metaTitle) && cfg.tagline != "" ==>
      t == cfg.appName + PageRoute.TitleSeparator + cfg.tagline
    ensures !Truthy(OverridesOf(cfg).metaTitle) && cfg.tagline == "" ==> t == cfg.appName
  {
    OrElse(OverridesOf(cfg).metaTitle,
           cfg.appName + (if cfg.tagline != "" then PageRoute.TitleSeparator + cfg.tagline else ""))
  }

  /** The last-resort description. */
  function HomepageDescription(cfg: SiteConfig): string {
    cfg.appName + " homepage"
  }

  /** Description: the first non-empty of home `meta_description`, `heroDescription`, `tagline`, `'<appName> homepage'`. */
  function HomeDescription(cfg: SiteConfig): (d: string)
    ensures Truthy(OverridesOf(cfg).metaDescription) ==> d == OverridesOf(cfg).metaDescription.value
    ensures !Truthy(OverridesOf(cfg).metaDescription) && cfg.heroDescription != "" ==> d == cfg.heroDescription
    ensures !Truthy(OverridesOf(cfg).metaDescription) && cfg.heroDescription == "" && cfg.tagline != "" ==>
      d == cfg.tagline
    ensures !Truthy(OverridesOf(cfg).metaDescription) && cfg.heroDescription == "" && cfg.tagline == "" ==>
      d == HomepageDescription(cfg)
    ensures d != ""
  {
    OrElse(OverridesOf(cfg).metaDescription, Or(cfg.heroDescription, Or(cfg.tagline, HomepageDescription(cfg))))
  }

  /** Open Graph title: the first non-empty of home `og_title`, `heroTitle`, the resolved title. */
  function HomeOgTitle(cfg: SiteConfig): (t: string)
    ensures Truthy(OverridesOf(cfg).ogTitle) ==> t == OverridesOf(cfg).ogTitle.value
    ensures !Truthy(OverridesOf(cfg).ogTitle) && cfg.heroTitle != "" ==> t == cfg.heroTitle
    ensures !Truthy(OverridesOf(cfg).ogTitle) && cfg.heroTitle == "" ==> t == HomeTitle(cfg)
  {
    OrElse(OverridesOf(cfg).ogTitle, Or(cfg.heroTitle, HomeTitle(cfg)))
  }

  /** Open Graph description: home `og_description`, else the resolved description. */
  function HomeOgDescription(cfg: SiteConfig): (d: string)
    ensures Truthy(OverridesOf(cfg).ogDescription) ==> d == OverridesOf(cfg).ogDescription.value
    ensures !Truthy(OverridesOf(cfg).ogDescription) ==> d == HomeDescription(cfg)
    ensures d != ""
  {
    OrElse(OverridesOf(cfg).ogDescription, HomeDescription(cfg))
  }

  /** Open Graph image: home `og_image`, else the site image; it may resolve to nothing. */
  function HomeOgImage(cfg: SiteConfig): (i: Option<string>)
    ensures Truthy(i) <==> Truthy(OverridesOf(cfg).ogImage) || Truthy(cfg.ogImage)
    ensures Truthy(OverridesOf(cfg).ogImage) ==> i == OverridesOf(cfg).ogImage
    ensures !Truthy(OverridesOf(cfg).ogImage) ==> i == cfg.ogImage
  {
    OrOptional(OverridesOf(cfg).ogImage, cfg.ogImage)
  }

  /** The builder's own keywords, always part of the home keywords. */
  const DecimalKeywords: string :=
    "decimal.tools, remix website builder, no-code website builder, remix app generator, website builder"

  const GeneratorContent: string := "Decimal.tools - Remix Website Builder"

  /** User keywords: home `meta_keywords`, else `seoKeywords`, else empty. */
  function UserKeywords(cfg: SiteConfig): (k: string)
    ensures Truthy(OverridesOf(cfg).metaKeywords) ==> k == OverridesOf(cfg).metaKeywords.value
    ensures !Truthy(OverridesOf(cfg).metaKeywords) && Truthy(cfg.seoKeywords) ==> k == cfg.seoKeywords.value
    ensures !Truthy(OverridesOf(cfg).metaKeywords) && !Truthy(cfg.seoKeywords) ==> k == ""
  {
    OrElse(OverridesOf(cfg).metaKeywords, OrElse(cfg.seoKeywords, ""))
  }

  /** Keywords: the fixed list alone without user keywords, otherwise the user's, a comma, and the fixed list. */
  function HomeKeywords(cfg: SiteConfig): (k: string)
    ensures UserKeywords(cfg) == "" ==> k == DecimalKeywords
    ensures UserKeywords(cfg) != "" ==> k == UserKeywords(cfg) + ", " + DecimalKeywords
    ensures EndsWith(k, DecimalKeywords)
  {
    var userKeywords := UserKeywords(cfg);
    var k := if userKeywords != "" then userKeywords + ", " + DecimalKeywords else DecimalKeywords;
    assert k[|k| - |DecimalKeywords|..] == DecimalKeywords;
    k
  }

  /** The robots content from the home entry's two flags, both false without a home entry. */
  function HomeRobots(cfg: SiteConfig): (r: string)
    ensures r == IndexDirective(IsTrue(OverridesOf(cfg).noindex)) + "," + FollowDirective(IsTrue(OverridesOf(cfg).nofollow))
    ensures "home" !in cfg.pages ==> r == "index,follow"
  {
    RobotsContent(IsTrue(OverridesOf(cfg).noindex), IsTrue(OverridesOf(cfg).nofollow))
  }

  /** The order of the thirteen entries the home meta starts with. */
  const HomePrefixKeys: seq<string> := [
    "title", "description", "robots", "keywords", "generator", "og:type", "og:site_name", "og:title",
    "og:description", "twitter:card", "twitter:title", "twitter:description", "theme-color"]

  /** The thirteen entries the home meta starts with. */
  function HomePrefix(cfg: SiteConfig): (prefix: seq<MetaTag>)
    ensures |prefix| == 13 && Keys(prefix) == HomePrefixKeys
    ensures Value(prefix[0]) == HomeTitle(cfg) && Value(prefix[1]) == HomeDescription(cfg)
    ensures Value(prefix[3]) == HomeKeywords(cfg)
    ensures Value(prefix[7]) == Value(prefix[10]) == HomeOgTitle(cfg)
    ensures Value(prefix[8]) == Value(prefix[11]) == HomeOgDescription(cfg)
  {
    [ Title(HomeTitle(cfg)),
      Named("description", HomeDescription(cfg)),
      Named("robots", HomeRobots(cfg)),
      Named("keywords", HomeKeywords(cfg)),
      Named("generator", GeneratorContent),
      Property("og:type", "website"),
      Property("og:site_name", cfg.appName),
      Property("og:title", HomeOgTitle(cfg)),
      Property("og:description", HomeOgDescription(cfg)),
      Named("twitter:card", TwitterCard),
      Named("twitter:title", HomeOgTitle(cfg)),
      Named("twitter:description", HomeOgDescription(cfg)),
      Named("theme-color", cfg.primaryColor) ]
  }

  /**
   * The entries of the home prefix that carry no resolved text: robots,
   * generator, og:type, site name, twitter card and theme colour, and which
   * entries are a `<title>`, a `name` meta and a `property` meta.
   */
  lemma HomePrefixEntries(cfg: SiteConfig)
    ensures var prefix := HomePrefix(cfg);
      Value(prefix[2]) == HomeRobots(cfg) && Value(prefix[4]) == GeneratorContent && Value(prefix[5]) == "website" &&
      Value(prefix[6]) == cfg.appName && Value(prefix[9]) == TwitterCard && Value(prefix[12]) == cfg.primaryColor
    ensures var prefix := HomePrefix(cfg);
      prefix[0].Title? && prefix[1].Named? && prefix[2].Named? && prefix[3].Named? && prefix[4].Named? &&
      prefix[5].Property? && prefix[6].Property? && prefix[7].Property? && prefix[8].Property? &&
      prefix[9].Named? && prefix[10].Named? && prefix[11].Named? && prefix[12].Named?
  {
  }

  /** The home meta list: the prefix, the image pair when an image resolves, the canonical link when set. */
  function HomeMetaTags(cfg: SiteConfig): (tags: seq<MetaTag>)
    ensures var image, canonical := HomeOgImage(cfg), OverridesOf(cfg).canonicalUrl;
      var m := 2 * Count(Truthy(image));
      |tags| == 13 + m + Count(Truthy(canonical)) &&
      tags[..13] == HomePrefix(cfg) &&
      (Truthy(image) ==> tags[13] == Property("og:image", image.value) &&
                         tags[14] == Named("twitter:image", image.value)) &&
      (Truthy(canonical) ==> tags[13 + m] == Link("canonical", canonical.value))
  {
    HomePrefix(cfg) + ImageTags(HomeOgImage(cfg)) + LinkTags("canonical", OverridesOf(cfg).canonicalUrl)
  }

  /**
   * The home meta has 13 to 16 entries, always carries the keywords (ending
   * in the fixed list) and the generator at positions 3 and 4, and holds the
   * image pair, adjacent and with one value, exactly when an image resolves.
   */
  lemma HomeMetaShape(cfg: SiteConfig)
    ensures var tags := HomeMetaTags(cfg);
      13 <= |tags| <= 16 &&
      tags[3] == Named("keywords", HomeKeywords(cfg)) && EndsWith(tags[3].content, DecimalKeywords) &&
      tags[4] == Named("generator", GeneratorContent) &&
      ImagesPaired(tags) &&
      (HasImage(tags) <==> Truthy(OverridesOf(cfg).ogImage) || Truthy(cfg.ogImage))
  {
    var prefix := HomePrefix(cfg);
    assert HomeMetaTags(cfg)[3] == prefix[3] && HomeMetaTags(cfg)[4] == prefix[4];
    ImagesPairedAround(prefix, HomeOgImage(cfg), LinkTags("canonical", OverridesOf(cfg).canonicalUrl));
  }

  /** `meta` of the index route, building its list with conditional pushes. */
  method Meta(cfg: SiteConfig) returns (metaTags: seq<MetaTag>)
    ensures metaTags == HomeMetaTags(cfg)
  {
    var title := HomeTitle(cfg);
    var description := HomeDescription(cfg);
    var ogTitle := HomeOgTitle(cfg);
    var ogDescription := HomeOgDescription(cfg);
    var ogImage := HomeOgImage(cfg);
    var keywords := HomeKeywords(cfg);
    var canonical := OverridesOf(cfg).canonicalUrl;
    var robotsContent := HomeRobots(cfg);

    metaTags := [
      Title(title),
      Named("description", description),
      Named("robots", robotsContent),
      Named("keywords", keywords),
      Named("generator", GeneratorContent),
      Property("og:type", "website"),
      Property("og:site_name", cfg.appName),
      Property("og:title", ogTitle),
      Property("og:description", ogDescription),
      Named("twitter:card", TwitterCard),
      Named("twitter:title", ogTitle),
      Named("twitter:description", ogDescription),
      Named("theme-color", cfg.primaryColor)
    ];
    ghost var expected := metaTags;

    if Truthy(ogImage) {
      metaTags := metaTags + [Property("og:image", ogImage.value)];
      metaTags := metaTags + [Named("twitter:image", ogImage.value)];
    }
    expected := expected + ImageTags(ogImage);
    assert metaTags == expected;

    if Truthy(canonical) {
      metaTags := metaTags + [Link("canonical", canonical.value)];
    }
    expected := expected + LinkTags("canonical", canonical);
    assert metaTags == expected;
  }

  /** The theme `Index` renders. */
  const IndexTheme: string := "Glassmorphism"

  /**
   * `Index`: the Glassmorphism theme (`GlassmorphismTheme`) whatever
   * `themeName` says. The value names which theme renders; it is the same
   * theme the page template falls back to, not a claim that the two routes
   * produce identical markup.
   */
  function IndexLayout(cfg: SiteConfig): (l: PageRoute.Layout)
    ensures l == PageRoute.SelectLayout(Some(IndexTheme))
  {
    PageRoute.GlassLayout
  }

  /** A site whose theme is Classic still gets the glass theme on its home page but not on its other pages. */
  lemma IndexIgnoresThemeName(cfg: SiteConfig)
    requires cfg.themeName == Some("Classic")
    ensures IndexLayout(cfg) != PageRoute.SelectLayout(cfg.themeName)
  {
  }
}
