/**
 * The generated page route: the loader's not-found gate, the page-level meta
 * builder, the theme-name dispatch of the page component and of its empty
 * state, the section body and the footer's year substitution.
 */
module PageRoute {
  import opened Wrappers
  import opened JsString
  import opened Config
  import opened MetaTags

  /** The loader's outcome: a thrown 404 response, or the page's data. */
  datatype LoaderResult = NotFound(status: int) | Found(pageData: PageEntry)

  const NotFoundStatus: int := 404

  /** `loader`: the page key must be present in `pages`. */
  function Loader(cfg: SiteConfig, pageKey: string): (r: LoaderResult)
    ensures r.NotFound? <==> pageKey !in cfg.pages
    ensures r.NotFound? ==> r.status == NotFoundStatus
    ensures r.Found? ==> r.pageData == cfg.pages[pageKey]
  {
    if pageKey in cfg.pages then Found(cfg.pages[pageKey]) else NotFound(NotFoundStatus)
  }

  /** The meta title used when the loader produced no data. */
  const NotFoundTitle: string := "Page Not Found"

  /** The separator between page title and site name: space, en dash, space. */
  const TitleSeparator: string := " \U{2013} "

  /** Title: `meta_title`, else page title, en dash and site name. */
  function TemplateTitle(cfg: SiteConfig, page: PageEntry): (t: string)
    ensures Truthy(page.metaTitle) ==> t == page.metaTitle.value
    ensures !Truthy(page.metaTitle) ==> t == page.pageTitle + TitleSeparator + cfg.appName
    ensures t != ""
  {
    OrElse(page.metaTitle, page.pageTitle + TitleSeparator + cfg.appName)
  }

  /** Description: `meta_description`, else `page_description`. */
  function TemplateDescription(page: PageEntry): (d: string)
    ensures Truthy(page.metaDescription) ==> d == page.metaDescription.value
    ensures !Truthy(page.metaDescription) ==> d == page.pageDescription
  {
    OrElse(page.metaDescription, page.pageDescription)
  }

  /** Open Graph title: `og_title`, else the raw page title (not the resolved title). */
  function TemplateOgTitle(page: PageEntry): (t: string)
    ensures Truthy(page.ogTitle) ==> t == page.ogTitle.value
    ensures !Truthy(page.ogTitle) ==> t == page.pageTitle
  {
    OrElse(page.ogTitle, page.pageTitle)
  }

  /** Open Graph description: `og_description`, else the resolved description. */
  function TemplateOgDescription(page: PageEntry): (d: string)
    ensures Truthy(page.ogDescription) ==> d == page.ogDescription.value
    ensures !Truthy(page.ogDescription) ==> d == TemplateDescription(page)
  {
    OrElse(page.ogDescription, TemplateDescription(page))
  }

  /** Open Graph image: `og_image`, else the site image; it may resolve to nothing. */
  function TemplateOgImage(cfg: SiteConfig, page: PageEntry): (i: Option<string>)
    ensures Truthy(i) <==> Truthy(page.ogImage) || Truthy(cfg.ogImage)
    ensures Truthy(page.ogImage) ==> i == page.ogImage
    ensures !Truthy(page.ogImage) ==> i == cfg.ogImage
  {
    OrOptional(page.ogImage, cfg.ogImage)
  }

  /** The robots content from the page's own two flags. */
  function TemplateRobots(page: PageEntry): (r: string)
    ensures r == IndexDirective(IsTrue(page.noindex)) + "," + FollowDirective(IsTrue(page.nofollow))
  {
    RobotsContent(IsTrue(page.noindex), IsTrue(page.nofollow))
  }

  /** The eleven entries every page's meta starts with. */
  function TemplatePrefix(cfg: SiteConfig, page: PageEntry): (prefix: seq<MetaTag>)
    ensures |prefix| == 11 && Keys(prefix) == SharedPrefixKeys
    ensures Value(prefix[0]) == TemplateTitle(cfg, page) && Value(prefix[1]) == TemplateDescription(page)
    ensures Value(prefix[5]) == Value(prefix[8]) == TemplateOgTitle(page)
    ensures Value(prefix[6]) == Value(prefix[9]) == TemplateOgDescription(page)
  {
    [ Title(TemplateTitle(cfg, page)),
      Named("description", TemplateDescription(page)),
      Named("robots", TemplateRobots(page)),
      Property("og:type", "website"),
      Property("og:site_name", cfg.appName),
      Property("og:title", TemplateOgTitle(page)),
      Property("og:description", TemplateOgDescription(page)),
      Named("twitter:card", TwitterCard),
      Named("twitter:title", TemplateOgTitle(page)),
      Named("twitter:description", TemplateOgDescription(page)),
      Named("theme-color", cfg.primaryColor) ]
  }

  /**
   * The entries of the page prefix that carry no resolved text: robots,
   * og:type, site name, twitter card and theme colour, and which entries are
   * a `<title>`, a `name` meta and a `property` meta.
   */
  lemma TemplatePrefixEntries(cfg: SiteConfig, page: PageEntry)
    ensures var prefix := TemplatePrefix(cfg, page);
      Value(prefix[2]) == TemplateRobots(page) && Value(prefix[3]) == "website" &&
      Value(prefix[4]) == cfg.appName && Value(prefix[7]) == TwitterCard && Value(prefix[10]) == cfg.primaryColor
    ensures var prefix := TemplatePrefix(cfg, page);
      prefix[0].Title? && prefix[1].Named? && prefix[2].Named? &&
      prefix[3].Property? && prefix[4].Property? && prefix[5].Property? && prefix[6].Property? &&
      prefix[7].Named? && prefix[8].Named? && prefix[9].Named? && prefix[10].Named?
  {
  }

  /**
   * The page's meta list: the prefix, then the page's own keywords, the
   * image pair and the page's canonical link, each only when it resolves.
   */
  function TemplateMetaTags(cfg: SiteConfig, page: PageEntry): (tags: seq<MetaTag>)
    ensures var image := TemplateOgImage(cfg, page);
      var k, m := Count(Truthy(page.metaKeywords)), 2 * Count(Truthy(image));
      |tags| == 11 + k + m + Count(Truthy(page.canonicalUrl)) &&
      tags[..11] == TemplatePrefix(cfg, page) &&
      (Truthy(page.metaKeywords) ==> tags[11] == Named("keywords", page.metaKeywords.value)) &&
      (Truthy(image) ==> tags[11 + k] == Property("og:image", image.value) &&
                         tags[12 + k] == Named("twitter:image", image.value)) &&
      (Truthy(page.canonicalUrl) ==> tags[11 + k + m] == Link("canonical", page.canonicalUrl.value))
  {
    TemplatePrefix(cfg, page) + KeywordsTags(page.metaKeywords)
    + ImageTags(TemplateOgImage(cfg, page)) + LinkTags("canonical", page.canonicalUrl)
  }

  /** A favicon link entry. */
  predicate HasIcon(tags: seq<MetaTag>) {
    exists i :: 0 <= i < |tags| && tags[i].Link? && tags[i].rel == "icon"
  }

  /** A content-language entry. */
  predicate HasLanguage(tags: seq<MetaTag>) {
    exists i :: 0 <= i < |tags| && tags[i].HttpEquiv?
  }

  /**
   * A page's meta has 11 to 15 entries, never a favicon or content-language
   * entry, and the image pair adjacent with one value exactly when the page
   * or the site has an image.
   */
  lemma TemplateMetaShape(cfg: SiteConfig, page: PageEntry)
    ensures var tags := TemplateMetaTags(cfg, page);
      11 <= |tags| <= 15 && !HasIcon(tags) && !HasLanguage(tags) &&
      ImagesPaired(tags) &&
      (HasImage(tags) <==> Truthy(page.ogImage) || Truthy(cfg.ogImage))
  {
    var p := TemplatePrefix(cfg, page);
    var k := KeywordsTags(page.metaKeywords);
    var m := ImageTags(TemplateOgImage(cfg, page));
    var c := LinkTags("canonical", page.canonicalUrl);
    NoImageEntryConcat(p, k);
    ImagesPairedAround(p + k, TemplateOgImage(cfg, page), c);
    var tags := TemplateMetaTags(cfg, page);
    assert tags == p + k + m + c;
    forall i | 0 <= i < |tags|
      ensures !(tags[i].Link? && tags[i].rel == "icon") && !tags[i].HttpEquiv?
    {
      if i < |p| {
        assert tags[i] == p[i];
      } else if i < |p| + |k| {
        assert tags[i] == k[i - |p|];
      } else if i < |p| + |k| + |m| {
        assert tags[i] == m[i - |p| - |k|];
      } else {
        assert tags[i] == c[i - |p| - |k| - |m|];
      }
    }
  }

  /** `meta`: one not-found title without loader data, else the page's list. */
  method Meta(cfg: SiteConfig, data: Option<PageEntry>) returns (metaTags: seq<MetaTag>)
    ensures data.None? ==> metaTags == [Title(NotFoundTitle)]
    ensures data.Some? ==> metaTags == TemplateMetaTags(cfg, data.value)
  {
    if data.None? {
      return [Title(NotFoundTitle)];
    }
    var pageData := data.value;
    var title := TemplateTitle(cfg, pageData);
    var description := TemplateDescription(pageData);
    var ogTitle := TemplateOgTitle(pageData);
    var ogDescription := TemplateOgDescription(pageData);
    var ogImage := TemplateOgImage(cfg, pageData);
    var keywords := pageData.metaKeywords;
    var canonical := pageData.canonicalUrl;
    var robotsContent := TemplateRobots(pageData);

    metaTags := [
      Title(title),
      Named("description", description),
      Named("robots", robotsContent),
      Property("og:type", "website"),
      Property("og:site_name", cfg.appName),
      Property("og:title", ogTitle),
      Property("og:description", ogDescription),
      Named("twitter:card", TwitterCard),
      Named("twitter:title", ogTitle),
      Named("twitter:description", ogDescription),
      Named("theme-color", cfg.primaryColor)
    ];
    ghost var expected := metaTags;

    if Truthy(keywords) {
      metaTags := metaTags + [Named("keywords", keywords.value)];
    }
    expected := expected + KeywordsTags(keywords);
    assert metaTags == expected;

    if Truthy(ogImage) {
      metaTags := metaTags + [Property("og:image", ogImage.value)];
      metaTags := metaTags + [Named("twitter:image", ogImage.value)];
    }
    expected := expected + ImageTags(ogImage);
    assert metaTags == expected;

    if Truthy(canonical) {
      metaTags := metaTags + [Link("canonical", canonical.value)];
    }
    expected := expected + LinkTags("canonical", canonical);
    assert metaTags == expected;
  }

  /** The three page layouts the component can render. */
  datatype Layout = GlassLayout | ClassicLayout | EnterpriseLayout

  /**
   * The component's dispatch on `themeName`: glass for `'Glassmorphism'`
   * and its alias `'Modern'`, then enterprise, then classic, and glass
   * again as the fallback for every other name and for an absent one.
   */
  function SelectLayout(themeName: Option<string>): (l: Layout)
    ensures l == ClassicLayout <==> themeName == Some("Classic")
    ensures l == EnterpriseLayout <==> themeName == Some("Enterprise")
    ensures l == GlassLayout <==> themeName != Some("Classic") && themeName != Some("Enterprise")
  {
    var isGlassmorphism := themeName == Some("Glassmorphism") || themeName == Some("Modern");
    var isClassic := themeName == Some("Classic");
    var isEnterprise := themeName == Some("Enterprise");
    if isGlassmorphism then GlassLayout
    else if isEnterprise then EnterpriseLayout
    else if isClassic then ClassicLayout
    else GlassLayout
  }

  /** The placeholder shown for a page without sections. */
  datatype EmptyStateVariant = EnterpriseEmpty | ClassicEmpty | DefaultEmpty

  /** `EmptyState`: enterprise first, then classic, and the default variant for every other name. */
  function SelectEmptyState(themeName: Option<string>): (v: EmptyStateVariant)
    ensures v == EnterpriseEmpty <==> themeName == Some("Enterprise")
    ensures v == ClassicEmpty <==> themeName == Some("Classic")
  {
    if themeName == Some("Enterprise") then EnterpriseEmpty
    else if themeName == Some("Classic") then ClassicEmpty
    else DefaultEmpty
  }

  /** The placeholder that belongs to each layout. */
  function LayoutEmptyState(l: Layout): EmptyStateVariant {
    match l
    case GlassLayout => DefaultEmpty
    case ClassicLayout => ClassicEmpty
    case EnterpriseLayout => EnterpriseEmpty
  }

  /** The two dispatches agree: every layout shows its own placeholder. */
  lemma EmptyStateMatchesLayout(themeName: Option<string>)
    ensures SelectEmptyState(themeName) == LayoutEmptyState(SelectLayout(themeName))
  {
  }

  /** One rendered section: its key and its verbatim HTML. */
  datatype Article = Article(key: string, html: string)

  /** The page body: the sections in list order, or the placeholder when there are none. */
  datatype Body = Articles(articles: seq<Article>) | Placeholder(variant: EmptyStateVariant)

  function RenderSections(sections: seq<Section>): (articles: seq<Article>)
    ensures |articles| == |sections|
    ensures forall i :: 0 <= i < |sections| ==>
      articles[i].key == sections[i].id && articles[i].html == sections[i].content
  {
    if |sections| == 0 then []
    else [Article(sections[0].id, sections[0].content)] + RenderSections(sections[1..])
  }

  /** The content card: the articles for a page with sections, else the theme's placeholder. */
  function PageBody(cfg: SiteConfig, page: PageEntry): (b: Body)
    ensures b.Placeholder? <==> |page.sections| == 0
    ensures b.Placeholder? ==> b.variant == SelectEmptyState(cfg.themeName)
    ensures b.Articles? ==> |b.articles| == |page.sections|
    ensures b.Articles? ==>
      forall i :: 0 <= i < |page.sections| ==> b.articles[i] == Article(page.sections[i].id, page.sections[i].content)
  {
    if |page.sections| > 0 then Articles(RenderSections(page.sections))
    else Placeholder(SelectEmptyState(cfg.themeName))
  }

  /** The literal the footer's year placeholder is written as. */
  const YearPlaceholder: string := "2024"

  /** The footer line: the first `'2024'` replaced by the current year in decimal. */
  function FooterText(cfg: SiteConfig, year: nat): (footer: string)
    ensures IndexOf(cfg.footerText, YearPlaceholder).None? ==> footer == cfg.footerText
    ensures IndexOf(cfg.footerText, YearPlaceholder).Some? ==>
      var i := IndexOf(cfg.footerText, YearPlaceholder).value;
      footer == cfg.footerText[..i] + NumberToString(year, 10) + cfg.footerText[i + 4..]
  {
    ReplaceFirst(cfg.footerText, YearPlaceholder, NumberToString(year, 10))
  }

  /** Only the first placeholder is replaced: everything after it is kept, later placeholders included. */
  lemma FooterReplacesFirstOnly(cfg: SiteConfig, year: nat, before: string, after: string)
    requires cfg.footerText == before + YearPlaceholder + after
    requires forall j :: 0 <= j ==> !OccursAt(before + YearPlaceholder[..3], YearPlaceholder, j)
    ensures FooterText(cfg, year) == before + NumberToString(year, 10) + after
  {
    var s := cfg.footerText;
    var i := |before|;
    assert OccursAt(s, YearPlaceholder, i) by {
      assert s[i..i + 4] == YearPlaceholder;
    }
    forall j | 0 <= j < i
      ensures !OccursAt(s, YearPlaceholder, j)
    {
      var t := before + YearPlaceholder[..3];
      assert !OccursAt(t, YearPlaceholder, j);
      assert s[j..j + 4] == t[j..j + 4];
    }
    assert s[..i] == before;
    assert s[i + 4..] == after;
  }
}
