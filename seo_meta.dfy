/**
 * `generateSEOMeta`: the site-wide meta builder. Every field falls back
 * through "first non-empty wins" chains; the result starts with eleven fixed
 * entries and then appends optional ones in a fixed order.
 */
module SeoMeta {
  import opened Wrappers
  import opened JsString
  import opened Config
  import opened MetaTags

  datatype OgType = Website | Article

  /** The `SEOMetaOptions` argument; every field may be left out. */
  datatype SeoMetaOptions = SeoMetaOptions(
    title: Option<string>,
    description: Option<string>,
    keywords: Option<string>,
    ogTitle: Option<string>,
    ogDescription: Option<string>,
    ogImage: Option<string>,
    canonicalUrl: Option<string>,
    noindex: Option<bool>,
    nofollow: Option<bool>,
    ogType: Option<OgType>)

  /** The og:type content; an absent type defaults to `'website'`. */
  function OgTypeContent(t: Option<OgType>): (s: string)
    ensures t.None? || t == Some(Website) ==> s == "website"
    ensures t == Some(Article) ==> s == "article"
  {
    match t
    case None => "website"
    case Some(Website) => "website"
    case Some(Article) => "article"
  }

  /** Title: the first non-empty of `options.title`, `seoTitle`, `appName`. */
  function FinalTitle(cfg: SiteConfig, options: SeoMetaOptions): (t: string)
    ensures Truthy(options.title) ==> t == options.title.value
    ensures !Truthy(options.title) && Truthy(cfg.seoTitle) ==> t == cfg.seoTitle.value
    ensures !Truthy(options.title) && !Truthy(cfg.seoTitle) ==> t == cfg.appName
    ensures cfg.appName != "" ==> t != ""
  {
    OrElse(options.title, OrElse(cfg.seoTitle, cfg.appName))
  }

  /** Description: the first non-empty of `options.description`, `seoDescription`, `heroDescription`. */
  function FinalDescription(cfg: SiteConfig, options: SeoMetaOptions): (d: string)
    ensures Truthy(options.description) ==> d == options.description.value
    ensures !Truthy(options.description) && Truthy(cfg.seoDescription) ==> d == cfg.seoDescription.value
    ensures !Truthy(options.description) && !Truthy(cfg.seoDescription) ==> d == cfg.heroDescription
    ensures cfg.heroDescription != "" ==> d != ""
  {
    OrElse(options.description, OrElse(cfg.seoDescription, cfg.heroDescription))
  }

  /** Open Graph (and Twitter) title: `options.ogTitle`, else the resolved title. */
  function FinalOgTitle(cfg: SiteConfig, options: SeoMetaOptions): (t: string)
    ensures Truthy(options.ogTitle) ==> t == options.ogTitle.value
    ensures !Truthy(options.ogTitle) ==> t == FinalTitle(cfg, options)
  {
    OrElse(options.ogTitle, FinalTitle(cfg, options))
  }

  /** Open Graph (and Twitter) description: `options.ogDescription`, else the resolved description. */
  function FinalOgDescription(cfg: SiteConfig, options: SeoMetaOptions): (d: string)
    ensures Truthy(options.ogDescription) ==> d == options.ogDescription.value
    ensures !Truthy(options.ogDescription) ==> d == FinalDescription(cfg, options)
  {
    OrElse(options.ogDescription, FinalDescription(cfg, options))
  }

  /** Image: `options.ogImage`, else the site `ogImage`; it may resolve to nothing. */
  function FinalOgImage(cfg: SiteConfig, options: SeoMetaOptions): (i: Option<string>)
    ensures Truthy(i) <==> Truthy(options.ogImage) || Truthy(cfg.ogImage)
    ensures Truthy(options.ogImage) ==> i == options.ogImage
    ensures !Truthy(options.ogImage) ==> i == cfg.ogImage
  {
    OrOptional(options.ogImage, cfg.ogImage)
  }

  /** Keywords: `options.keywords`, else the site `seoKeywords`; it may resolve to nothing. */
  function FinalKeywords(cfg: SiteConfig, options: SeoMetaOptions): (k: Option<string>)
    ensures Truthy(k) <==> Truthy(options.keywords) || Truthy(cfg.seoKeywords)
    ensures Truthy(options.keywords) ==> k == options.keywords
    ensures !Truthy(options.keywords) ==> k == cfg.seoKeywords
  {
    OrOptional(options.keywords, cfg.seoKeywords)
  }

  /** The robots content from the two flags, each defaulting to false. */
  function SeoRobots(options: SeoMetaOptions): (r: string)
    ensures r == RobotsContent(IsTrue(options.noindex), IsTrue(options.nofollow))
    ensures options.noindex != Some(true) && options.nofollow != Some(true) ==> r == "index,follow"
  {
    RobotsContent(IsTrue(options.noindex), IsTrue(options.nofollow))
  }

  /** The eleven entries every result starts with, in this order. */
  function SeoPrefix(cfg: SiteConfig, options: SeoMetaOptions): (prefix: seq<MetaTag>)
    ensures |prefix| == 11 && Keys(prefix) == SharedPrefixKeys
    ensures Value(prefix[0]) == FinalTitle(cfg, options) && Value(prefix[1]) == FinalDescription(cfg, options)
    ensures Value(prefix[5]) == Value(prefix[8]) == FinalOgTitle(cfg, options)
    ensures Value(prefix[6]) == Value(prefix[9]) == FinalOgDescription(cfg, options)
  {
    [ Title(FinalTitle(cfg, options)),
      Named("description", FinalDescription(cfg, options)),
      Named("robots", SeoRobots(options)),
      Property("og:type", OgTypeContent(options.ogType)),
      Property("og:site_name", cfg.appName),
      Property("og:title", FinalOgTitle(cfg, options)),
      Property("og:description", FinalOgDescription(cfg, options)),
      Named("twitter:card", TwitterCard),
      Named("twitter:title", FinalOgTitle(cfg, options)),
      Named("twitter:description", FinalOgDescription(cfg, options)),
      Named("theme-color", cfg.primaryColor) ]
  }

  /**
   * The entries of the prefix that carry no resolved text: robots, og:type,
   * site name, twitter card and theme colour, and which entries are a
   * `<title>`, a `name` meta and a `property` meta.
   */
  lemma SeoPrefixEntries(cfg: SiteConfig, options: SeoMetaOptions)
    ensures var prefix := SeoPrefix(cfg, options);
      Value(prefix[2]) == SeoRobots(options) && Value(prefix[3]) == OgTypeContent(options.ogType) &&
      Value(prefix[4]) == cfg.appName && Value(prefix[7]) == TwitterCard && Value(prefix[10]) == cfg.primaryColor
    ensures var prefix := SeoPrefix(cfg, options);
      prefix[0].Title? && prefix[1].Named? && prefix[2].Named? &&
      prefix[3].Property? && prefix[4].Property? && prefix[5].Property? && prefix[6].Property? &&
      prefix[7].Named? && prefix[8].Named? && prefix[9].Named? && prefix[10].Named?
  {
  }

  /**
   * The list `generateSEOMeta` returns: the eleven fixed entries, then
   * keywords, the image pair, canonical, favicon and content-language, each
   * only when it resolves. The canonical link has no site-level fallback.
   */
  function SeoMetaTags(cfg: SiteConfig, options: SeoMetaOptions): (tags: seq<MetaTag>)
    ensures var keywords, image := FinalKeywords(cfg, options), FinalOgImage(cfg, options);
      var k, m := Count(Truthy(keywords)), 2 * Count(Truthy(image));
      var c, f := Count(Truthy(options.canonicalUrl)), Count(Truthy(cfg.favicon));
      |tags| == 11 + k + m + c + f + Count(Truthy(cfg.contentLanguage)) &&
      tags[..11] == SeoPrefix(cfg, options) &&
      (Truthy(keywords) ==> tags[11] == Named("keywords", keywords.value)) &&
      (Truthy(image) ==> tags[11 + k] == Property("og:image", image.value) &&
                         tags[12 + k] == Named("twitter:image", image.value)) &&
      (Truthy(options.canonicalUrl) ==> tags[11 + k + m] == Link("canonical", options.canonicalUrl.value)) &&
      (Truthy(cfg.favicon) ==> tags[11 + k + m + c] == Link("icon", cfg.favicon.value)) &&
      (Truthy(cfg.contentLanguage) ==> tags[11 + k + m + c + f] == HttpEquiv("content-language", cfg.contentLanguage.value))
  {
    SeoPrefix(cfg, options)
    + KeywordsTags(FinalKeywords(cfg, options)) + ImageTags(FinalOgImage(cfg, options))
    + LinkTags("canonical", options.canonicalUrl) + LinkTags("icon", cfg.favicon)
    + LanguageTags(cfg.contentLanguage)
  }

  /**
   * The result has between 11 and 17 entries, starts with the title, and
   * holds the og:image/twitter:image pair, adjacent and with one value,
   * exactly when an image resolves from the options or the site.
   */
  lemma SeoMetaShape(cfg: SiteConfig, options: SeoMetaOptions)
    ensures var tags := SeoMetaTags(cfg, options);
      11 <= |tags| <= 17 && tags[0] == Title(FinalTitle(cfg, options)) &&
      ImagesPaired(tags) &&
      (HasImage(tags) <==> Truthy(options.ogImage) || Truthy(cfg.ogImage))
  {
    var p := SeoPrefix(cfg, options);
    var k := KeywordsTags(FinalKeywords(cfg, options));
    var c := LinkTags("canonical", options.canonicalUrl);
    var f := LinkTags("icon", cfg.favicon);
    var l := LanguageTags(cfg.contentLanguage);
    NoImageEntryConcat(p, k);
    NoImageEntryConcat(c, f);
    NoImageEntryConcat(c + f, l);
    var img := FinalOgImage(cfg, options);
    ImagesPairedAround(p + k, img, c + f + l);
    assert SeoMetaTags(cfg, options) == (p + k) + ImageTags(img) + (c + f + l);
  }

  /** `generateSEOMeta`, building its list with conditional pushes. */
  method GenerateSeoMeta(cfg: SiteConfig, options: SeoMetaOptions) returns (metaTags: seq<MetaTag>)
    ensures metaTags == SeoMetaTags(cfg, options)
  {
    var finalTitle := FinalTitle(cfg, options);
    var finalDescription := FinalDescription(cfg, options);
    var finalOgTitle := FinalOgTitle(cfg, options);
    var finalOgDescription := FinalOgDescription(cfg, options);
    var finalOgImage := FinalOgImage(cfg, options);
    var finalKeywords := FinalKeywords(cfg, options);
    var robotsContent := SeoRobots(options);

    metaTags := [
      Title(finalTitle),
      Named("description", finalDescription),
      Named("robots", robotsContent),
      Property("og:type", OgTypeContent(options.ogType)),
      Property("og:site_name", cfg.appName),
      Property("og:title", finalOgTitle),
      Property("og:description", finalOgDescription),
      Named("twitter:card", TwitterCard),
      Named("twitter:title", finalOgTitle),
      Named("twitter:description", finalOgDescription),
      Named("theme-color", cfg.primaryColor)
    ];
    ghost var expected := metaTags;

    if Truthy(finalKeywords) {
      metaTags := metaTags + [Named("keywords", finalKeywords.value)];
    }
    expected := expected + KeywordsTags(finalKeywords);
    assert metaTags == expected;

    if Truthy(finalOgImage) {
      metaTags := metaTags + [Property("og:image", finalOgImage.value)];
      metaTags := metaTags + [Named("twitter:image", finalOgImage.value)];
    }
    expected := expected + ImageTags(finalOgImage);
    assert metaTags == expected;

    if Truthy(options.canonicalUrl) {
      metaTags := metaTags + [Link("canonical", options.canonicalUrl.value)];
    }
    expected := expected + LinkTags("canonical", options.canonicalUrl);
    assert metaTags == expected;

    if Truthy(cfg.favicon) {
      metaTags := metaTags + [Link("icon", cfg.favicon.value)];
    }
    expected := expected + LinkTags("icon", cfg.favicon);
    assert metaTags == expected;

    if Truthy(cfg.contentLanguage) {
      metaTags := metaTags + [HttpEquiv("content-language", cfg.contentLanguage.value)];
    }
    expected := expected + LanguageTags(cfg.contentLanguage);
    assert metaTags == expected;
  }
}
