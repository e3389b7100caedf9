# Site logic of a configuration-driven Remix marketing site

The site is driven by one immutable configuration record (`SiteConfig`). Around the
markup there is a thin layer of deterministic logic, and this project models it in Dafny
and proves properties of it:

- **Support modules** (`wrappers.dfy`, `js_string.dfy`, `config.dfy`). `Wrappers` holds
  `Option` and `Result`. `JsString` models the JavaScript built-ins the core relies on:
  `||` truthiness (`Truthy`, `OrElse`, `Or`, `OrOptional`), `startsWith`/`endsWith`,
  `indexOf` (`IndexFrom`, `IndexOf`), `String.replace` with a string pattern
  (`ReplaceFirst`) and `Number.prototype.toString(radix)` (`NumberToString`).
  `Config` transcribes the `AppConfig` record and its `secondaryColor` getter.
- **Colours** (`colors.dfy`, module `Colors`). `hexToRgb` parses `#rrggbb`; the `#` is
  optional and the digits are case-insensitive. `rgbToHex` prints lowercase `#rrggbb`.
  `invertColor` maps each channel to `255 - c`. `generateSecondaryColor` and the config's
  `secondaryColor` getter reuse `invertColor`. The theme components carry their own copy
  of `hexToRgb`, which falls back to a fixed colour instead of throwing.
- **Routing policy** (`routing.dfy`, module `Routing`). This covers the maintenance gate,
  the auth and role gate, and the ordered redirect rewriter with its `/*` prefix wildcard.
- **SEO meta** (`meta_tags.dfy`, `seo_meta.dfy`, `page_route.dfy`, `home_route.dfy`). The
  three builders resolve "first non-empty wins" chains with JavaScript `||` truthiness and
  then build a fixed prefix of entries with conditional appends. Each builder is a method
  that pushes entries the way the source does. Its `ensures` ties the result to a
  specification function, and lemmas prove the shape of that function.
- **Page template** (`page_route.dfy`). It models the loader's 404 gate, the theme-name
  dispatch with the `'Modern'` alias, the empty-state choice, the section list and the
  first-occurrence `'2024'` substitution in the footer.
- **Consent banners** (`gdpr_banner.dfy`, `cookie_consent.dfy`, `client_storage.dfy`).
  Each banner is a class:
  - fields hold the component state;
  - a `map` stands in for `localStorage`;
  - a `seq` of event names stands in for `window.dispatchEvent`;
  - each handler's `ensures` states exactly what is written, emitted and kept.
- **Theme picker** (`theme_switcher.dfy`). It holds the seven-entry table, the initial
  `find(...) || themes[0]` selection and `handleChange`.

Conventions:

- An optional field (`undefined` in the source) is an `Option`.
- A string is truthy when it is `Some(s)` with `s != ""`.
- An optional boolean is truthy exactly when it is `Some(true)`.
- The configuration is passed to every operation as a parameter.
- The current year is passed as a parameter.
- Strings are `seq<char>`.

## Model

| member | source | states |
|---|---|---|
| `Colors.HexToRgb` | app/utils/colors.ts:10-20 | succeeds iff the input is an optional `#` followed by exactly six hex digits of either case; on success the channels are the pairs' base-16 values; otherwise the error carries `Invalid hex color: <input>` |
| `Colors.Channels` | app/utils/colors.ts:15-19 | each parsed channel lies in 0..255 |
| `Colors.ChannelHex` | app/utils/colors.ts:30-33 | a channel prints as at least two characters: hex digits for a non-negative value, a leading `-` for a negative one |
| `Colors.RgbToHex` | app/utils/colors.ts:29-34 | the output starts with `#` and has at least seven characters |
| `Colors.RgbToHexOfBytes` | app/utils/colors.ts:29-34 | for channels in 0..255 the output is `#` and six lowercase digits, each channel zero-padded to two digits, high nibble first |
| `Colors.HexToRgbOfRgbToHex` | app/utils/colors.ts:10-34 | parsing what `rgbToHex` printed returns the original three bytes |
| `Colors.RgbToHexOfHexToRgb` | app/utils/colors.ts:10-34 | printing a parsed colour gives the input with `#` added if missing and letters lowered |
| `Colors.CanonicalIsFixed` | app/utils/colors.ts:10-34 | a lowercase `#rrggbb` string is accepted and is its own canonical form, so parse-then-print returns it exactly |
| `Colors.InvertColor` | app/utils/colors.ts:41-44 | fails exactly on invalid input, with the parse error; otherwise the result is canonical and parses to `255 - c` per channel |
| `Colors.InvertInvolution` | app/utils/colors.ts:41-44 | inverting twice yields the canonical lowercase, `#`-prefixed form of the input |
| `Colors.InvertInvolutionCanonical` | app/utils/colors.ts:41-44 | on a canonical colour inverting twice is the identity |
| `Colors.GenerateSecondaryColor` | app/utils/colors.ts:51-53 | fails on the same inputs with the same message as `invertColor`; otherwise it is a canonical lowercase `#rrggbb` string that parses to the negated primary channels |
| `Colors.CanonicalDeterminedByChannels` | app/utils/colors.ts:41-53 | two canonical spellings are equal iff they parse to the same channels, so the secondary colour is `invertColor`'s string character for character |
| `Colors.ThemeHexToRgb` | app/themes/shared/GreenTechUI.tsx:37-45 | accepts the same strings as `hexToRgb` with the same channels, and yields `(16,185,129)` instead of throwing |
| `Config.SiteConfig.SecondaryColor` | app/app-config.ts:142-144 | the derived secondary colour exists iff the primary parses; it is then canonical lowercase `#rrggbb` and parses to the negated primary; otherwise it fails with `Invalid hex color: <primary>` |
| `Config.SecondaryInvertsBack` | app/app-config.ts:142-144 | for a valid primary, the secondary colour exists and inverting it gives back the primary in canonical lowercase `#rrggbb` form |
| `Routing.CheckMaintenanceMode` | app/utils/middleware.ts:8-20 | `/maintenance` is never redirected; any other path is redirected to `/maintenance` iff `maintenanceMode` is exactly `true` |
| `Routing.RequiresAuthentication` | app/utils/middleware.ts:26-29 | true iff the page exists and its `requires_auth` is exactly `true`; unknown pages give false |
| `Routing.SomeRoleAllowed` | app/utils/middleware.ts:49 | true iff some user role is in the allowed list, so an empty user-role list gives false |
| `Routing.HasRequiredRole` | app/utils/middleware.ts:34-50 | true for unknown pages and pages without auth; with auth, true iff allowed roles are absent or empty, or some user role is an allowed role |
| `Routing.NoRolesRejected` | app/utils/middleware.ts:44-49 | a user without roles is refused a page that requires auth and lists allowed roles |
| `Routing.RuleMatches` | app/utils/middleware.ts:60-73 | a rule matches its own `from` path; a rule without a trailing `/*` matches exactly its `from`; a `/*` rule matches iff the path starts with the `from` base |
| `Routing.FindRuleFrom` | app/utils/middleware.ts:60-73 | finds the first rule, in list order, that matches exactly or by the wildcard prefix; None iff no rule matches |
| `Routing.RedirectTarget` | app/utils/middleware.ts:76-84 | wildcard-to-wildcard rules append the path remainder after the `from` base to the `to` base; otherwise `to` verbatim |
| `Routing.EffectiveStatus` | app/utils/middleware.ts:86 | the rule's status, or 301 when it is 0 |
| `Routing.ApplyRedirectRules` | app/utils/middleware.ts:55-90 | None iff no rule matches (including no rules); otherwise the redirect of the first matching rule in list order |
| `Routing.WildcardCarriesRemainder` | app/utils/middleware.ts:79-84 | a path `base + rest` under rule `base/*` to `to/*` goes to the `to` base followed by `rest` |
| `Routing.WildcardIsStringPrefix` | app/utils/middleware.ts:67-70 | the wildcard is a plain string prefix: `/old/*` matches `/older` |
| `Routing.FirstMatchWins` | app/utils/middleware.ts:60-63 | when the first rule matches, its redirect is returned whatever later rules say |
| `MetaTags.RobotsContent` | app/components/SEOMeta.tsx:38-40 | robots content is `<index or noindex>,<follow or nofollow>` from the two flags, and `index,follow` when both are false |
| `MetaTags.RobotsContentInjective` | app/components/SEOMeta.tsx:38-40 | the robots content determines both flags |
| `MetaTags.KeywordsTags` | app/components/SEOMeta.tsx:56-58 | one keywords entry when the keywords are non-empty, none otherwise |
| `MetaTags.ImageTags` | app/components/SEOMeta.tsx:60-63 | og:image followed by twitter:image with the same value when the image is non-empty, nothing otherwise |
| `MetaTags.LinkTags` | app/components/SEOMeta.tsx:65-71 | one link entry when the target is non-empty, none otherwise |
| `MetaTags.LanguageTags` | app/components/SEOMeta.tsx:74-76 | one content-language entry when a language is configured, none otherwise |
| `MetaTags.ImagesPairedAround` | app/components/SEOMeta.tsx:60-63 | in a list built around `ImageTags`, image entries come as an adjacent same-valued pair, present iff the image is non-empty |
| `SeoMeta.OgTypeContent` | app/components/SEOMeta.tsx:28 | og:type defaults to `website` |
| `SeoMeta.FinalTitle` | app/components/SEOMeta.tsx:31 | title is the first non-empty of `options.title`, `seoTitle`, `appName` |
| `SeoMeta.FinalDescription` | app/components/SEOMeta.tsx:32 | description is the first non-empty of `options.description`, `seoDescription`, `heroDescription` |
| `SeoMeta.FinalOgTitle` | app/components/SEOMeta.tsx:33 | og and twitter title is `options.ogTitle`, else the resolved title |
| `SeoMeta.FinalOgDescription` | app/components/SEOMeta.tsx:34 | og and twitter description is `options.ogDescription`, else the resolved description |
| `SeoMeta.FinalOgImage` | app/components/SEOMeta.tsx:35 | image is `options.ogImage`, else the site `ogImage`; it resolves iff one of them is non-empty |
| `SeoMeta.FinalKeywords` | app/components/SEOMeta.tsx:36 | keywords are `options.keywords`, else `seoKeywords`; they resolve iff one of them is non-empty |
| `SeoMeta.SeoRobots` | app/components/SEOMeta.tsx:26-40 | robots follows the two-flag rule, each flag defaulting to false |
| `SeoMeta.SeoPrefix` | app/components/SEOMeta.tsx:42-54 | eleven entries in the order title, description, robots, og:type, og:site_name, og:title, og:description, twitter:card, twitter:title, twitter:description, theme-color; og and twitter entries share the resolved title and description |
| `SeoMeta.SeoPrefixEntries` | app/components/SEOMeta.tsx:42-54 | the prefix's robots, og:type, site name, twitter card and theme colour values, and which entries are a title, a `name` meta or a `property` meta |
| `SeoMeta.SeoMetaTags` | app/components/SEOMeta.tsx:42-76 | the prefix, then keywords, the og:image/twitter:image pair, canonical, favicon and content-language, each at its computed position and present iff its value is non-empty; the length counts exactly those present |
| `SeoMeta.SeoMetaShape` | app/components/SEOMeta.tsx:42-76 | 11 to 17 entries, title first, and the image pair adjacent with one value iff an image resolves from the options or the site |
| `SeoMeta.GenerateSeoMeta` | app/components/SEOMeta.tsx:17-79 | the pushed list equals the eleven-entry prefix followed by keywords, image pair, canonical (options only), favicon and language, each only when present |
| `PageRoute.Loader` | app/routes/_page.template.tsx:8-16 | 404 iff the page key is absent; otherwise that page unchanged |
| `PageRoute.TemplateTitle` | app/routes/_page.template.tsx:24 | title is `meta_title`, else `<page_title> – <appName>` |
| `PageRoute.TemplateDescription` | app/routes/_page.template.tsx:25 | description is `meta_description`, else `page_description` |
| `PageRoute.TemplateOgTitle` | app/routes/_page.template.tsx:26 | og title is `og_title`, else the raw `page_title` (not the computed title) |
| `PageRoute.TemplateOgDescription` | app/routes/_page.template.tsx:27 | og description is `og_description`, else the resolved description |
| `PageRoute.TemplateOgImage` | app/routes/_page.template.tsx:28 | og image is `og_image`, else the site `ogImage`; it resolves iff one is non-empty |
| `PageRoute.TemplateRobots` | app/routes/_page.template.tsx:31-33 | robots follows the two-flag rule with the page's `noindex` and `nofollow` |
| `PageRoute.TemplatePrefix` | app/routes/_page.template.tsx:35-47 | eleven entries in the same key order as the shared SEO prefix, carrying the page's resolved title, description, og title and og description |
| `PageRoute.TemplatePrefixEntries` | app/routes/_page.template.tsx:35-47 | the page prefix's robots, `website` og:type, site name, twitter card and theme colour values, and each entry's kind |
| `PageRoute.TemplateMetaTags` | app/routes/_page.template.tsx:35-62 | the prefix, then the page's own keywords, the image pair and the canonical link, each at its computed position and present iff non-empty |
| `PageRoute.TemplateMetaShape` | app/routes/_page.template.tsx:35-62 | 11 to 15 entries, never a favicon or content-language entry, and the image pair adjacent with one value iff the page or the site has an image |
| `PageRoute.Meta` | app/routes/_page.template.tsx:18-63 | without loader data exactly one `Page Not Found` title; otherwise the prefix, then the page's own keywords, the image pair and the canonical link, each only when present |
| `PageRoute.SelectLayout` | app/routes/_page.template.tsx:68-73 | `Classic` gives classic and `Enterprise` gives enterprise; every other name, including `Modern` and absent, gives glass |
| `PageRoute.SelectEmptyState` | app/routes/_page.template.tsx:553-590 | the enterprise and classic placeholders go to exactly those names; every other name gets the default placeholder |
| `PageRoute.EmptyStateMatchesLayout` | app/routes/_page.template.tsx:553-590 | every layout shows its own placeholder |
| `PageRoute.RenderSections` | app/routes/_page.template.tsx:188-196 | one article per section, in list order, keyed by id and holding the content verbatim |
| `PageRoute.PageBody` | app/routes/_page.template.tsx:180-200 | the placeholder appears iff there are no sections; otherwise the sections' articles in order |
| `PageRoute.FooterText` | app/routes/_page.template.tsx:207 | the first `2024` is replaced by the current year in decimal; without one the footer is unchanged |
| `PageRoute.FooterReplacesFirstOnly` | app/routes/_page.template.tsx:207 | only the first `2024` is replaced; later occurrences are kept |
| `HomeRoute.OverridesOf` | app/routes/_index.tsx:6 | without a `home` page every override is absent; with one, each override is that page's field |
| `HomeRoute.HomeTitle` | app/routes/_index.tsx:7 | title is home `meta_title`, else `appName` followed by ` – <tagline>` when the tagline is non-empty |
| `HomeRoute.HomeDescription` | app/routes/_index.tsx:8 | description is the first non-empty of `meta_description`, `heroDescription`, `tagline`, `<appName> homepage`, and is never empty |
| `HomeRoute.HomeOgTitle` | app/routes/_index.tsx:9 | og title is the first non-empty of `og_title`, `heroTitle`, the resolved title |
| `HomeRoute.HomeOgDescription` | app/routes/_index.tsx:10 | og description is `og_description`, else the description |
| `HomeRoute.HomeOgImage` | app/routes/_index.tsx:11 | og image is home `og_image`, else the site image; it resolves iff one is non-empty |
| `HomeRoute.UserKeywords` | app/routes/_index.tsx:13 | user keywords are home `meta_keywords`, else `seoKeywords`, else empty |
| `HomeRoute.HomeKeywords` | app/routes/_index.tsx:13-15 | the fixed list alone without user keywords, otherwise `user, fixed list`; it always ends with the fixed list |
| `HomeRoute.HomeRobots` | app/routes/_index.tsx:18-20 | robots follows the two-flag rule; without a home page it is `index,follow` |
| `HomeRoute.HomePrefix` | app/routes/_index.tsx:22-36 | thirteen entries with keywords and generator after robots, carrying the resolved title, description, keywords, og title and og description |
| `HomeRoute.HomePrefixEntries` | app/routes/_index.tsx:22-36 | the home prefix's robots, generator, `website` og:type, site name, twitter card and theme colour values, and each entry's kind |
| `HomeRoute.HomeMetaTags` | app/routes/_index.tsx:22-45 | the prefix, then the image pair at positions 13 and 14 when an image resolves, then the canonical link when the home page sets one |
| `HomeRoute.HomeMetaShape` | app/routes/_index.tsx:22-45 | 13 to 16 entries, keywords and generator always at positions 3 and 4, and the image pair adjacent with one value iff an image resolves |
| `HomeRoute.Meta` | app/routes/_index.tsx:5-48 | the pushed list equals the thirteen-entry prefix, then the image pair and the canonical link, each only when present |
| `HomeRoute.IndexLayout` | app/routes/_index.tsx:50-52 | the index route renders the Glassmorphism layout |
| `HomeRoute.IndexIgnoresThemeName` | app/routes/_index.tsx:50-52 | a site themed Classic still gets glass on the index route and classic on its other pages |
| `Gdpr.Stringify` | app/components/GDPRBanner.tsx:42 | a stored preferences record carries all four categories |
| `Gdpr.Merge` | app/components/GDPRBanner.tsx:28 | each category present in the stored record takes its stored value; each absent one keeps the current value |
| `Gdpr.Restore` | app/components/GDPRBanner.tsx:25-32 | a stored object is merged over the current preferences, each stored field overriding its category; anything else, including text that fails to parse, leaves them unchanged |
| `Gdpr.StoredNecessaryFalseClears` | app/components/GDPRBanner.tsx:27-28 | a stored `necessary: false` clears the necessary category on the next mount |
| `Gdpr.RestoreStringify` | app/components/GDPRBanner.tsx:25-49 | what a handler stores is exactly what the next mount restores, whatever the preferences were |
| `Gdpr.GdprBanner.NecessaryGranted` | app/components/GDPRBanner.tsx:9-10 | when it holds, the necessary category is granted and restoring the stored record keeps it granted |
| `Gdpr.GdprBanner.BannerShown` | app/components/GDPRBanner.tsx:68-70 | the banner is only ever shown when `gdprBannerEnabled` is `true` |
| `Gdpr.GdprBanner.constructor` | app/components/GDPRBanner.tsx:7-14 | the banner starts hidden with settings closed and only necessary granted |
| `Gdpr.GdprBanner.Mount` | app/components/GDPRBanner.tsx:16-33 | flag not `true`: nothing read or changed. Consent unset: banner visible, nothing else changes. Consent set: restored over the preferences. Mount never writes or emits |
| `Gdpr.GdprBanner.AcceptAll` | app/components/GDPRBanner.tsx:35-46 | stores and sets all four categories true, hides the banner, emits one `gdpr-consent-changed`, writes no other key |
| `Gdpr.GdprBanner.SavePreferences` | app/components/GDPRBanner.tsx:48-53 | stores the current preferences unchanged, hides banner and settings, emits one event |
| `Gdpr.GdprBanner.RejectAll` | app/components/GDPRBanner.tsx:55-66 | stores and sets `{true,false,false,false}` whatever was chosen before, hides the banner, emits one event |
| `Gdpr.GdprBanner.OpenSettings` | app/components/GDPRBanner.tsx:114 | Customize opens the settings panel |
| `Gdpr.GdprBanner.CloseSettings` | app/components/GDPRBanner.tsx:145 | the close button closes the settings panel |
| `Gdpr.GdprBanner.ToggleAnalytics` | app/components/GDPRBanner.tsx:164 | changes only the analytics category |
| `Gdpr.GdprBanner.ToggleMarketing` | app/components/GDPRBanner.tsx:170 | changes only the marketing category |
| `Gdpr.GdprBanner.ToggleFunctional` | app/components/GDPRBanner.tsx:176 | changes only the functional category |
| `Gdpr.GdprBanner.ToggleNecessary` | app/components/GDPRBanner.tsx:153-159 | the disabled necessary checkbox changes nothing |
| `Gdpr.RejectThenRevisit` | app/components/GDPRBanner.tsx:22-66 | after Reject All, a later visit keeps the banner hidden and restores only necessary, whatever had been toggled |
| `Gdpr.AcceptThenRevisit` | app/components/GDPRBanner.tsx:22-46 | after Accept All, a later visit keeps the banner hidden and restores all four categories, not the defaults |
| `Cookies.CookieConsent.BannerShown` | app/components/CookieConsent.tsx:33-35 | the banner is only ever shown when `cookieConsentEnabled` is `true` |
| `Cookies.CookieConsent.constructor` | app/components/CookieConsent.tsx:7 | the banner starts hidden |
| `Cookies.CookieConsent.Mount` | app/components/CookieConsent.tsx:9-19 | flag not `true`: nothing read, banner unchanged. Otherwise only `cookie-consent` is read, and the banner becomes visible iff it is unset |
| `Cookies.CookieConsent.Accept` | app/components/CookieConsent.tsx:21-25 | writes `accepted` under `cookie-consent` only, hides the banner, emits one `cookie-consent-changed` |
| `Cookies.CookieConsent.Decline` | app/components/CookieConsent.tsx:27-31 | writes `declined` under `cookie-consent` only, hides the banner, emits one `cookie-consent-changed` |
| `Cookies.ChooseThenRevisit` | app/components/CookieConsent.tsx:9-35 | flag off: never shown. Flag on: shown on first visit iff no choice is stored. After a choice it is stored and the banner is not shown again |
| `ThemePicker.TableShape` | app/components/ThemeSwitcher.tsx:10-18 | seven themes with pairwise-distinct ids, Glassmorphism first |
| `ThemePicker.FindTheme` | app/components/ThemeSwitcher.tsx:22 | returns the first entry with the id; None iff no entry has it |
| `ThemePicker.InitialSelection` | app/components/ThemeSwitcher.tsx:21-23 | a table entry; the one with `currentTheme` as id when such exists, otherwise the first theme |
| `ThemePicker.SelectionByOwnId` | app/components/ThemeSwitcher.tsx:21-23 | every table entry is selected by its own id |
| `ThemePicker.UnknownIdsSelectGlassmorphism` | app/components/ThemeSwitcher.tsx:22 | `Modern` and the empty string select Glassmorphism |
| `ThemePicker.ThemeSwitcher.constructor` | app/components/ThemeSwitcher.tsx:20-23 | the first render selects `InitialSelection(currentTheme)` and reports nothing |
| `ThemePicker.ThemeSwitcher.HandleChange` | app/components/ThemeSwitcher.tsx:25-28 | the chosen theme becomes the selection and its id is reported exactly once |

### Behaviour worth noting

- `generateSEOMeta` pushes the keywords entry after theme-color, not next to robots
  (app/components/SEOMeta.tsx:56-58), while the home route puts it right after robots
  (app/routes/_index.tsx:26).
- `invertColor(invertColor(hex))` is the lowercase, `#`-prefixed spelling of `hex`, so it
  equals `hex` only for input already in that form. `Colors.InvertInvolution` proves the
  general form and `Colors.InvertInvolutionCanonical` the exact one.
- The initial state marks the necessary GDPR category "Always true"
  (app/components/GDPRBanner.tsx:10), but the mount effect spreads any stored object over
  the preferences (app/components/GDPRBanner.tsx:27-28). A stored `necessary: false`
  therefore clears it, as `Gdpr.StoredNecessaryFalseClears` proves. Every handler and the
  mount effect keep `NecessaryGranted`, which holds as long as no stored record withdraws
  the category.

## Left out

- JSX markup, Tailwind classes and framer-motion animation are presentation only. This
  covers the theme components, the theme wrappers, `Layout` and `Content`.
- `toPastel` is not part of this model. It multiplies by the floating-point 0.7 and
  rounds, so half-way cases depend on IEEE rounding.
- The robots.txt and sitemap.xml routes and app/routes/maintenance.tsx are not part of
  this model.
- Remix runtime objects are plain datatypes here: `Redirect(url, status)`, `NotFound(404)`
  and `MetaTag`. `redirect(url)` without a status is taken to use the framework's default
  302.
- Section HTML is injected verbatim and is not sanitised. The model keeps it verbatim.
- `Colors.RgbToHex`: `Math.round` is not modelled, because the channels are integers
  (every caller passes `255 - c` of a parsed byte). Outside 0..255 it prints what
  `toString(16)` prints, with the `-` sign and more than two digits.
- `JSON.parse` and `JSON.stringify` are abstracted. A stored value is either an object
  with optional boolean category fields or other text. Non-boolean field values and extra
  keys that a spread would add are not modelled. The `console.error` on a parse failure
  is not modelled.
- `localStorage` is a map field of each banner. The `dispatchEvent` calls go to an event
  log on each banner, not to one log shared through `window`. Storage exceptions, such as
  a disabled storage, are not modelled.
- `Gdpr.GdprBanner.Mount`, `Cookies.CookieConsent.Mount`: React `useState`/`useEffect`
  scheduling is not modelled. The mount effect is a method called once after the
  constructor, and each setter takes effect at once.
- `ThemePicker.ThemeSwitcher.HandleChange`: the `onThemeChange` callback is outside
  this model. Its calls are recorded as a log of ids.
- The year comes from `new Date()` in the source and is a parameter here. The Classic
  theme's date string is presentation only.
- `PageRoute.Loader`: `pages` is a map here, so a key that is not a configured page but
  names an inherited object property (`toString`, `constructor`) gets a 404 in the model,
  while in the source that lookup yields a truthy function and no 404.
- `SiteConfig`: the optional `secondaryColor` override in the `AppConfig` interface
  (app/app-config.ts:40) is not a field here. No code in this model reads it; the
  derived colour always comes from the getter.
- `SiteConfig` is transcribed with optional fields. Nothing is proved about the sample
  values in app/app-config.ts.
