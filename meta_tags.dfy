/**
 * The head entries the meta builders emit, the robots directive they share,
 * and the optional entries they append only when a value resolves.
 */
module MetaTags {
  import opened Wrappers
  import opened JsString

  /** One `MetaDescriptor`: a title, a `name` or `property` meta, a link, or an `http-equiv` meta. */
  datatype MetaTag =
    | Title(title: string)
    | Named(name: string, content: string)
    | Property(property: string, content: string)
    | Link(rel: string, href: string)
    | HttpEquiv(httpEquiv: string, content: string)

  const TwitterCard: string := "summary_large_image"

  /** The key an entry is known by: `title`, or its name, property, rel or http-equiv. */
  function Key(t: MetaTag): string {
    match t
    case Title(_) => "title"
    case Named(name, _) => name
    case Property(property, _) => property
    case Link(rel, _) => rel
    case HttpEquiv(httpEquiv, _) => httpEquiv
  }

  /** The value an entry carries: the title text, the content, or the link target. */
  function Value(t: MetaTag): string {
    match t
    case Title(title) => title
    case Named(_, content) => content
    case Property(_, content) => content
    case Link(_, href) => href
    case HttpEquiv(_, content) => content
  }

  /** The keys of a list of entries, in order. */
  function Keys(tags: seq<MetaTag>): (keys: seq<string>)
    ensures |keys| == |tags| && forall i :: 0 <= i < |tags| ==> keys[i] == Key(tags[i])
  {
    seq(|tags|, i requires 0 <= i < |tags| => Key(tags[i]))
  }

  /** The order of the eleven entries the site-wide and page builders always start with. */
  const SharedPrefixKeys: seq<string> := [
    "title", "description", "robots", "og:type", "og:site_name", "og:title", "og:description",
    "twitter:card", "twitter:title", "twitter:description", "theme-color"]

  /** The number of entries an optional part contributes per resolved value. */
  function Count(present: bool): nat {
    if present then 1 else 0
  }

  function IndexDirective(noindex: bool): string {
    if noindex then "noindex" else "index"
  }

  function FollowDirective(nofollow: bool): string {
    if nofollow then "nofollow" else "follow"
  }

  /**
   * The robots content: `'index,follow'` when neither flag is set, and
   * otherwise the two directives joined by a comma. The shortcut branch
   * agrees with the general form, so the content is always
   * `<index|noindex>,<follow|nofollow>`.
   */
  function RobotsContent(noindex: bool, nofollow: bool): (r: string)
    ensures r == IndexDirective(noindex) + "," + FollowDirective(nofollow)
    ensures !noindex && !nofollow ==> r == "index,follow"
  {
    if noindex || nofollow then IndexDirective(noindex) + "," + FollowDirective(nofollow)
    else "index,follow"
  }

  /** The robots content determines both flags. */
  lemma RobotsContentInjective(a: bool, b: bool, c: bool, d: bool)
    requires RobotsContent(a, b) == RobotsContent(c, d)
    ensures a == c && b == d
  {
    var r := RobotsContent(a, b);
    assert a <==> r[0] == 'n';
    assert c <==> r[0] == 'n';
    assert b <==> r[|r| - 8] == 'n';
    assert d <==> r[|r| - 8] == 'n';
  }

  /** The keywords entry, only when the keywords are non-empty. */
  function KeywordsTags(keywords: Option<string>): (tags: seq<MetaTag>)
    ensures Truthy(keywords) ==> tags == [Named("keywords", keywords.value)]
    ensures !Truthy(keywords) ==> tags == []
    ensures NoImageEntry(tags)
  {
    if Truthy(keywords) then [Named("keywords", keywords.value)] else []
  }

  /** The og:image and twitter:image entries: both with the same value, adjacent, or neither. */
  function ImageTags(image: Option<string>): (tags: seq<MetaTag>)
    ensures Truthy(image) ==> tags == [Property("og:image", image.value), Named("twitter:image", image.value)]
    ensures !Truthy(image) ==> tags == []
  {
    if Truthy(image) then [Property("og:image", image.value), Named("twitter:image", image.value)] else []
  }

  /** A `<link rel=...>` entry, only when the target is non-empty. */
  function LinkTags(rel: string, href: Option<string>): (tags: seq<MetaTag>)
    ensures Truthy(href) ==> tags == [Link(rel, href.value)]
    ensures !Truthy(href) ==> tags == []
    ensures NoImageEntry(tags)
  {
    if Truthy(href) then [Link(rel, href.value)] else []
  }

  /** The content-language entry, only when a language is configured. */
  function LanguageTags(language: Option<string>): (tags: seq<MetaTag>)
    ensures Truthy(language) ==> tags == [HttpEquiv("content-language", language.value)]
    ensures !Truthy(language) ==> tags == []
    ensures NoImageEntry(tags)
  {
    if Truthy(language) then [HttpEquiv("content-language", language.value)] else []
  }

  predicate IsOgImage(t: MetaTag) {
    t.Property? && t.property == "og:image"
  }

  predicate IsTwitterImage(t: MetaTag) {
    t.Named? && t.name == "twitter:image"
  }

  /** No entry of `tags` is an og:image or twitter:image entry. */
  predicate NoImageEntry(tags: seq<MetaTag>) {
    forall i :: 0 <= i < |tags| ==> !IsOgImage(tags[i]) && !IsTwitterImage(tags[i])
  }

  /**
   * Every og:image entry is immediately followed by a twitter:image entry
   * with the same value, and every twitter:image entry immediately follows
   * such an og:image entry.
   */
  predicate ImagesPaired(tags: seq<MetaTag>) {
    (forall i :: 0 <= i < |tags| && IsOgImage(tags[i]) ==>
       i + 1 < |tags| && tags[i + 1] == Named("twitter:image", tags[i].content)) &&
    (forall i :: 0 <= i < |tags| && IsTwitterImage(tags[i]) ==>
       0 < i && tags[i - 1] == Property("og:image", tags[i].content))
  }

  predicate HasImage(tags: seq<MetaTag>) {
    exists i :: 0 <= i < |tags| && IsOgImage(tags[i])
  }

  lemma NoImageEntryConcat(a: seq<MetaTag>, b: seq<MetaTag>)
    requires NoImageEntry(a) && NoImageEntry(b)
    ensures NoImageEntry(a + b)
  {
    forall i | 0 <= i < |a + b|
      ensures !IsOgImage((a + b)[i]) && !IsTwitterImage((a + b)[i])
    {
      if i < |a| {
        assert (a + b)[i] == a[i];
      } else {
        assert (a + b)[i] == b[i - |a|];
      }
    }
  }

  /**
   * A list that holds image entries only where `ImageTags` puts them has the
   * pair adjacent and with one value, and has it exactly when the image
   * resolved to a non-empty value.
   */
  lemma ImagesPairedAround(a: seq<MetaTag>, image: Option<string>, b: seq<MetaTag>)
    requires NoImageEntry(a) && NoImageEntry(b)
    ensures ImagesPaired(a + ImageTags(image) + b)
    ensures HasImage(a + ImageTags(image) + b) <==> Truthy(image)
  {
    var m := ImageTags(image);
    var s := a + m + b;
    assert forall i :: 0 <= i < |a| ==> s[i] == a[i];
    assert forall i :: |a| <= i < |a| + |m| ==> s[i] == m[i - |a|];
    assert forall i :: |a| + |m| <= i < |s| ==> s[i] == b[i - |a| - |m|];
    if Truthy(image) {
      assert IsOgImage(s[|a|]);
    }
  }
}
