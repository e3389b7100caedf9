/**
 * The theme picker: a fixed table of seven themes, an initial selection
 * found by id with the first theme as fallback, and a change handler that
 * updates the selection and reports the chosen id.
 */
module ThemePicker {
  import opened Wrappers

  datatype ThemeOption = ThemeOption(id: string, name: string, description: string)

  /** The `themes` table, in display order. */
  const Themes: seq<ThemeOption> := [
    ThemeOption("Glassmorphism", "Glassmorphism", "Modern glassmorphic design"),
    ThemeOption("Classic", "Classic", "Traditional Font layout"),
    ThemeOption("Enterprise", "Enterprise", "Professional SaaS interface"),
    ThemeOption("SoftModern", "Soft Modern", "Soft gradients and modern UI"),
    ThemeOption("MinimalLight", "Minimal Light", "Clean and minimal light theme"),
    ThemeOption("MinimalDark", "Minimal Dark", "Clean and minimal dark theme"),
    ThemeOption("GreenTech", "Green Tech", "Eco-friendly tech aesthetic")
  ]

  /** No two entries of `themes` share an id. */
  predicate DistinctIds(themes: seq<ThemeOption>) {
    forall i, j :: 0 <= i < j < |themes| ==> themes[i].id != themes[j].id
  }

  /** The table holds seven themes with distinct ids, Glassmorphism first. */
  lemma TableShape()
    ensures |Themes| == 7 && DistinctIds(Themes) && Themes[0].id == "Glassmorphism"
  {
    var ids := ["Glassmorphism", "Classic", "Enterprise", "SoftModern", "MinimalLight", "MinimalDark", "GreenTech"];
    assert forall i :: 0 <= i < 7 ==> Themes[i].id == ids[i];
  }

  /** `themes.find(t => t.id === id)`: the first entry with that id, if any. */
  function FindTheme(themes: seq<ThemeOption>, id: string): (r: Option<ThemeOption>)
    ensures r.Some? ==> exists i :: 0 <= i < |themes| && themes[i] == r.value && r.value.id == id &&
                                    forall j :: 0 <= j < i ==> themes[j].id != id
    ensures r.None? <==> forall i :: 0 <= i < |themes| ==> themes[i].id != id
  {
    if |themes| == 0 then None
    else if themes[0].id == id then Some(themes[0])
    else
      var r := FindTheme(themes[1..], id);
      assert r.Some? ==> exists i :: 0 <= i < |themes[1..]| && themes[1..][i] == r.value && r.value.id == id &&
                                     forall j :: 0 <= j < i ==> themes[1..][j].id != id;
      assert forall i :: 1 <= i < |themes| ==> themes[i] == themes[1..][i - 1];
      r
  }

  /** The initial selection: the theme whose id is `currentTheme`, else the first theme. */
  function InitialSelection(currentTheme: string): (t: ThemeOption)
    ensures t in Themes
    ensures (exists i :: 0 <= i < |Themes| && Themes[i].id == currentTheme) ==> t.id == currentTheme
    ensures (forall i :: 0 <= i < |Themes| ==> Themes[i].id != currentTheme) ==> t == Themes[0]
  {
    match FindTheme(Themes, currentTheme)
    case Some(t) => t
    case None => Themes[0]
  }

  /** Every table entry is selected by its own id. */
  lemma {:induction false} SelectionByOwnId(i: nat)
    requires i < |Themes|
    ensures InitialSelection(Themes[i].id) == Themes[i]
  {
    TableShape();
    var t := InitialSelection(Themes[i].id);
    var k :| 0 <= k < |Themes| && Themes[k] == t;
    assert Themes[k].id == Themes[i].id;
  }

  /** The legacy name `'Modern'` and the empty string are not ids, so they select Glassmorphism. */
  lemma UnknownIdsSelectGlassmorphism()
    ensures InitialSelection("Modern").id == "Glassmorphism"
    ensures InitialSelection("").id == "Glassmorphism"
  {
    assert forall i :: 0 <= i < |Themes| ==> Themes[i].id != "Modern" && Themes[i].id != "";
  }

  class ThemeSwitcher {
    var selected: ThemeOption
    /** The ids passed to `onThemeChange`, oldest first. */
    var reported: seq<string>

    /** The component's first render with `currentTheme`. */
    constructor (currentTheme: string)
      ensures selected == InitialSelection(currentTheme) && reported == []
    {
      selected := InitialSelection(currentTheme);
      reported := [];
    }

    /** `handleChange`: the chosen theme becomes the selection and its id is reported once. */
    method HandleChange(theme: ThemeOption)
      modifies this
      ensures selected == theme
      ensures reported == old(reported) + [theme.id]
    {
      selected := theme;
      reported := reported + [theme.id];
    }
  }
}
