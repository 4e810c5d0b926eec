/**
 * The editor's colour themes: the thirteen themes, the dark and light lists, the lookup
 * by id with its fallback, the dark/light pairing used by the toggle, and the CSS custom
 * properties a theme sets.
 */
module Themes {
  import opened Sequences

  datatype ThemeType = Dark | Light

  /** A colour `#rrggbb`, held as its 24-bit value; every colour of every theme has this form. */
  type Rgb = n: nat | n < 0x1000000

  /** The nineteen colours of a theme, in the order the `Theme` interface declares them. */
  datatype Colors = Colors(
    bgBase: Rgb, bgSurface: Rgb, bgElevated: Rgb, bgHover: Rgb,
    fgPrimary: Rgb, fgSecondary: Rgb, fgMuted: Rgb,
    accent: Rgb, accentDim: Rgb,
    typeString: Rgb, typeNumber: Rgb, typeBoolean: Rgb, typeNull: Rgb, typeKey: Rgb,
    border: Rgb, borderFocus: Rgb,
    success: Rgb, warning: Rgb, error: Rgb)

  datatype Theme = Theme(id: string, name: string, themeType: ThemeType, colors: Colors)

  const Moonlight := Theme("moonlight", "Moonlight", Dark,
    Colors(0x1a1b26, 0x1f2335, 0x292e42, 0x33384d, 0xc0caf5,
      0x9aa5ce, 0x565f89, 0x7dcfff, 0x5eadd4, 0x9ece6a,
      0xff9e64, 0xbb9af7, 0x565f89, 0x7aa2f7, 0x292e42,
      0x7dcfff, 0x9ece6a, 0xe0af68, 0xf7768e))

  const RosePine := Theme("rose-pine", "Rosé Pine", Dark,
    Colors(0x191724, 0x1f1d2e, 0x26233a, 0x2a2837, 0xe0def4,
      0x908caa, 0x6e6a86, 0xebbcba, 0xd4a5a4, 0xf6c177,
      0xebbcba, 0xc4a7e7, 0x6e6a86, 0x9ccfd8, 0x26233a,
      0xebbcba, 0x9ccfd8, 0xf6c177, 0xeb6f92))

  const Ember := Theme("ember", "Ember", Dark,
    Colors(0x1d2021, 0x282828, 0x32302f, 0x3c3836, 0xebdbb2,
      0xbdae93, 0x7c6f64, 0xfe8019, 0xd65d0e, 0xb8bb26,
      0xfabd2f, 0xd3869b, 0x7c6f64, 0x83a598, 0x3c3836,
      0xfe8019, 0xb8bb26, 0xfabd2f, 0xfb4934))

  const Glacier := Theme("glacier", "Glacier", Dark,
    Colors(0x2e3440, 0x3b4252, 0x434c5e, 0x4c566a, 0xeceff4,
      0xd8dee9, 0x677690, 0x88c0d0, 0x6ba8b8, 0xa3be8c,
      0xebcb8b, 0xb48ead, 0x677690, 0x81a1c1, 0x434c5e,
      0x88c0d0, 0xa3be8c, 0xebcb8b, 0xbf616a))

  const Moss := Theme("moss", "Moss", Dark,
    Colors(0x1a1f1d, 0x212826, 0x2a322f, 0x343d3a, 0xd4dbd8,
      0xa3b0ab, 0x6b7d76, 0x7fb685, 0x5f9466, 0x98c379,
      0xe0c285, 0xc9a0dc, 0x6b7d76, 0x89bfdc, 0x2a322f,
      0x7fb685, 0x7fb685, 0xe0c285, 0xe06c75))

  const Lavender := Theme("lavender", "Lavender", Dark,
    Colors(0x1e1e2e, 0x24243b, 0x313147, 0x3b3b52, 0xcdd6f4,
      0xa6adc8, 0x6c7086, 0xcba6f7, 0xa88bd4, 0xa6e3a1,
      0xfab387, 0xf5c2e7, 0x6c7086, 0x89dceb, 0x313147,
      0xcba6f7, 0xa6e3a1, 0xf9e2af, 0xf38ba8))

  const Midnight := Theme("midnight", "Midnight", Dark,
    Colors(0x151820, 0x1c1f2b, 0x252836, 0x2e3241, 0xe2e4e9,
      0xa8adb8, 0x5c6370, 0x61afef, 0x4d8bc4, 0x98c379,
      0xd19a66, 0xc678dd, 0x5c6370, 0x56b6c2, 0x2e3241,
      0x61afef, 0x98c379, 0xe5c07b, 0xe06c75))

  const Paper := Theme("paper", "Paper", Light,
    Colors(0xf8f5f0, 0xffffff, 0xf0ebe4, 0xe8e2d9, 0x3b3228,
      0x6b5d4d, 0xa89f91, 0xc35b35, 0x9a4829, 0x448c27,
      0xb86330, 0x8959a8, 0xa89f91, 0x2e6fa3, 0xe0d8cc,
      0xc35b35, 0x448c27, 0xb86330, 0xc33535))

  const Cloud := Theme("cloud", "Cloud", Light,
    Colors(0xf5f5f5, 0xffffff, 0xebebeb, 0xe0e0e0, 0x2c2c2c,
      0x5a5a5a, 0x9e9e9e, 0x0066cc, 0x0052a3, 0x2e7d32,
      0xd84315, 0x7b1fa2, 0x9e9e9e, 0x1565c0, 0xe0e0e0,
      0x0066cc, 0x2e7d32, 0xf57c00, 0xd32f2f))

  const Dawn := Theme("dawn", "Dawn", Light,
    Colors(0xfaf4ed, 0xfffaf3, 0xf2e9de, 0xe4d8c8, 0x575279,
      0x797593, 0x9893a5, 0xd7827e, 0xb4637a, 0xea9d34,
      0xd7827e, 0x907aa9, 0x9893a5, 0x56949f, 0xdfdad0,
      0xd7827e, 0x56949f, 0xea9d34, 0xb4637a))

  const Frost := Theme("frost", "Frost", Light,
    Colors(0xf0f4f8, 0xffffff, 0xe3eaf2, 0xd6e1eb, 0x2e3440,
      0x4c566a, 0x8892a2, 0x5e81ac, 0x4a6d94, 0x689d6a,
      0xbf616a, 0xa3688f, 0x8892a2, 0x5e81ac, 0xd8dfe7,
      0x5e81ac, 0x689d6a, 0xd08770, 0xbf616a))

  const Sand := Theme("sand", "Sand", Light,
    Colors(0xf5f2e9, 0xfdfcf8, 0xebe7db, 0xdfd9c9, 0x433f34,
      0x6b6558, 0xa09a8c, 0x8f6c3d, 0x725530, 0x5c7a38,
      0xb07040, 0x906090, 0xa09a8c, 0x4078a0, 0xddd8c8,
      0x8f6c3d, 0x5c7a38, 0xb07040, 0xc04040))

  const Mint := Theme("mint", "Mint", Light,
    Colors(0xf2f7f5, 0xffffff, 0xe5efeb, 0xd8e6e0, 0x2d3a36,
      0x4d5c56, 0x8a9a94, 0x3d9970, 0x2e7a58, 0x3d9970,
      0xd68c4a, 0x8866aa, 0x8a9a94, 0x4488aa, 0xd4e4dc,
      0x3d9970, 0x3d9970, 0xd68c4a, 0xcc5555))

  /** The theme used when nothing else applies. */
  const DefaultTheme := Paper

  /** The dark themes and the light themes, each in table order. */
  const DarkPart: seq<Theme> := [Moonlight, RosePine, Ember, Glacier, Moss, Lavender, Midnight]
  const LightPart: seq<Theme> := [Paper, Cloud, Dawn, Frost, Sand, Mint]

  /** Every theme, dark ones first. */
  const AllThemes: seq<Theme> := [Moonlight, RosePine, Ember, Glacier, Moss, Lavender, Midnight, Paper, Cloud, Dawn, Frost, Sand, Mint]

  /** The themes of one type, in their order in `themes` (`allThemes.filter`). */
  function OfType(themes: seq<Theme>, t: ThemeType): (r: seq<Theme>)
    ensures forall x :: x in r <==> x in themes && x.themeType == t
    ensures IsSubsequence(r, themes)
  {
    if themes == [] then []
    else
      var rest := OfType(themes[1..], t);
      if themes[0].themeType == t then
        assert ([themes[0]] + rest)[1..] == rest;
        [themes[0]] + rest
      else
        SkipHead(rest, themes);
        rest
  }

  /** `darkThemes`. */
  function DarkThemes(): seq<Theme> {
    OfType(AllThemes, Dark)
  }

  /** `lightThemes`. */
  function LightThemes(): seq<Theme> {
    OfType(AllThemes, Light)
  }

  /** No two themes share an id. */
  predicate UniqueIds(themes: seq<Theme>) {
    forall i, j :: 0 <= i < j < |themes| ==> themes[i].id != themes[j].id
  }

  /** `Object.fromEntries(themes.map(t => [t.id, t]))`: a later entry overrides an earlier one with the same id. */
  function FromEntries(themes: seq<Theme>): map<string, Theme> {
    if themes == [] then map[]
    else FromEntries(themes[..|themes| - 1])[themes[|themes| - 1].id := themes[|themes| - 1]]
  }

  /** Whatever the ids, the map has exactly the ids of the entries, each bound to an entry with that id. */
  lemma {:induction false} FromEntriesKeys(themes: seq<Theme>)
    ensures forall id :: id in FromEntries(themes) <==> exists t :: t in themes && t.id == id
    ensures forall id :: id in FromEntries(themes) ==> FromEntries(themes)[id] in themes && FromEntries(themes)[id].id == id
    decreases |themes|
  {
    if themes != [] {
      var front := themes[..|themes| - 1];
      var last := themes[|themes| - 1];
      FromEntriesKeys(front);
      assert forall t :: t in themes <==> t in front || t == last;
    }
  }

  /** `themeMap`, the object `Object.fromEntries` builds from `allThemes`, written out. */
  const ThemeMap: map<string, Theme> := map[
    "moonlight" := Moonlight,
    "rose-pine" := RosePine,
    "ember" := Ember,
    "glacier" := Glacier,
    "moss" := Moss,
    "lavender" := Lavender,
    "midnight" := Midnight,
    "paper" := Paper,
    "cloud" := Cloud,
    "dawn" := Dawn,
    "frost" := Frost,
    "sand" := Sand,
    "mint" := Mint
  ]

  /** `themePairs`: the id the toggle switches to, from each theme's id. */
  const ThemePairs: map<string, string> := map[
    "moonlight" := "cloud",
    "rose-pine" := "dawn",
    "ember" := "sand",
    "glacier" := "frost",
    "moss" := "mint",
    "lavender" := "cloud",
    "midnight" := "cloud",
    "paper" := "ember",
    "cloud" := "moonlight",
    "dawn" := "rose-pine",
    "frost" := "glacier",
    "sand" := "ember",
    "mint" := "moss"
  ]

  /** `getThemeById(id)`: the theme with that id, or the default theme when there is none. */
  function GetThemeById(id: string): Theme {
    if id in ThemeMap then ThemeMap[id] else DefaultTheme
  }

  /** `getOppositeTheme(themeId)`: the paired theme, or the default theme for an id with no (non-empty) pair. */
  function GetOppositeTheme(themeId: string): Theme {
    if themeId in ThemePairs && ThemePairs[themeId] != "" then GetThemeById(ThemePairs[themeId]) else DefaultTheme
  }
  // ---------------------------------------------------------------------------------------
  // The theme lists
  // ---------------------------------------------------------------------------------------

  /** The filter keeps each theme of the type as often as it occurs, and no other theme. */
  lemma {:induction false} OfTypeCounts(themes: seq<Theme>, t: ThemeType, x: Theme)
    ensures multiset(OfType(themes, t))[x] == if x.themeType == t then multiset(themes)[x] else 0
    decreases |themes|
  {
    if themes != [] {
      assert themes == [themes[0]] + themes[1..];
      OfTypeCounts(themes[1..], t, x);
    }
  }

  /** Filtering distributes over concatenation. */
  lemma {:induction false} OfTypeConcat(a: seq<Theme>, b: seq<Theme>, t: ThemeType)
    ensures OfType(a + b, t) == OfType(a, t) + OfType(b, t)
    decreases |a|
  {
    if a != [] {
      var h := if a[0].themeType == t then [a[0]] else [];
      assert (a + b)[0] == a[0];
      assert (a + b)[1..] == a[1..] + b;
      assert OfType(a + b, t) == h + OfType(a[1..] + b, t);
      assert OfType(a, t) == h + OfType(a[1..], t);
      OfTypeConcat(a[1..], b, t);
      assert h + (OfType(a[1..], t) + OfType(b, t)) == (h + OfType(a[1..], t)) + OfType(b, t);
    } else {
      assert a + b == b;
    }
  }

  /** A list all of one type passes that type's filter whole. */
  lemma {:induction false} OfTypeAll(s: seq<Theme>, t: ThemeType)
    requires forall x :: x in s ==> x.themeType == t
    ensures OfType(s, t) == s
    decreases |s|
  {
    if s != [] {
      OfTypeAll(s[1..], t);
    }
  }

  /** A list with none of a type passes nothing through that type's filter. */
  lemma {:induction false} OfTypeNone(s: seq<Theme>, t: ThemeType)
    requires forall x :: x in s ==> x.themeType != t
    ensures OfType(s, t) == []
    decreases |s|
  {
    if s != [] {
      OfTypeNone(s[1..], t);
    }
  }

  /** The table is the dark part followed by the light part. */
  lemma AllThemesSplit()
    ensures AllThemes == DarkPart + LightPart
  {
  }

  /** The dark part is all dark. */
  lemma DarkPartIsDark()
    ensures forall x :: x in DarkPart ==> x.themeType == Dark
  {
  }

  /** The light part is all light. */
  lemma LightPartIsLight()
    ensures forall x :: x in LightPart ==> x.themeType == Light
  {
  }

  /** `darkThemes` is the seven dark themes, in table order. */
  lemma DarkThemesList()
    ensures DarkThemes() == DarkPart
  {
    AllThemesSplit();
    DarkPartIsDark();
    LightPartIsLight();
    OfTypeConcat(DarkPart, LightPart, Dark);
    OfTypeAll(DarkPart, Dark);
    OfTypeNone(LightPart, Dark);
  }

  /** `lightThemes` is the six light themes, in table order. */
  lemma LightThemesList()
    ensures LightThemes() == LightPart
  {
    AllThemesSplit();
    DarkPartIsDark();
    LightPartIsLight();
    OfTypeConcat(DarkPart, LightPart, Light);
    OfTypeNone(DarkPart, Light);
    OfTypeAll(LightPart, Light);
  }

  /** The dark list and the light list split the themes: seven and six, every theme in exactly one. */
  lemma DarkAndLight()
    ensures |DarkThemes()| == 7 && |LightThemes()| == 6
    ensures forall t :: t in AllThemes <==> t in DarkThemes() || t in LightThemes()
    ensures forall t :: !(t in DarkThemes() && t in LightThemes())
  {
    DarkThemesList();
    LightThemesList();
  }

  // ---------------------------------------------------------------------------------------
  // The map by id
  // ---------------------------------------------------------------------------------------

  /** The thirteen ids are different. */
  lemma AllIdsUnique()
    ensures UniqueIds(AllThemes)
  {
  }

  /** The last entry's id is none of the earlier entries' ids. */
  lemma LastIdNew(themes: seq<Theme>)
    requires UniqueIds(themes) && themes != []
    ensures forall t :: t in themes[..|themes| - 1] ==> t.id != themes[|themes| - 1].id
  {
    var front := themes[..|themes| - 1];
    forall t | t in front
      ensures t.id != themes[|themes| - 1].id
    {
      var i :| 0 <= i < |front| && front[i] == t;
      assert themes[i] == t;
    }
  }

  /** With unique ids every theme is found under its own id. */
  lemma {:induction false} FromEntriesFinds(themes: seq<Theme>)
    requires UniqueIds(themes)
    ensures forall t :: t in themes ==> t.id in FromEntries(themes) && FromEntries(themes)[t.id] == t
    decreases |themes|
  {
    if themes != [] {
      var front := themes[..|themes| - 1];
      FromEntriesFinds(front);
      LastIdNew(themes);
      assert forall t :: t in themes <==> t in front || t == themes[|themes| - 1];
    }
  }

  /** With unique ids the map has one entry per theme. */
  lemma {:induction false} FromEntriesSize(themes: seq<Theme>)
    requires UniqueIds(themes)
    ensures |FromEntries(themes)| == |themes|
    decreases |themes|
  {
    if themes != [] {
      var front := themes[..|themes| - 1];
      FromEntriesSize(front);
      LastIdNew(themes);
      FromEntriesKeys(front);
    }
  }

  /** Adding one more entry to `Object.fromEntries` sets that entry's id. */
  lemma FromEntriesSnoc(themes: seq<Theme>, t: Theme)
    ensures FromEntries(themes + [t]) == FromEntries(themes)[t.id := t]
  {
    assert (themes + [t])[..|themes|] == themes;
  }

  /** The written-out `themeMap` is the one `Object.fromEntries` builds from the themes. */
  lemma ThemeMapIsFromEntries()
    ensures ThemeMap == FromEntries(AllThemes)
  {
    var s: seq<Theme> := [];
    FromEntriesSnoc(s, Moonlight); s := s + [Moonlight];
    FromEntriesSnoc(s, RosePine); s := s + [RosePine];
    FromEntriesSnoc(s, Ember); s := s + [Ember];
    FromEntriesSnoc(s, Glacier); s := s + [Glacier];
    FromEntriesSnoc(s, Moss); s := s + [Moss];
    FromEntriesSnoc(s, Lavender); s := s + [Lavender];
    FromEntriesSnoc(s, Midnight); s := s + [Midnight];
    FromEntriesSnoc(s, Paper); s := s + [Paper];
    FromEntriesSnoc(s, Cloud); s := s + [Cloud];
    FromEntriesSnoc(s, Dawn); s := s + [Dawn];
    FromEntriesSnoc(s, Frost); s := s + [Frost];
    FromEntriesSnoc(s, Sand); s := s + [Sand];
    FromEntriesSnoc(s, Mint); s := s + [Mint];
    assert s == AllThemes;
  }

  /** `themeMap` has thirteen entries, each theme under its own id. */
  lemma ThemeMapEntries()
    ensures |ThemeMap| == 13
    ensures forall t :: t in AllThemes ==> t.id in ThemeMap && ThemeMap[t.id] == t
  {
    AllIdsUnique();
    FromEntriesFinds(AllThemes);
    FromEntriesSize(AllThemes);
    ThemeMapIsFromEntries();
  }

  /** Looking up a theme's own id finds that theme. */
  lemma ThemeById(t: Theme)
    requires t in AllThemes
    ensures GetThemeById(t.id) == t
  {
    ThemeMapEntries();
  }

  /** An id no theme has falls back to the default theme. */
  lemma UnknownIdIsDefault(id: string)
    requires forall t :: t in AllThemes ==> t.id != id
    ensures GetThemeById(id) == DefaultTheme
  {
    ThemeMapIsFromEntries();
    FromEntriesKeys(AllThemes);
    assert id !in ThemeMap;
  }

  /** Any lookup gives one of the themes: the one with that id, or the default. */
  lemma LookupIsTheme(id: string)
    ensures GetThemeById(id) in AllThemes
    ensures GetThemeById(id).id == id || GetThemeById(id) == DefaultTheme
  {
    ThemeMapIsFromEntries();
    FromEntriesKeys(AllThemes);
  }

  /** The toggle always lands on one of the themes. */
  lemma OppositeIsTheme(themeId: string)
    ensures GetOppositeTheme(themeId) in AllThemes
  {
    if themeId in ThemePairs && ThemePairs[themeId] != "" {
      LookupIsTheme(ThemePairs[themeId]);
    }
  }

  // ---------------------------------------------------------------------------------------
  // The dark/light pairing
  // ---------------------------------------------------------------------------------------

  /** The pair of each id, looked up in `themePairs`. */
  lemma PairLookups()
    ensures "moonlight" in ThemePairs && ThemePairs["moonlight"] == "cloud"
    ensures "rose-pine" in ThemePairs && ThemePairs["rose-pine"] == "dawn"
    ensures "ember" in ThemePairs && ThemePairs["ember"] == "sand"
    ensures "glacier" in ThemePairs && ThemePairs["glacier"] == "frost"
    ensures "moss" in ThemePairs && ThemePairs["moss"] == "mint"
    ensures "lavender" in ThemePairs && ThemePairs["lavender"] == "cloud"
    ensures "midnight" in ThemePairs && ThemePairs["midnight"] == "cloud"
    ensures "paper" in ThemePairs && ThemePairs["paper"] == "ember"
    ensures "cloud" in ThemePairs && ThemePairs["cloud"] == "moonlight"
    ensures "dawn" in ThemePairs && ThemePairs["dawn"] == "rose-pine"
    ensures "frost" in ThemePairs && ThemePairs["frost"] == "glacier"
    ensures "sand" in ThemePairs && ThemePairs["sand"] == "ember"
    ensures "mint" in ThemePairs && ThemePairs["mint"] == "moss"
  {
  }

  /** Each dark theme's id looked up in `themeMap`. */
  lemma DarkLookups()
    ensures "moonlight" in ThemeMap && ThemeMap["moonlight"] == Moonlight
    ensures "rose-pine" in ThemeMap && ThemeMap["rose-pine"] == RosePine
    ensures "ember" in ThemeMap && ThemeMap["ember"] == Ember
    ensures "glacier" in ThemeMap && ThemeMap["glacier"] == Glacier
    ensures "moss" in ThemeMap && ThemeMap["moss"] == Moss
    ensures "lavender" in ThemeMap && ThemeMap["lavender"] == Lavender
    ensures "midnight" in ThemeMap && ThemeMap["midnight"] == Midnight
  {
  }

  /** Each light theme's id looked up in `themeMap`. */
  lemma LightLookups()
    ensures "paper" in ThemeMap && ThemeMap["paper"] == Paper
    ensures "cloud" in ThemeMap && ThemeMap["cloud"] == Cloud
    ensures "dawn" in ThemeMap && ThemeMap["dawn"] == Dawn
    ensures "frost" in ThemeMap && ThemeMap["frost"] == Frost
    ensures "sand" in ThemeMap && ThemeMap["sand"] == Sand
    ensures "mint" in ThemeMap && ThemeMap["mint"] == Mint
  {
  }

  /** Where the toggle goes from each dark theme. */
  lemma DarkOpposites()
    ensures GetOppositeTheme(Moonlight.id) == Cloud
    ensures GetOppositeTheme(RosePine.id) == Dawn
    ensures GetOppositeTheme(Ember.id) == Sand
    ensures GetOppositeTheme(Glacier.id) == Frost
    ensures GetOppositeTheme(Moss.id) == Mint
    ensures GetOppositeTheme(Lavender.id) == Cloud
    ensures GetOppositeTheme(Midnight.id) == Cloud
  {
    PairLookups();
    DarkLookups();
    LightLookups();
  }

  /** Where the toggle goes from each light theme. */
  lemma LightOpposites()
    ensures GetOppositeTheme(Paper.id) == Ember
    ensures GetOppositeTheme(Cloud.id) == Moonlight
    ensures GetOppositeTheme(Dawn.id) == RosePine
    ensures GetOppositeTheme(Frost.id) == Glacier
    ensures GetOppositeTheme(Sand.id) == Ember
    ensures GetOppositeTheme(Mint.id) == Moss
  {
    PairLookups();
    DarkLookups();
    LightLookups();
  }

  /** The toggle always switches between dark and light. */
  lemma OppositeType(t: Theme)
    requires t in AllThemes
    ensures GetOppositeTheme(t.id).themeType != t.themeType
  {
    DarkOpposites();
    LightOpposites();
  }

  /**
   * Toggling twice comes back to the starting theme, except from lavender and midnight,
   * which come back to moonlight, and from paper, which comes back to sand.
   */
  lemma ToggleTwice(t: Theme)
    requires t in AllThemes
    ensures GetOppositeTheme(GetOppositeTheme(t.id).id)
         == if t == Lavender || t == Midnight then Moonlight else if t == Paper then Sand else t
  {
    DarkOpposites();
    LightOpposites();
    assert t == Moonlight || t == RosePine || t == Ember || t == Glacier || t == Moss || t == Lavender
        || t == Midnight || t == Paper || t == Cloud || t == Dawn || t == Frost || t == Sand || t == Mint;
  }

  /** An id with no pair, a known theme's or not, toggles to the default theme. */
  lemma UnpairedToDefault(id: string)
    requires id !in ThemePairs
    ensures GetOppositeTheme(id) == Paper
  {
  }

  /** Exactly the themes' ids have a pair, and every pair names a theme. */
  lemma PairsCoverThemes()
    ensures ThemePairs.Keys == ThemeMap.Keys
    ensures forall id :: id in ThemePairs ==> ThemePairs[id] in ThemeMap
  {
  }

  // ---------------------------------------------------------------------------------------
  // CSS custom properties
  // ---------------------------------------------------------------------------------------

  /** A hexadecimal digit, lower case. */
  function HexDigit(d: nat): (c: char)
    requires d < 16
    ensures IsHexDigit(c)
  {
    if d < 10 then ('0' as int + d) as char else ('a' as int + d - 10) as char
  }

  predicate IsHexDigit(c: char) {
    '0' <= c <= '9' || 'a' <= c <= 'f'
  }

  /** The value of a lower-case hexadecimal digit. */
  function HexValue(c: char): (d: nat)
    requires IsHexDigit(c)
    ensures d < 16
  {
    if c <= '9' then c as int - '0' as int else c as int - 'a' as int + 10
  }

  /** The last `width` hexadecimal digits of `n`, most significant first. */
  function Hex(n: nat, width: nat): (s: string)
    ensures |s| == width
    ensures forall i :: 0 <= i < |s| ==> IsHexDigit(s[i])
  {
    if width == 0 then [] else Hex(n / 16, width - 1) + [HexDigit(n % 16)]
  }

  /** The number a string of hexadecimal digits denotes. */
  function ParseHex(s: string): nat
    requires forall i :: 0 <= i < |s| ==> IsHexDigit(s[i])
  {
    if s == [] then 0 else ParseHex(s[..|s| - 1]) * 16 + HexValue(s[|s| - 1])
  }

  /** Reading back the digits gives the number, when it fits in them. */
  lemma {:induction false} ParseHexOfHex(n: nat, width: nat, bound: nat)
    requires bound == Pow16(width) && n < bound
    ensures ParseHex(Hex(n, width)) == n
    decreases width
  {
    if width > 0 {
      var s := Hex(n, width);
      assert s[..|s| - 1] == Hex(n / 16, width - 1);
      ParseHexOfHex(n / 16, width - 1, Pow16(width - 1));
      assert HexValue(HexDigit(n % 16)) == n % 16;
    }
  }

  function Pow16(k: nat): (p: nat)
    ensures p >= 1
  {
    if k == 0 then 1 else 16 * Pow16(k - 1)
  }

  /** A colour as CSS writes it: `#` and six lower-case hexadecimal digits. */
  function ColorText(c: Rgb): (s: string)
    ensures |s| == 7 && s[0] == '#'
    ensures forall i :: 1 <= i < 7 ==> IsHexDigit(s[i])
  {
    "#" + Hex(c, 6)
  }

  /** The text of a colour gives back the colour, so different colours have different texts. */
  lemma ColorTextDecodes(c: Rgb)
    ensures ParseHex(ColorText(c)[1..]) == c
  {
    assert Pow16(6) == 0x1000000;
    assert ColorText(c)[1..] == Hex(c, 6);
    ParseHexOfHex(c, 6, Pow16(6));
  }

  /** One of the nineteen colour fields. */
  datatype ColorField =
    | BgBaseColor
    | BgSurfaceColor
    | BgElevatedColor
    | BgHoverColor
    | FgPrimaryColor
    | FgSecondaryColor
    | FgMutedColor
    | AccentColor
    | AccentDimColor
    | TypeStringColor
    | TypeNumberColor
    | TypeBooleanColor
    | TypeNullColor
    | TypeKeyColor
    | BorderColor
    | BorderFocusColor
    | SuccessColor
    | WarningColor
    | ErrorColor

  /** The fields in declaration order. */
  const ColorFields: seq<ColorField> := [
    BgBaseColor,
    BgSurfaceColor,
    BgElevatedColor,
    BgHoverColor,
    FgPrimaryColor,
    FgSecondaryColor,
    FgMutedColor,
    AccentColor,
    AccentDimColor,
    TypeStringColor,
    TypeNumberColor,
    TypeBooleanColor,
    TypeNullColor,
    TypeKeyColor,
    BorderColor,
    BorderFocusColor,
    SuccessColor,
    WarningColor,
    ErrorColor
  ]

  /** The colour a field holds. */
  function ColorOf(c: Colors, f: ColorField): Rgb {
    match f
    case BgBaseColor => c.bgBase
    case BgSurfaceColor => c.bgSurface
    case BgElevatedColor => c.bgElevated
    case BgHoverColor => c.bgHover
    case FgPrimaryColor => c.fgPrimary
    case FgSecondaryColor => c.fgSecondary
    case FgMutedColor => c.fgMuted
    case AccentColor => c.accent
    case AccentDimColor => c.accentDim
    case TypeStringColor => c.typeString
    case TypeNumberColor => c.typeNumber
    case TypeBooleanColor => c.typeBoolean
    case TypeNullColor => c.typeNull
    case TypeKeyColor => c.typeKey
    case BorderColor => c.border
    case BorderFocusColor => c.borderFocus
    case SuccessColor => c.success
    case WarningColor => c.warning
    case ErrorColor => c.error
  }

  /** The custom property a field is published under: `--` and the field's name in kebab case. */
  function VariableName(f: ColorField): string {
    match f
    case BgBaseColor => "--bg-base"
    case BgSurfaceColor => "--bg-surface"
    case BgElevatedColor => "--bg-elevated"
    case BgHoverColor => "--bg-hover"
    case FgPrimaryColor => "--fg-primary"
    case FgSecondaryColor => "--fg-secondary"
    case FgMutedColor => "--fg-muted"
    case AccentColor => "--accent"
    case AccentDimColor => "--accent-dim"
    case TypeStringColor => "--type-string"
    case TypeNumberColor => "--type-number"
    case TypeBooleanColor => "--type-boolean"
    case TypeNullColor => "--type-null"
    case TypeKeyColor => "--type-key"
    case BorderColor => "--border"
    case BorderFocusColor => "--border-focus"
    case SuccessColor => "--success"
    case WarningColor => "--warning"
    case ErrorColor => "--error"
  }

  /**
   * `getThemeCssVars(theme)`: each colour under its CSS custom property, as the entries
   * `Object.entries` lists (the record's keys in the order written).
   */
  function GetThemeCssVars(theme: Theme): (vars: seq<(string, string)>)
    ensures |vars| == |ColorFields|
  {
    var c := theme.colors;
    [
      ("--bg-base", ColorText(c.bgBase)),
      ("--bg-surface", ColorText(c.bgSurface)),
      ("--bg-elevated", ColorText(c.bgElevated)),
      ("--bg-hover", ColorText(c.bgHover)),
      ("--fg-primary", ColorText(c.fgPrimary)),
      ("--fg-secondary", ColorText(c.fgSecondary)),
      ("--fg-muted", ColorText(c.fgMuted)),
      ("--accent", ColorText(c.accent)),
      ("--accent-dim", ColorText(c.accentDim)),
      ("--type-string", ColorText(c.typeString)),
      ("--type-number", ColorText(c.typeNumber)),
      ("--type-boolean", ColorText(c.typeBoolean)),
      ("--type-null", ColorText(c.typeNull)),
      ("--type-key", ColorText(c.typeKey)),
      ("--border", ColorText(c.border)),
      ("--border-focus", ColorText(c.borderFocus)),
      ("--success", ColorText(c.success)),
      ("--warning", ColorText(c.warning)),
      ("--error", ColorText(c.error))
    ]
  }

  /** The position of a field in `ColorFields`. */
  function FieldIndex(f: ColorField): nat {
    match f
    case BgBaseColor => 0
    case BgSurfaceColor => 1
    case BgElevatedColor => 2
    case BgHoverColor => 3
    case FgPrimaryColor => 4
    case FgSecondaryColor => 5
    case FgMutedColor => 6
    case AccentColor => 7
    case AccentDimColor => 8
    case TypeStringColor => 9
    case TypeNumberColor => 10
    case TypeBooleanColor => 11
    case TypeNullColor => 12
    case TypeKeyColor => 13
    case BorderColor => 14
    case BorderFocusColor => 15
    case SuccessColor => 16
    case WarningColor => 17
    case ErrorColor => 18
  }

  /** The fields are listed once each. */
  lemma ColorFieldsDistinct()
    ensures forall i, j :: 0 <= i < j < |ColorFields| ==> ColorFields[i] != ColorFields[j]
  {
  }

  /** Every field is listed. */
  lemma ColorFieldsComplete()
    ensures forall f :: f in ColorFields
  {
    forall f: ColorField
      ensures f in ColorFields
    {
      assert f == ColorFields[FieldIndex(f)];
    }
  }

  /** Different fields are published under different names. */
  lemma VariableNamesDistinct(f: ColorField, g: ColorField)
    requires f != g
    ensures VariableName(f) != VariableName(g)
  {
  }

  /** The i-th entry publishes the i-th field's colour under that field's variable. */
  lemma CssVarsFollowFields(theme: Theme, i: nat)
    requires i < |ColorFields|
    ensures GetThemeCssVars(theme)[i] == (VariableName(ColorFields[i]), ColorText(ColorOf(theme.colors, ColorFields[i])))
  {
    if i < 10 {
      FirstTenFields(theme, i);
    } else {
      LastNineFields(theme, i);
    }
  }

  lemma FirstTenFields(theme: Theme, i: nat)
    requires i < 10
    ensures GetThemeCssVars(theme)[i] == (VariableName(ColorFields[i]), ColorText(ColorOf(theme.colors, ColorFields[i])))
  {
  }

  lemma LastNineFields(theme: Theme, i: nat)
    requires 10 <= i < |ColorFields|
    ensures GetThemeCssVars(theme)[i] == (VariableName(ColorFields[i]), ColorText(ColorOf(theme.colors, ColorFields[i])))
  {
  }

  /** Nineteen entries under nineteen different names, one for every field. */
  lemma CssVarsDistinct(theme: Theme)
    ensures forall i, j :: 0 <= i < j < |ColorFields| ==> GetThemeCssVars(theme)[i].0 != GetThemeCssVars(theme)[j].0
    ensures forall f :: (VariableName(f), ColorText(ColorOf(theme.colors, f))) in GetThemeCssVars(theme)
  {
    var vars := GetThemeCssVars(theme);
    ColorFieldsDistinct();
    ColorFieldsComplete();
    forall i, j | 0 <= i < j < |ColorFields|
      ensures vars[i].0 != vars[j].0
    {
      CssVarsFollowFields(theme, i);
      CssVarsFollowFields(theme, j);
      VariableNamesDistinct(ColorFields[i], ColorFields[j]);
    }
    forall f
      ensures (VariableName(f), ColorText(ColorOf(theme.colors, f))) in vars
    {
      assert f in ColorFields;
      var i :| 0 <= i < |ColorFields| && ColorFields[i] == f;
      CssVarsFollowFields(theme, i);
      assert vars[i] == (VariableName(f), ColorText(ColorOf(theme.colors, f)));
    }
  }
}
