/**
 * The theme store: the selected theme id, the theme it resolves to, and whether the
 * persisted selection has been read back. Only the id is persisted; reading it back
 * merges it into the current state.
 */
module ThemeStore {
  import opened Options
  import opened Themes

  /** A snapshot of the store's state, as the persistence layer's `merge` sees and returns it. */
  datatype ThemeState = ThemeState(themeId: string, theme: Theme, hasHydrated: bool)

  /** The persisted record: `{ themeId?: string }`, or nothing stored at all. */
  datatype Persisted = Persisted(themeId: Option<string>)

  /** The theme shown is always the lookup of the selected id (the default one for an unknown id). */
  predicate Resolved(themeId: string, theme: Theme) {
    theme == GetThemeById(themeId)
  }

  /**
   * `merge(persistedState, currentState)`: the persisted id when there is a non-empty one,
   * otherwise the current id; the theme looked up again; hydration marked done.
   */
  function Merge(persisted: Option<Persisted>, current: ThemeState): (r: ThemeState)
    ensures r.hasHydrated
    ensures Resolved(r.themeId, r.theme)
    ensures persisted.Some? && persisted.value.themeId.Some? && persisted.value.themeId.value != ""
            ==> r.themeId == persisted.value.themeId.value
    ensures !(persisted.Some? && persisted.value.themeId.Some? && persisted.value.themeId.value != "")
            ==> r.themeId == current.themeId
  {
    var themeId :=
      if persisted.Some? && persisted.value.themeId.Some? && persisted.value.themeId.value != ""
      then persisted.value.themeId.value
      else current.themeId;
    ThemeState(themeId, GetThemeById(themeId), true)
  }

  /** `partialize(state)`: what is written to storage. */
  function Partialize(state: ThemeState): (p: Persisted)
    ensures p.themeId == Some(state.themeId)
  {
    Persisted(Some(state.themeId))
  }

  /** Reading back what was written keeps the id, and a state whose theme was resolved keeps its theme. */
  lemma MergePartialized(state: ThemeState, current: ThemeState)
    requires state.themeId != ""
    ensures Merge(Some(Partialize(state)), current).themeId == state.themeId
    ensures Resolved(state.themeId, state.theme) ==> Merge(Some(Partialize(state)), current).theme == state.theme
  {
  }

  class Store {
    var themeId: string
    var theme: Theme
    var hasHydrated: bool

    /** The theme is the lookup of the id, and so one of the themes. */
    predicate Valid()
      reads this
    {
      Resolved(themeId, theme) && theme in AllThemes
    }

    function State(): ThemeState
      reads this
    {
      ThemeState(themeId, theme, hasHydrated)
    }

    /** The initial state: the default theme, not yet hydrated. */
    constructor()
      ensures themeId == "paper" && theme == Paper && !hasHydrated
      ensures Valid()
    {
      themeId := DefaultTheme.id;
      theme := DefaultTheme;
      hasHydrated := false;
      ThemeById(Paper);
    }

    /** `setTheme(themeId)`: the id is kept as given, the theme is its lookup. */
    method SetTheme(id: string)
      modifies this
      ensures themeId == id && theme == GetThemeById(id)
      ensures hasHydrated == old(hasHydrated)
      ensures Valid()
    {
      var t := GetThemeById(id);
      themeId, theme := id, t;
      LookupIsTheme(id);
    }

    /**
     * `toggleDarkLight()`: both the id and the theme become the current id's opposite.
     * From a theme shown under its own id the toggle always changes dark to light or back.
     */
    method ToggleDarkLight()
      requires Valid()
      modifies this
      ensures theme == GetOppositeTheme(old(themeId)) && themeId == theme.id
      ensures old(theme.id == themeId) ==> theme.themeType != old(theme.themeType)
      ensures hasHydrated == old(hasHydrated)
      ensures Valid()
    {
      if theme.id == themeId {
        OppositeType(theme);
      }
      var currentThemeId := themeId;
      var oppositeTheme := GetOppositeTheme(currentThemeId);
      themeId, theme := oppositeTheme.id, oppositeTheme;
      OppositeIsTheme(currentThemeId);
      ThemeById(oppositeTheme);
    }

    /** `setHasHydrated(hydrated)`: only the flag changes. */
    method SetHasHydrated(hydrated: bool)
      modifies this
      ensures hasHydrated == hydrated
      ensures themeId == old(themeId) && theme == old(theme)
    {
      hasHydrated := hydrated;
    }

    /** Rehydration: the state becomes `merge(persisted, current)`. */
    method Hydrate(persisted: Option<Persisted>)
      modifies this
      ensures State() == Merge(persisted, old(State()))
      ensures Valid()
    {
      var merged := Merge(persisted, State());
      themeId, theme, hasHydrated := merged.themeId, merged.theme, merged.hasHydrated;
      LookupIsTheme(themeId);
    }
  }

  /** An id no theme has is stored as given while the default theme is shown, so the two disagree. */
  lemma UnknownIdMismatch(id: string)
    requires forall t :: t in AllThemes ==> t.id != id
    ensures Resolved(id, Paper) && Paper.id != id
  {
    UnknownIdIsDefault(id);
    assert Paper in AllThemes;
  }

  /** From a known theme, toggling selects a theme of the other type, and toggling back returns unless the pairing is one-way. */
  lemma ToggleFromKnown(t: Theme)
    requires t in AllThemes
    ensures GetOppositeTheme(t.id).themeType != t.themeType
    ensures t != Lavender && t != Midnight && t != Paper ==> GetOppositeTheme(GetOppositeTheme(t.id).id) == t
  {
    OppositeType(t);
    ToggleTwice(t);
  }
}
