// Theme selection and custom themes (frontend/src/contexts/ThemeContext.tsx).
// The built-in palettes are a parameter `builtIns` (the `themes` record, keyed
// by id and holding "light"); colours are opaque. Persisting to localStorage
// and writing CSS variables are not modelled.
module Theme {
  import opened Common

  datatype Theme = Theme(id: string, name: string, description: Option<string>, colors: map<string, string>)

  /** The provider's state: the selected id and the user's custom themes. */
  datatype ThemeState = ThemeState(current: string, custom: seq<Theme>)

  /** The built-in record: keyed by id, and "light" is one of them. */
  predicate BuiltInsOk(builtIns: map<string, Theme>) {
    "light" in builtIns && forall k :: k in builtIns ==> builtIns[k].id == k
  }

  /** The selected id on start-up: the stored one, or "light". A stored
    * empty string is falsy and also gives "light". */
  function InitialState(stored: Option<string>, custom: seq<Theme>): (s: ThemeState)
    ensures s.custom == custom
    ensures s.current == (if stored.Some? && stored.value != "" then stored.value else "light")
  {
    ThemeState(if stored.Some? && stored.value != "" then stored.value else "light", custom)
  }

  /** The last custom theme with this id, if any. */
  function LastWithId(custom: seq<Theme>, id: string): (r: Option<Theme>)
    ensures r.Some? ==> r.value in custom && r.value.id == id
    ensures r.None? ==> forall t :: t in custom ==> t.id != id
  {
    if custom == [] then None
    else
      var rest := LastWithId(custom[1..], id);
      if rest.Some? then rest
      else if custom[0].id == id then Some(custom[0])
      else None
  }

  /** `{...base}` overwritten by each custom theme in turn. */
  function Merged(base: map<string, Theme>, custom: seq<Theme>): map<string, Theme>
    decreases |custom|
  {
    if custom == [] then base
    else Merged(base[custom[0].id := custom[0]], custom[1..])
  }

  /** The merged record holds the built-ins and the custom ids; a custom
    * theme overrides a built-in of the same id, and of several custom themes
    * with one id the last wins. */
  lemma {:induction false} MergedLookup(base: map<string, Theme>, custom: seq<Theme>, id: string)
    ensures id in Merged(base, custom) <==> id in base || LastWithId(custom, id).Some?
    ensures id in Merged(base, custom) ==>
      Merged(base, custom)[id] == (if LastWithId(custom, id).Some? then LastWithId(custom, id).value else base[id])
    decreases |custom|
  {
    if custom != [] {
      MergedLookup(base[custom[0].id := custom[0]], custom[1..], id);
    }
  }

  function AllThemes(builtIns: map<string, Theme>, custom: seq<Theme>): map<string, Theme> {
    Merged(builtIns, custom)
  }

  lemma AllThemesLookup(builtIns: map<string, Theme>, custom: seq<Theme>, id: string)
    ensures id in AllThemes(builtIns, custom) <==> id in builtIns || exists t :: t in custom && t.id == id
    ensures (exists t :: t in custom && t.id == id) ==>
      AllThemes(builtIns, custom)[id] == LastWithId(custom, id).value
    ensures id in builtIns && (forall t :: t in custom ==> t.id != id) ==>
      AllThemes(builtIns, custom)[id] == builtIns[id]
  {
    MergedLookup(builtIns, custom, id);
  }

  /** The theme in force: the selected one, or the built-in light theme when
    * the selected id is unknown. */
  function ActiveTheme(builtIns: map<string, Theme>, s: ThemeState): (r: Theme)
    requires BuiltInsOk(builtIns)
    ensures s.current !in AllThemes(builtIns, s.custom) ==> r == builtIns["light"]
    ensures s.current in AllThemes(builtIns, s.custom) ==> r == AllThemes(builtIns, s.custom)[s.current]
  {
    var all := AllThemes(builtIns, s.custom);
    if s.current in all then all[s.current] else builtIns["light"]
  }

  /** Selecting an unknown id does nothing. */
  function SetTheme(builtIns: map<string, Theme>, s: ThemeState, id: string): (r: ThemeState)
    ensures r.custom == s.custom
    ensures r.current == (if id in AllThemes(builtIns, s.custom) then id else s.current)
  {
    if id in AllThemes(builtIns, s.custom) then s.(current := id) else s
  }

  function CreateCustomTheme(s: ThemeState, t: Theme): (r: ThemeState)
    ensures r.current == s.current
    ensures r.custom == s.custom + [t]
  {
    s.(custom := s.custom + [t])
  }

  function Replaced(custom: seq<Theme>, t: Theme): (r: seq<Theme>)
    ensures |r| == |custom|
    ensures forall i :: 0 <= i < |r| ==> r[i] == (if custom[i].id == t.id then t else custom[i])
  {
    if custom == [] then []
    else [if custom[0].id == t.id then t else custom[0]] + Replaced(custom[1..], t)
  }

  /** Every custom theme with the updated theme's id is replaced by it; the
    * others and the list's length are unchanged. */
  function UpdateCustomTheme(s: ThemeState, t: Theme): (r: ThemeState)
    ensures r.current == s.current
    ensures r.custom == Replaced(s.custom, t)
  {
    s.(custom := Replaced(s.custom, t))
  }

  /** After an update, the last custom theme with the id is the new one; an
    * update for an id without a custom version changes nothing. */
  lemma {:induction false} ReplacedLast(custom: seq<Theme>, t: Theme)
    ensures LastWithId(custom, t.id).Some? ==> LastWithId(Replaced(custom, t), t.id) == Some(t)
    ensures LastWithId(custom, t.id).None? ==> Replaced(custom, t) == custom
  {
    if custom != [] {
      ReplacedLast(custom[1..], t);
      assert Replaced(custom, t)[1..] == Replaced(custom[1..], t);
    }
  }

  /** Updating a custom theme makes it the one the merged record holds. */
  lemma UpdateTakesEffect(builtIns: map<string, Theme>, s: ThemeState, t: Theme)
    requires exists u :: u in s.custom && u.id == t.id
    ensures var all := AllThemes(builtIns, UpdateCustomTheme(s, t).custom);
      t.id in all && all[t.id] == t
  {
    ReplacedLast(s.custom, t);
    MergedLookup(builtIns, UpdateCustomTheme(s, t).custom, t.id);
  }

  /** `custom.filter(t => t.id !== id)`. */
  function Without(custom: seq<Theme>, id: string): (r: seq<Theme>)
    ensures forall t :: t in r <==> t in custom && t.id != id
    ensures |r| <= |custom|
  {
    if custom == [] then []
    else if custom[0].id == id then Without(custom[1..], id)
    else [custom[0]] + Without(custom[1..], id)
  }

  /** Filtering keeps the themes of other ids in their order. */
  lemma {:induction false} WithoutKeepsOthers(custom: seq<Theme>, id: string)
    requires forall t :: t in custom ==> t.id != id
    ensures Without(custom, id) == custom
  {
    if custom != [] {
      WithoutKeepsOthers(custom[1..], id);
    }
  }

  /** Deleting removes every custom theme with the id; deleting the selected
    * theme selects "light". */
  function DeleteCustomTheme(s: ThemeState, id: string): (r: ThemeState)
    ensures r.custom == Without(s.custom, id)
    ensures r.current == (if s.current == id then "light" else s.current)
  {
    ThemeState(if s.current == id then "light" else s.current, Without(s.custom, id))
  }

  predicate IsBuiltInTheme(builtIns: map<string, Theme>, id: string) {
    id in builtIns
  }

  /** A built-in theme counts as modified when a custom theme has its id. */
  function IsThemeModified(builtIns: map<string, Theme>, s: ThemeState, id: string): (r: bool)
    ensures r <==> id in builtIns && exists t :: t in s.custom && t.id == id
  {
    if id !in builtIns then false else LastWithId(s.custom, id).Some?
  }

  function GetDefaultTheme(builtIns: map<string, Theme>, id: string): (r: Option<Theme>)
    ensures r.Some? <==> id in builtIns
    ensures r.Some? ==> r.value == builtIns[id]
  {
    if id in builtIns then Some(builtIns[id]) else None
  }

  /** Restoring a built-in removes its custom versions; for any other id it
    * does nothing. The selection ends where it was: when the restored theme
    * is selected the provider switches to "light" and back within one tick. */
  function RestoreThemeToDefault(builtIns: map<string, Theme>, s: ThemeState, id: string): (r: ThemeState)
    ensures id !in builtIns ==> r == s
    ensures id in builtIns ==> r == ThemeState(s.current, Without(s.custom, id))
  {
    if id !in builtIns then s
    else ThemeState(s.current, Without(s.custom, id))
  }

  /** After a restore the theme is no longer modified and the merged record
    * gives the built-in palette again. */
  lemma RestoreGivesDefault(builtIns: map<string, Theme>, s: ThemeState, id: string)
    requires id in builtIns
    ensures !IsThemeModified(builtIns, RestoreThemeToDefault(builtIns, s, id), id)
    ensures var all := AllThemes(builtIns, RestoreThemeToDefault(builtIns, s, id).custom);
      id in all && all[id] == builtIns[id]
  {
    AllThemesLookup(builtIns, RestoreThemeToDefault(builtIns, s, id).custom, id);
  }

  /** A custom theme with a built-in id overrides that built-in, and
    * selecting it makes it the theme in force. */
  lemma CustomOverridesBuiltIn(builtIns: map<string, Theme>, s: ThemeState, t: Theme)
    requires BuiltInsOk(builtIns) && t.id in builtIns
    ensures var r := CreateCustomTheme(s, t);
      IsThemeModified(builtIns, r, t.id)
      && t.id in AllThemes(builtIns, r.custom) && AllThemes(builtIns, r.custom)[t.id] == t
      && ActiveTheme(builtIns, SetTheme(builtIns, r, t.id)) == t
  {
    var r := CreateCustomTheme(s, t);
    assert t in r.custom;
    LastIsAppended(s.custom, t);
    AllThemesLookup(builtIns, r.custom, t.id);
  }

  /** The theme appended last is the last with its id. */
  lemma {:induction false} LastIsAppended(custom: seq<Theme>, t: Theme)
    ensures LastWithId(custom + [t], t.id) == Some(t)
    decreases |custom|
  {
    if custom == [] {
      assert LastWithId([t][1..], t.id) == None;
    } else {
      assert (custom + [t])[1..] == custom[1..] + [t];
      LastIsAppended(custom[1..], t);
    }
  }

  /** Once the selected theme is deleted, the theme in force is light. */
  lemma DeleteSelectedGivesLight(builtIns: map<string, Theme>, s: ThemeState)
    requires BuiltInsOk(builtIns)
    ensures var r := DeleteCustomTheme(s, s.current);
      r.current == "light" && "light" in AllThemes(builtIns, r.custom)
  {
    AllThemesLookup(builtIns, DeleteCustomTheme(s, s.current).custom, "light");
  }
}
