/** The single application-settings row (sprint and quarterly goal texts):
    read with lazy creation, and patched with creation when missing. */
module AppSettings {
  import opened Common
  import opened Db

  /** The row `get_app_settings` creates when there is none. */
  function DefaultSettings(): (s: Settings)
    ensures s.sprintGoals == "" && s.quarterlyGoals == ""
  {
    Settings("", "")
  }

  /** `get_app_settings()` on the tables `t`: the row, created with empty
      texts on first read. */
  function GetSettingsIn(t: Tables): (o: Outcome<Settings>)
    ensures o.result.Ok? && o.tables.settings == Some(o.result.value)
    ensures t.settings.Some? ==> o.result.value == t.settings.value && o.tables == t
    ensures t.settings.None? ==> o.result.value == DefaultSettings() && o.tables == t.(settings := Some(DefaultSettings()))
  {
    match t.settings
    case Some(s) => Outcome(Ok(s), t)
    case None => Outcome(Ok(DefaultSettings()), t.(settings := Some(DefaultSettings())))
  }

  /** `update_app_settings(update)` on the tables `t`: on an existing row
      each text that was sent replaces the stored one; a missing row is
      created from the texts sent, `or ""` for the rest. */
  function PatchSettingsIn(t: Tables, sprint: Option<string>, quarterly: Option<string>): (o: Outcome<Settings>)
    ensures o.result.Ok? && o.tables == t.(settings := Some(o.result.value))
    ensures t.settings.Some? ==>
      o.result.value == Settings(Pick(sprint, t.settings.value.sprintGoals), Pick(quarterly, t.settings.value.quarterlyGoals))
    ensures t.settings.None? ==> o.result.value == Settings(Pick(sprint, ""), Pick(quarterly, ""))
  {
    match t.settings
    case Some(s) =>
      var u := Settings(if sprint.Some? then sprint.value else s.sprintGoals,
                        if quarterly.Some? then quarterly.value else s.quarterlyGoals);
      Outcome(Ok(u), t.(settings := Some(u)))
    case None =>
      var u := Settings(OrEmpty(sprint), OrEmpty(quarterly));
      Outcome(Ok(u), t.(settings := Some(u)))
  }

  /** Python's `x or ""` on an optional string. */
  function OrEmpty(x: Option<string>): (r: string)
    ensures x.None? ==> r == ""
    ensures x.Some? ==> r == x.value
  {
    if x.None? || x.value == "" then "" else x.value
  }

  /** Patching a missing row gives the same row as reading first (which
      creates the empty default) and then patching it. */
  lemma PatchAgreesWithLazyCreate(t: Tables, sprint: Option<string>, quarterly: Option<string>)
    ensures PatchSettingsIn(t, sprint, quarterly) == PatchSettingsIn(GetSettingsIn(t).tables, sprint, quarterly)
  {
  }

  /** A read after a patch returns what the patch returned and changes
      nothing. */
  lemma ReadAfterPatch(t: Tables, sprint: Option<string>, quarterly: Option<string>)
    ensures var o := PatchSettingsIn(t, sprint, quarterly);
      GetSettingsIn(o.tables) == Outcome(o.result, o.tables)
  {
  }

  /** A patch that sends nothing keeps an existing row. */
  lemma EmptyPatchKeepsRow(t: Tables)
    requires t.settings.Some?
    ensures PatchSettingsIn(t, None, None) == Outcome(Ok(t.settings.value), t)
  {
  }

  /** The route `get_app_settings`. */
  method GetSettings(db: Store) returns (r: Settings)
    requires db.Valid()
    modifies db
    ensures db.Valid()
    ensures Outcome(Ok(r), db.State()) == GetSettingsIn(old(db.State()))
  {
    if db.settings.None? {
      db.settings := Some(DefaultSettings());
    }
    r := db.settings.value;
  }

  /** The route `update_app_settings`. */
  method PatchSettings(db: Store, sprint: Option<string>, quarterly: Option<string>) returns (r: Settings)
    requires db.Valid()
    modifies db
    ensures db.Valid()
    ensures Outcome(Ok(r), db.State()) == PatchSettingsIn(old(db.State()), sprint, quarterly)
  {
    if db.settings.None? {
      db.settings := Some(Settings(OrEmpty(sprint), OrEmpty(quarterly)));
    } else {
      var s := db.settings.value;
      if sprint.Some? {
        s := s.(sprintGoals := sprint.value);
      }
      if quarterly.Some? {
        s := s.(quarterlyGoals := quarterly.value);
      }
      db.settings := Some(s);
    }
    r := db.settings.value;
  }
}
