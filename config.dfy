/**
 * The settings document `settings/settings.json` that the main process reads at
 * start-up, together with the compatibility pass that fills in keys written by
 * older versions of the program.
 */
module Config {
  import opened Wrappers

  /** `security.require_password`: `null` until the first-run setup, then `true` or `false`. */
  datatype Tri = Null | True | False

  datatype Security = Security(requirePassword: Tri, password: Option<string>, key: Option<string>)

  /** The `window` block; `maximized` may be missing in files written by older versions. */
  datatype WindowState = WindowState(x: int, y: int, height: int, width: int, maximized: Maybe<bool>)

  /** The keys of the `settings` block that the compatibility pass and the window handlers look at. */
  datatype Preferences = Preferences(
    closeToTray: bool,
    language: Maybe<Option<string>>,
    sort: Maybe<Option<string>>,
    analytics: Maybe<bool>,
    integrations: Maybe<bool>)

  /** The `global_shortcuts` block: one accelerator per tray action, or "None". */
  datatype GlobalShortcuts = GlobalShortcuts(show: string, settings: string, exit: string)

  /** The `statistics` block: launch count and the two "already did it" flags (null at first). */
  datatype Statistics = Statistics(opens: int, rated: Option<bool>, feedback: Option<bool>)

  datatype SettingsFile = SettingsFile(
    settings: Preferences,
    security: Security,
    globalShortcuts: GlobalShortcuts,
    statistics: Statistics,
    window: Maybe<WindowState>)

  const DefaultWindow := WindowState(0, 0, 1900, 1000, Has(true))

  /** The document written when no settings file exists yet. */
  function DefaultSettings(): (d: SettingsFile)
    ensures d.security == Security(Null, None, None)
    ensures d.statistics == Statistics(0, None, None)
    ensures d.settings.integrations == Has(true)
    ensures d.settings.closeToTray
  {
    SettingsFile(
      Preferences(true, Has(None), Has(None), Has(true), Has(true)),
      Security(Null, None, None),
      GlobalShortcuts("CmdOrCtrl+Shift+a", "CmdOrCtrl+Shift+s", "CmdOrCtrl+Shift+d"),
      Statistics(0, None, None),
      Has(DefaultWindow))
  }

  /** Every key that the compatibility pass fills in is present. */
  predicate Complete(s: SettingsFile)
  {
    && s.settings.language.Has?
    && s.settings.sort.Has?
    && s.window.Has?
    && s.window.value.maximized.Has?
    && s.settings.analytics.Has?
    && s.settings.integrations.Has?
  }

  /**
   * The document after the compatibility pass: each missing key gets its default,
   * each present key keeps its value, and the other blocks are untouched.
   */
  function Migrated(s: SettingsFile): (r: SettingsFile)
    ensures Complete(r)
    ensures Complete(s) ==> r == s
    ensures r.settings.language == if s.settings.language.Missing? then Has(None) else s.settings.language
    ensures r.settings.sort == if s.settings.sort.Missing? then Has(None) else s.settings.sort
    ensures r.settings.analytics == if s.settings.analytics.Missing? then Has(true) else s.settings.analytics
    ensures r.settings.integrations == if s.settings.integrations.Missing? then Has(false) else s.settings.integrations
    ensures r.settings.closeToTray == s.settings.closeToTray
    ensures s.window.Missing? ==> r.window == Has(DefaultWindow)
    ensures s.window.Has? ==>
              && r.window.value.x == s.window.value.x && r.window.value.y == s.window.value.y
              && r.window.value.height == s.window.value.height && r.window.value.width == s.window.value.width
              && r.window.value.maximized == (if s.window.value.maximized.Missing? then Has(true) else s.window.value.maximized)
    ensures r.security == s.security && r.statistics == s.statistics && r.globalShortcuts == s.globalShortcuts
  {
    var p := s.settings;
    var w := if s.window.Missing? then DefaultWindow else s.window.value;
    SettingsFile(
      Preferences(
        p.closeToTray,
        if p.language.Missing? then Has(None) else p.language,
        if p.sort.Missing? then Has(None) else p.sort,
        if p.analytics.Missing? then Has(true) else p.analytics,
        if p.integrations.Missing? then Has(false) else p.integrations),
      s.security,
      s.globalShortcuts,
      s.statistics,
      Has(w.(maximized := if w.maximized.Missing? then Has(true) else w.maximized)))
  }

  /** Running the compatibility pass a second time changes nothing. */
  lemma MigratedIdempotent(s: SettingsFile)
    ensures Migrated(Migrated(s)) == Migrated(s)
  {
  }

  /**
   * A fresh document needs no migration, yet a file lacking `integrations`
   * receives `false`, where a fresh document says `true`.
   */
  lemma DefaultsVersusMigration(s: SettingsFile)
    requires s.settings.integrations.Missing?
    ensures Migrated(DefaultSettings()) == DefaultSettings()
    ensures Migrated(s).settings.integrations != DefaultSettings().settings.integrations
  {
  }
}
