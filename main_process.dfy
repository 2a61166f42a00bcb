/**
 * The main process: the module-level visibility and session flags, the settings
 * object it keeps in memory next to the file on disk, and the handlers of tray
 * clicks, IPC messages and the operating system's lock-screen event that move them.
 */
module MainProcess {
  import opened Wrappers
  import opened Config
  import Text

  // ---------------------------------------------------------------------------
  // Pure choices made while starting up
  // ---------------------------------------------------------------------------

  datatype Platform = Windows | Mac | Linux

  /** The platform name derived from `process.platform`. */
  function PlatformOf(processPlatform: string): (r: Platform)
    ensures r == Windows <==> processPlatform == "win32"
    ensures r == Mac <==> processPlatform == "darwin"
  {
    if processPlatform == "win32" then Windows
    else if processPlatform == "darwin" then Mac
    else Linux
  }

  /** The two translations the program ships. */
  datatype Language = En | Hu

  /**
   * The locale code the program switches on: the configured language when it is
   * not null (a missing key reads as `undefined`), otherwise the first two letters
   * of the operating system locale, lower-cased.
   */
  function LocaleCode(language: Maybe<Option<string>>, appLocale: string): (r: Option<string>)
    ensures r.None? <==> language.Missing?
    ensures language.Has? && language.value.Some? ==> r == language.value
    ensures language == Has(None) ==> |r.value| == (if |appLocale| < 2 then |appLocale| else 2)
  {
    match language
    case Missing => None
    case Has(Some(code)) => Some(code)
    case Has(None) => Some(Text.Lower(Text.Take(appLocale, 2)))
  }

  /** The translation selected from a locale code: "hu" gives Hungarian, anything else English. */
  function ChooseLanguage(language: Maybe<Option<string>>, appLocale: string): (r: Language)
    ensures r == Hu <==> LocaleCode(language, appLocale) == Some("hu")
    ensures language.Has? && language.value.Some? ==> (r == Hu <==> language.value.value == "hu")
    ensures language.Missing? ==> r == En
  {
    match LocaleCode(language, appLocale)
    case Some(code) => if code == "en" then En else if code == "hu" then Hu else En
    case None => En
  }

  /** With no configured language, a Hungarian operating system locale in any letter case selects Hungarian. */
  lemma HungarianSystemLocale(appLocale: string)
    requires |appLocale| >= 2
    ensures ChooseLanguage(Has(None), appLocale) == Hu
        <==> Text.LowerChar(appLocale[0]) == 'h' && Text.LowerChar(appLocale[1]) == 'u'
  {
  }

  /** The launch count above which the info prompt is shown. */
  function InfoThreshold(st: Statistics): (r: nat)
    ensures r == 100 <==> st.rated == Some(true) && st.feedback == Some(true)
    ensures r == 50 <==> (st.rated == Some(true)) != (st.feedback == Some(true))
    ensures r == 15 <==> st.rated != Some(true) && st.feedback != Some(true)
  {
    if st.rated == Some(true) && st.feedback == Some(true) then 100
    else if st.rated == Some(true) || st.feedback == Some(true) then 50
    else 15
  }

  /** Whether the info prompt is armed at this launch count. */
  predicate ShowsInfo(st: Statistics)
  {
    st.opens > InfoThreshold(st)
  }

  /** The settings after one more launch is counted by `createWindows`. */
  function Launched(s: SettingsFile): (r: SettingsFile)
    ensures r.statistics.opens == s.statistics.opens + 1
    ensures r == s.(statistics := r.statistics)
    ensures r.statistics.rated == s.statistics.rated && r.statistics.feedback == s.statistics.feedback
  {
    s.(statistics := s.statistics.(opens := s.statistics.opens + 1))
  }

  /** The settings after n launches. */
  function Launches(s: SettingsFile, n: nat): SettingsFile
  {
    if n == 0 then s else Launched(Launches(s, n - 1))
  }

  /**
   * After rating or starring resets the launch count, the next fifteen launches
   * do not show the info prompt, whatever the rating and feedback flags say.
   */
  lemma {:induction false} ResetPostponesInfo(s: SettingsFile, n: nat)
    requires s.statistics.opens == 0 && n <= 15
    ensures Launches(s, n).statistics.opens == n
    ensures Launches(s, n).statistics.rated == s.statistics.rated
    ensures Launches(s, n).statistics.feedback == s.statistics.feedback
    ensures !ShowsInfo(Launches(s, n).statistics)
  {
    if n > 0 {
      ResetPostponesInfo(s, n - 1);
    }
  }

  /** The tray actions that can be bound to a global shortcut. */
  datatype GlobalAction = ShowApp | ShowSettings | ExitApp

  /** The actions registered from the `global_shortcuts` block: every one whose accelerator is not "None". */
  function RegisteredShortcuts(gs: GlobalShortcuts): (r: set<GlobalAction>)
    ensures ShowApp in r <==> gs.show != "None"
    ensures ShowSettings in r <==> gs.settings != "None"
    ensures ExitApp in r <==> gs.exit != "None"
  {
    (if gs.show != "None" then {ShowApp} else {})
    + (if gs.settings != "None" then {ShowSettings} else {})
    + (if gs.exit != "None" then {ExitApp} else {})
  }

  // ---------------------------------------------------------------------------
  // The session and visibility flags and their transitions
  // ---------------------------------------------------------------------------

  /** A snapshot of the session flag and the window-visibility flags. */
  datatype Flags = Flags(authenticated: bool, confirmShown: bool, codesShown: bool, settingsShown: bool, toolsShown: bool)

  /** Protected surfaces may be toggled when a password is required and given, or when none is required. */
  predicate MayToggle(requirePassword: Tri, authenticated: bool)
  {
    (requirePassword == True && authenticated) || requirePassword == False
  }

  /** Nothing protected is visible and the session is locked. */
  predicate Locked(f: Flags)
  {
    !f.authenticated && !f.codesShown && !f.settingsShown && !f.toolsShown
  }

  /** The tray's "show Authme" action. */
  function ShowAppStep(f: Flags, rp: Tri): (r: Flags)
    ensures r.authenticated == f.authenticated
    ensures MayToggle(rp, f.authenticated) && !f.codesShown ==>
              r == f.(codesShown := true)
    ensures MayToggle(rp, f.authenticated) && f.codesShown ==>
              r == f.(codesShown := false, settingsShown := false, toolsShown := false)
    ensures rp == True && !f.authenticated ==>
              r.confirmShown == !f.confirmShown && r.codesShown == r.confirmShown
              && r.settingsShown == f.settingsShown && r.toolsShown == f.toolsShown
    ensures rp == Null ==> r == f
  {
    if MayToggle(rp, f.authenticated) then
      if !f.codesShown then f.(codesShown := true)
      else f.(codesShown := false, settingsShown := false, toolsShown := false)
    else if rp == True then
      if !f.confirmShown then f.(confirmShown := true, codesShown := true)
      else f.(confirmShown := false, codesShown := false)
    else f
  }

  /** The tray's "settings" action. */
  function SettingsFromTrayStep(f: Flags, rp: Tri): (r: Flags)
    ensures r.settingsShown == (f.settingsShown != MayToggle(rp, f.authenticated))
    ensures r == f.(settingsShown := r.settingsShown)
    ensures !MayToggle(rp, f.authenticated) <==> r == f
  {
    if MayToggle(rp, f.authenticated) then f.(settingsShown := !f.settingsShown) else f
  }

  /** The operating system's lock-screen event. */
  function LockScreenStep(f: Flags, rp: Tri): (r: Flags)
    ensures rp == True ==> Locked(r) && r.confirmShown == f.confirmShown
    ensures rp != True ==> r == f
  {
    if rp == True then f.(authenticated := false, codesShown := false, settingsShown := false, toolsShown := false)
    else f
  }

  /** Locking twice is locking once. */
  lemma LockScreenIdempotent(f: Flags, rp: Tri)
    ensures LockScreenStep(LockScreenStep(f, rp), rp) == LockScreenStep(f, rp)
  {
  }

  /**
   * Once the screen has locked a password-protected session, no series of tray
   * clicks unlocks it or opens the settings or tools windows.
   */
  lemma {:induction false} LockedSessionStaysGuarded(f: Flags, clicks: seq<bool>)
    ensures var h := TrayClicks(LockScreenStep(f, True), clicks);
            !h.authenticated && !h.settingsShown && !h.toolsShown
    decreases |clicks|
  {
    if clicks != [] {
      LockedSessionStaysGuarded(f, clicks[..|clicks| - 1]);
    }
  }

  /** A series of tray clicks under a required password: true is "show Authme", false is "settings". */
  function TrayClicks(f: Flags, clicks: seq<bool>): Flags
  {
    if clicks == [] then f
    else
      var g := TrayClicks(f, clicks[..|clicks| - 1]);
      if clicks[|clicks| - 1] then ShowAppStep(g, True) else SettingsFromTrayStep(g, True)
  }

  /** After unlocking, two "show Authme" clicks bring back a hidden codes window and hide it again, closing settings and tools. */
  lemma ShowTwiceAfterUnlock(f: Flags, rp: Tri)
    requires rp != Null && !f.codesShown
    ensures var g := f.(authenticated := true);
            ShowAppStep(ShowAppStep(g, rp), rp) == g.(settingsShown := false, toolsShown := false)
  {
  }

  /** The flags when the process starts: everything hidden and the session locked. */
  const StartFlags := Flags(false, false, false, false, false)

  /**
   * The `ready-to-show` handler registered at start-up for the window shown first;
   * `hidden` is the `--hidden` launch argument. Under a required password the
   * confirm window appears; with no password the codes window appears and the
   * session unlocks; before the first-run setup only the landing page appears,
   * which these flags do not track. An unlocked session ignores the event.
   */
  function ReadyStep(f: Flags, rp: Tri, hidden: bool): (r: Flags)
    ensures r.authenticated <==> f.authenticated || rp == False
    ensures r.settingsShown == f.settingsShown && r.toolsShown == f.toolsShown
    ensures f.authenticated || rp == Null ==> r == f
    ensures rp == True ==> r.codesShown == f.codesShown
    ensures rp == False ==> r.confirmShown == f.confirmShown
    ensures !f.authenticated && rp == True ==> r.confirmShown == (f.confirmShown || !hidden)
    ensures !f.authenticated && rp == False ==> r.codesShown == (f.codesShown || !hidden)
  {
    if f.authenticated then f
    else if rp == True then (if hidden then f else f.(confirmShown := true))
    else if rp == False then (if hidden then f.(authenticated := true) else f.(authenticated := true, codesShown := true))
    else f
  }

  /** A second `ready-to-show` event changes nothing. */
  lemma ReadyStepIdempotent(f: Flags, rp: Tri, hidden: bool)
    ensures ReadyStep(ReadyStep(f, rp, hidden), rp, hidden) == ReadyStep(f, rp, hidden)
  {
  }

  /**
   * At start-up without a password the session unlocks and the codes window
   * shows unless launched hidden; under a required password the session stays
   * locked, and no series of tray clicks then unlocks it or opens settings or tools.
   */
  lemma {:induction false} StartUpGuard(hidden: bool, clicks: seq<bool>)
    ensures ReadyStep(StartFlags, False, hidden) == Flags(true, false, !hidden, false, false)
    ensures Locked(ReadyStep(StartFlags, True, hidden))
    ensures var h := TrayClicks(ReadyStep(StartFlags, True, hidden), clicks);
            !h.authenticated && !h.settingsShown && !h.toolsShown
  {
    var g := ReadyStep(StartFlags, True, hidden);
    assert LockScreenStep(g, True) == g;
    LockedSessionStaysGuarded(g, clicks);
  }

  /** The windows that hide instead of closing. */
  datatype Window = CodesWindow | SettingsWindow | ToolsWindow

  /** A window's `close` handler when it hides: only that window's flag clears. */
  function HideStep(f: Flags, w: Window): (r: Flags)
    ensures r.authenticated == f.authenticated && r.confirmShown == f.confirmShown
    ensures r.codesShown == (f.codesShown && w != CodesWindow)
    ensures r.settingsShown == (f.settingsShown && w != SettingsWindow)
    ensures r.toolsShown == (f.toolsShown && w != ToolsWindow)
  {
    match w
    case CodesWindow => f.(codesShown := false)
    case SettingsWindow => f.(settingsShown := false)
    case ToolsWindow => f.(toolsShown := false)
  }

  /** Closing windows never unlocks a locked session or shows anything protected. */
  lemma {:induction false} HidingKeepsLocked(f: Flags, ws: seq<Window>)
    requires Locked(f)
    ensures Locked(HideAll(f, ws))
    decreases |ws|
  {
    if ws != [] {
      HidingKeepsLocked(f, ws[..|ws| - 1]);
    }
  }

  /** A series of window closes. */
  function HideAll(f: Flags, ws: seq<Window>): Flags
  {
    if ws == [] then f else HideStep(HideAll(f, ws[..|ws| - 1]), ws[|ws| - 1])
  }

  // ---------------------------------------------------------------------------
  // The process state
  // ---------------------------------------------------------------------------

  /**
   * The main process's module-level state: the settings object in memory, the
   * settings file on disk, the window flags, the shortcut switch, the password
   * buffer the confirm page hands over and the set of registered global shortcuts.
   */
  class App {
    var settings: SettingsFile
    var disk: SettingsFile
    var landingShown: bool
    var confirmShown: bool
    var codesShown: bool
    var settingsShown: bool
    var toolsShown: bool
    var authenticated: bool
    var shortcuts: bool
    var passwordBuffer: Option<seq<int>>
    var registered: set<GlobalAction>
    var running: bool

    ghost function Snapshot(): Flags
      reads this
    {
      Flags(authenticated, confirmShown, codesShown, settingsShown, toolsShown)
    }

    ghost function RequirePassword(): Tri
      reads this
    {
      settings.security.requirePassword
    }

    /**
     * Process start: the settings file is created from the defaults when it does
     * not exist, then read into memory; every flag starts false.
     */
    constructor Start(existing: Option<SettingsFile>)
      ensures disk == (if existing.Some? then existing.value else DefaultSettings())
      ensures settings == disk
      ensures Snapshot() == StartFlags && !landingShown && !shortcuts
      ensures passwordBuffer == None && registered == {} && running
    {
      disk := if existing.Some? then existing.value else DefaultSettings();
      settings := disk;
      landingShown, confirmShown, codesShown, settingsShown, toolsShown := false, false, false, false, false;
      authenticated, shortcuts := false, false;
      passwordBuffer := None;
      registered := {};
      running := true;
    }

    /** `saveSettings`: the file on disk becomes the settings in memory. */
    method SaveSettings()
      modifies this`disk
      ensures disk == settings
    {
      disk := settings;
    }

    /**
     * The compatibility pass: each missing key receives its default and the file is
     * rewritten after each change; a document that needs nothing is not rewritten.
     */
    method Migrate()
      modifies this`settings, this`disk
      ensures settings == Migrated(old(settings))
      ensures disk == if settings == old(settings) then old(disk) else settings
    {
      if settings.settings.language.Missing? {
        settings := settings.(settings := settings.settings.(language := Has(None)));
        SaveSettings();
      }
      if settings.settings.sort.Missing? {
        settings := settings.(settings := settings.settings.(sort := Has(None)));
        SaveSettings();
      }
      if settings.window.Missing? {
        settings := settings.(window := Has(DefaultWindow));
        SaveSettings();
      }
      if settings.window.value.maximized.Missing? {
        settings := settings.(window := Has(settings.window.value.(maximized := Has(true))));
        SaveSettings();
      }
      if settings.settings.analytics.Missing? {
        settings := settings.(settings := settings.settings.(analytics := Has(true)));
        SaveSettings();
      }
      if settings.settings.integrations.Missing? {
        settings := settings.(settings := settings.settings.(integrations := Has(false)));
        SaveSettings();
      }
    }

    /** `showAppFromTray`. */
    method ShowAppFromTray()
      modifies this`confirmShown, this`codesShown, this`settingsShown, this`toolsShown
      ensures Snapshot() == ShowAppStep(old(Snapshot()), RequirePassword())
    {
      var rp := settings.security.requirePassword;
      if (rp == True && authenticated) || rp == False {
        if !codesShown {
          codesShown := true;
        } else {
          codesShown, settingsShown, toolsShown := false, false, false;
        }
      } else if rp == True {
        if !confirmShown {
          confirmShown, codesShown := true, true;
        } else {
          confirmShown, codesShown := false, false;
        }
      }
    }

    /** `settingsFromTray`. */
    method SettingsFromTray()
      modifies this`settingsShown
      ensures Snapshot() == SettingsFromTrayStep(old(Snapshot()), RequirePassword())
    {
      var rp := settings.security.requirePassword;
      if (rp == True && authenticated) || rp == False {
        settingsShown := !settingsShown;
      }
    }

    /** `saveWindowPosition`: re-read the file, keep the in-memory window block, write it back. */
    method SaveWindowPosition()
      modifies this`settings, this`disk
      ensures settings == old(disk).(window := old(settings).window)
      ensures disk == settings
    {
      var windowPosition := settings.window;
      settings := disk;
      settings := settings.(window := windowPosition);
      SaveSettings();
    }

    /** `exitFromTray`: save the window position, zero the password buffer if there is one, exit. */
    method ExitFromTray()
      modifies this`settings, this`disk, this`passwordBuffer, this`running
      ensures settings == old(disk).(window := old(settings).window) && disk == settings
      ensures passwordBuffer == match old(passwordBuffer)
                                case None => None
                                case Some(b) => Some(seq(|b|, _ => 0))
      ensures !running
    {
      SaveWindowPosition();
      if passwordBuffer.Some? {
        passwordBuffer := Some(seq(|passwordBuffer.value|, _ => 0));
      }
      running := false;
    }

    /**
     * The `ready-to-show` handler of the window shown first (see `ReadyStep`). The
     * handler is registered for the requirement read at start-up; the confirm and
     * codes handlers re-read the settings file first.
     */
    method ReadyToShow(hidden: bool)
      modifies this`settings, this`landingShown, this`confirmShown, this`codesShown, this`authenticated
      ensures Snapshot() == ReadyStep(old(Snapshot()), old(RequirePassword()), hidden)
      ensures landingShown == (old(landingShown) || (!old(authenticated) && old(RequirePassword()) == Null))
      ensures settings == if old(authenticated) || old(RequirePassword()) == Null then old(settings) else disk
    {
      var rp := settings.security.requirePassword;
      if !authenticated {
        if rp == Null {
          landingShown := true;
        } else if rp == True {
          settings := disk;
          if !hidden {
            confirmShown := true;
          }
        } else {
          settings := disk;
          if !hidden {
            codesShown := true;
          }
          authenticated := true;
        }
      }
    }

    /** The security window's `close` handler: the process exits. */
    method CloseSecurity()
      modifies this`running
      ensures !running
    {
      running := false;
    }

    /**
     * The codes window's `close` handler: save the window position; in development
     * exit; otherwise quit, zeroing the password buffer, unless `close_to_tray` is
     * on, in which case the window only hides.
     */
    method CloseCodes(dev: bool)
      modifies this`settings, this`disk, this`passwordBuffer, this`running, this`codesShown
      ensures settings == old(disk).(window := old(settings).window) && disk == settings
      ensures dev || !settings.settings.closeToTray ==> !running && codesShown == old(codesShown)
      ensures !dev && !settings.settings.closeToTray ==>
                passwordBuffer == match old(passwordBuffer)
                                  case None => None
                                  case Some(b) => Some(seq(|b|, _ => 0))
      ensures dev || settings.settings.closeToTray ==> passwordBuffer == old(passwordBuffer)
      ensures !dev && settings.settings.closeToTray ==>
                running == old(running) && Snapshot() == HideStep(old(Snapshot()), CodesWindow)
    {
      SaveWindowPosition();
      if dev {
        running := false;
      } else if !settings.settings.closeToTray {
        if passwordBuffer.Some? {
          passwordBuffer := Some(seq(|passwordBuffer.value|, _ => 0));
        }
        running := false;
      } else {
        codesShown := false;
      }
    }

    /** The settings window's `close` handler: the window hides. */
    method CloseSettings()
      modifies this`settingsShown
      ensures Snapshot() == HideStep(old(Snapshot()), SettingsWindow)
    {
      settingsShown := false;
    }

    /** The tools window's `close` handler: the window hides. */
    method CloseTools()
      modifies this`toolsShown
      ensures Snapshot() == HideStep(old(Snapshot()), ToolsWindow)
    {
      toolsShown := false;
    }

    /** Register every global shortcut whose accelerator is not "None". */
    method RegisterShortcuts()
      modifies this`registered
      ensures registered == old(registered) + RegisteredShortcuts(settings.globalShortcuts)
    {
      if settings.globalShortcuts.show != "None" {
        registered := registered + {ShowApp};
      }
      if settings.globalShortcuts.settings != "None" {
        registered := registered + {ShowSettings};
      }
      if settings.globalShortcuts.exit != "None" {
        registered := registered + {ExitApp};
      }
    }

    /**
     * The state-changing part of `createWindows`: pick the translation, register the
     * global shortcuts that are not "None", count this launch and save, and report
     * whether the info prompt is armed.
     */
    method CreateWindows(appLocale: string) returns (lang: Language, showInfo: bool)
      modifies this`settings, this`disk, this`registered
      ensures lang == ChooseLanguage(old(settings).settings.language, appLocale)
      ensures registered == old(registered) + RegisteredShortcuts(old(settings).globalShortcuts)
      ensures settings == Launched(old(settings))
      ensures disk == settings
      ensures showInfo == ShowsInfo(settings.statistics)
    {
      lang := ChooseLanguage(settings.settings.language, appLocale);

      RegisterShortcuts();

      var opens := settings.statistics.opens;
      opens := opens + 1;
      settings := settings.(statistics := settings.statistics.(opens := opens));
      SaveSettings();

      showInfo := opens > InfoThreshold(settings.statistics);
    }

    /** The `toApplicationFromConfirm` message: unlock once, re-reading the settings file. */
    method ToApplicationFromConfirm()
      modifies this`settings, this`authenticated
      ensures old(authenticated) ==> settings == old(settings) && Snapshot() == old(Snapshot())
      ensures !old(authenticated) ==> settings == disk && Snapshot() == old(Snapshot()).(authenticated := true)
    {
      if !authenticated {
        settings := disk;
        authenticated := true;
      }
    }

    /** The `toApplicationFromLanding` message: the same unlock, after the first-run setup. */
    method ToApplicationFromLanding()
      modifies this`settings, this`authenticated
      ensures old(authenticated) ==> settings == old(settings) && Snapshot() == old(Snapshot())
      ensures !old(authenticated) ==> settings == disk && Snapshot() == old(Snapshot()).(authenticated := true)
    {
      if !authenticated {
        settings := disk;
        authenticated := true;
      }
    }

    /** The `toggleSettings` message: flips the settings window with no password check. */
    method ToggleSettings()
      modifies this`settingsShown
      ensures Snapshot() == old(Snapshot()).(settingsShown := !old(settingsShown))
    {
      settingsShown := !settingsShown;
    }

    /** The `toggleToolsWindow` call: flips the tools window with no password check. */
    method ToggleTools()
      modifies this`toolsShown
      ensures Snapshot() == old(Snapshot()).(toolsShown := !old(toolsShown))
    {
      toolsShown := !toolsShown;
    }

    /** The `toggleImportWindow` call: shows the tools window on the import page, with no password check. */
    method ShowImport()
      modifies this`toolsShown
      ensures Snapshot() == old(Snapshot()).(toolsShown := true)
    {
      toolsShown := true;
    }

    /** The `sendPassword` call from the confirm page: the password buffer becomes a copy of the data. */
    method SendPassword(data: seq<int>)
      modifies this`passwordBuffer
      ensures passwordBuffer == Some(data)
    {
      passwordBuffer := Some(data);
    }

    /** The `toConfirm` message: while locked, re-read the settings file before the confirm page loads. */
    method ToConfirm()
      modifies this`settings
      ensures settings == if old(authenticated) then old(settings) else disk
    {
      if !authenticated {
        settings := disk;
      }
    }

    /** The `rateAuthme` message: reset the launch count and remember the rating. */
    method RateAuthme()
      modifies this`settings, this`disk
      ensures settings == old(settings).(statistics := old(settings).statistics.(opens := 0, rated := Some(true)))
      ensures disk == settings
    {
      settings := settings.(statistics := settings.statistics.(opens := 0));
      settings := settings.(statistics := settings.statistics.(rated := Some(true)));
      SaveSettings();
    }

    /** The `starAuthme` message: reset the launch count only. */
    method StarAuthme()
      modifies this`settings, this`disk
      ensures settings == old(settings).(statistics := old(settings).statistics.(opens := 0))
      ensures disk == settings
    {
      settings := settings.(statistics := settings.statistics.(opens := 0));
      SaveSettings();
    }

    /** The `provideFeedback` message: remember that feedback was given. */
    method ProvideFeedback()
      modifies this`settings, this`disk
      ensures settings == old(settings).(statistics := old(settings).statistics.(feedback := Some(true)))
      ensures disk == settings
    {
      settings := settings.(statistics := settings.statistics.(feedback := Some(true)));
      SaveSettings();
    }

    /** The `lock-screen` power event. */
    method LockScreen()
      modifies this`authenticated, this`codesShown, this`settingsShown, this`toolsShown
      ensures Snapshot() == LockScreenStep(old(Snapshot()), RequirePassword())
    {
      if settings.security.requirePassword == True {
        codesShown, settingsShown, toolsShown := false, false, false;
        authenticated := false;
      }
    }

    /**
     * The `toggleShortcuts` call: switching off unregisters every global shortcut;
     * switching on re-reads the settings file and registers those not set to "None".
     */
    method ToggleShortcuts()
      modifies this`shortcuts, this`settings, this`registered
      ensures shortcuts == !old(shortcuts)
      ensures !old(shortcuts) ==> registered == {} && settings == old(settings)
      ensures old(shortcuts) ==> settings == disk && registered == old(registered) + RegisteredShortcuts(disk.globalShortcuts)
    {
      if !shortcuts {
        shortcuts := true;
        registered := {};
      } else {
        shortcuts := false;
        settings := disk;
        RegisterShortcuts();
      }
    }

    /** The `refreshShortcuts` call: re-read the file, unregister everything, register again. */
    method RefreshShortcuts()
      modifies this`settings, this`registered
      ensures settings == disk
      ensures registered == RegisteredShortcuts(disk.globalShortcuts)
    {
      settings := disk;
      registered := {};
      RegisterShortcuts();
    }
  }
}
