# Authme core, modelled in Dafny

Authme is an Electron desktop manager for two-factor authentication codes. This
project models the parts of it that hold state and make decisions:

- **The main process** (`main_process.dfy`, `config.dfy`). It keeps module-level
  flags: whether the session is unlocked, and which of the confirm, codes,
  settings and tools windows are shown. It also keeps the settings document,
  both in memory and on disk. Tray clicks, IPC messages, window events and the
  operating system's lock-screen event move these flags. The tray actions are
  gated by the three-valued `security.require_password` (null, true or false)
  and the session flag. The `toggleSettings`, `toggleToolsWindow` and
  `toggleImportWindow` IPC calls are not gated.
  - Start-up runs a compatibility pass that fills in missing settings keys.
  - Start-up also picks the translation, registers the global shortcuts not set
    to "None", and counts the launch, which may arm the info prompt.
- **The import page** (`import_text.dfy`). Each decoded QR payload becomes one
  line of `output.txt`. The stand-alone export then reads those lines in groups
  of three (name, secret, issuer) and writes a plain-text block for each group.
  A second path writes two typed-in lines instead.
- **The first-run page** (`landing.dfy`). It decides whether a chosen password
  is acceptable. An accepted password is stored, as a hash with a fresh key, in
  the settings file and in the browser's storage item. The user may instead opt
  out of a password.
- **The settings page** (`settings_page.dfy`). It has six on/off switches. Two of
  them take effect at once; the other four ask whether to restart the app.
- **The logger** (`logger.dfy`). It formats log lines, names the log file after
  the time it was created, and only ever appends to it.

Shared pieces live in `wrappers.dfy`:
- `Wrappers` holds `Option` (a JSON `null`) and `Maybe` (a key that is absent,
  read as `undefined`).
- `Text` holds the string helpers used for `slice`, `substring`, joining and
  ASCII lower-casing.

Hashing, key generation, the common-password list, QR decoding, dialogs and
clocks are parameters of the operations that use them. Of the file writes, only
the text-import write's outcome is a parameter. Every other write is taken to
succeed; "Left out" says what the program does when one fails.

The settings page reads the settings file in the layout of an older version. Its
keys are `launch_on_startup`, `close_to_tray`, `show_2fa_names`,
`reset_after_copy`, `save_search_results` and `click_to_reveal`, so it is
modelled with its own record (`SettingsPage.Prefs`), not with the main process's
`Config.SettingsFile`.

## Model

| member | source | states |
|---|---|---|
| `Config.DefaultSettings` | main.js:198-259 | A fresh settings file has no password decision (null password and key), zero launches with no rating or feedback, and integrations on. |
| `Config.Migrated` | main.js:276-319 | The compatibility pass gives each missing key its default. `language` and `sort` become null, `window` gets the default position, `maximized` becomes true, `analytics` becomes true and `integrations` becomes false. Present keys and the security, shortcut and statistics blocks are unchanged. The result is complete, and a complete file is left as it is. |
| `Config.MigratedIdempotent` | main.js:279-319 | Running the compatibility pass twice equals running it once. |
| `Config.DefaultsVersusMigration` | main.js:198-319 | A fresh file needs no migration. A file that lacks `integrations` gets false, unlike the fresh-file default of true. |
| `MainProcess.PlatformOf` | main.js:90-96 | "win32" gives Windows, "darwin" gives Mac, and anything else gives Linux. |
| `MainProcess.LocaleCode` | main.js:463-470 | A missing `language` key gives no locale code. A configured language is used as it is. A null one gives the system locale's first two letters, lower-cased. |
| `MainProcess.ChooseLanguage` | main.js:461-484 | Hungarian is chosen exactly when the locale code is "hu". A configured (non-null) language wins. A missing key falls back to English. |
| `MainProcess.HungarianSystemLocale` | main.js:466-470 | With no configured language, Hungarian is chosen exactly when the first two letters of the system locale are "hu" in any letter case. |
| `MainProcess.InfoThreshold` | main.js:871-883 | The info-prompt threshold is 100 when both rated and feedback are true, 50 when exactly one is, and 15 otherwise. |
| `MainProcess.Launched` | main.js:859-861 | One launch adds exactly one to the launch count and changes nothing else. |
| `MainProcess.ResetPostponesInfo` | main.js:1267-1285 | After rating or starring resets the launch count to 0, n launches (for n up to 15) count exactly n and keep the rating and feedback flags, and none of them shows the info prompt. |
| `MainProcess.RegisteredShortcuts` | main.js:834-853 | A global shortcut is registered exactly when its accelerator is not "None". |
| `MainProcess.ShowAppStep` | main.js:336-381 | If the user may toggle (password required and unlocked, or not required), showing the codes opens them. Hiding them also closes settings and tools. If locked under a required password, the confirm and codes flags flip together. A null requirement changes nothing. The session flag never changes. |
| `MainProcess.SettingsFromTrayStep` | main.js:387-410 | The settings flag flips exactly when the user may toggle. Otherwise nothing changes, including when the requirement is null. |
| `MainProcess.LockScreenStep` | main.js:1548-1565 | With a required password, the session locks and the codes, settings and tools flags clear, while the confirm flag is kept. Otherwise nothing changes. |
| `MainProcess.LockScreenIdempotent` | main.js:1548-1565 | Locking twice is the same as locking once. |
| `MainProcess.LockedSessionStaysGuarded` | main.js:336-410 | After a lock under a required password, no series of tray clicks unlocks the session or opens settings or tools. |
| `MainProcess.ShowTwiceAfterUnlock` | main.js:336-360 | Once unlocked, two "show" clicks reopen hidden codes and then hide them, closing settings and tools. |
| `MainProcess.ReadyStep` | main.js:919-980 | Only a password-less start unlocks the session. Under a required password the confirm window shows unless launched `--hidden`, and the codes flag is kept. Without a password the codes window shows unless hidden. A null requirement, or an unlocked session, changes nothing. Settings and tools never change. |
| `MainProcess.ReadyStepIdempotent` | main.js:919-980 | A second `ready-to-show` event changes nothing. |
| `MainProcess.StartUpGuard` | main.js:336-410 | A password-less start (main.js:957-980) leaves the session unlocked, with the codes shown unless hidden. A protected start (main.js:940-955) stays locked, and no series of tray clicks then unlocks it or opens settings or tools. |
| `MainProcess.HideStep` | main.js:649-695 | A hiding `close` handler clears its own window's flag and no other. The session and the confirm flag are unchanged. |
| `MainProcess.HidingKeepsLocked` | main.js:649-695 | No series of window closes unlocks a locked session or shows anything protected. |
| `MainProcess.App.Start` | main.js:261-274 | The settings file is created from the defaults when absent and then read. Every flag starts false, with no password buffer and no shortcuts registered. |
| `MainProcess.App.SaveSettings` | main.js:266-268 | The file on disk becomes the settings in memory. |
| `MainProcess.App.Migrate` | main.js:279-319 | The settings in memory become `Migrated` of the old ones. The file is rewritten only if something changed. |
| `MainProcess.App.ShowAppFromTray` | main.js:336-381 | The flags move as `ShowAppStep` says, under the current requirement. |
| `MainProcess.App.SettingsFromTray` | main.js:387-410 | The flags move as `SettingsFromTrayStep` says. |
| `MainProcess.App.SaveWindowPosition` | main.js:430-436 | The settings become the on-disk settings, except for `window`, which keeps the in-memory value. The result is written back. |
| `MainProcess.App.ExitFromTray` | main.js:415-425 | The window position is saved, the password buffer (if any) is zero-filled with its length kept, and the process stops. |
| `MainProcess.App.RegisterShortcuts` | main.js:834-853 | It adds exactly the actions whose accelerator is not "None" to the registered set. |
| `MainProcess.App.CreateWindows` | main.js:461-884 | It returns the `ChooseLanguage` translation and registers the non-"None" shortcuts. The settings become `Launched` of the old ones (one more launch), are saved, and reports whether the count is above the threshold. |
| `MainProcess.App.ToApplicationFromConfirm` | main.js:1085-1104 | It acts only when not authenticated: it re-reads the settings file and leaves the session authenticated. Otherwise nothing changes. |
| `MainProcess.App.ToApplicationFromLanding` | main.js:1109-1125 | The same unlock, once, after the first-run page. |
| `MainProcess.App.ToggleSettings` | main.js:1130-1142 | It flips the settings flag with no password check and leaves every other flag as it was. |
| `MainProcess.App.ToggleTools` | main.js:1148-1162 | It flips the tools flag with no password check and leaves every other flag as it was. |
| `MainProcess.App.ShowImport` | main.js:1167-1178 | It shows the tools window, with no password check, and leaves every other flag as it was. |
| `MainProcess.App.SendPassword` | main.js:1301-1305 | The password buffer becomes a copy of the data sent by the confirm page. |
| `MainProcess.App.ToConfirm` | main.js:1074-1080 | While locked, the settings are re-read from the file. An unlocked session keeps its settings. |
| `MainProcess.App.RateAuthme` | main.js:1267-1275 | It resets the launch count to 0, sets rated, and saves. |
| `MainProcess.App.StarAuthme` | main.js:1279-1285 | It resets the launch count to 0 and saves. `rated` is untouched. |
| `MainProcess.App.ProvideFeedback` | main.js:1290-1296 | It sets feedback and saves. The launch count is untouched. |
| `MainProcess.App.LockScreen` | main.js:1548-1565 | The flags move as `LockScreenStep` says. The settings and the password buffer are untouched. |
| `MainProcess.App.ToggleShortcuts` | main.js:2016-2055 | Switching off unregisters every shortcut. Switching on re-reads the file and registers those not set to "None". |
| `MainProcess.App.RefreshShortcuts` | main.js:2059-2087 | It re-reads the file, and the registered set becomes exactly the shortcuts not set to "None". |
| `MainProcess.App.ReadyToShow` | main.js:919-980 | The flags move as `ReadyStep` says. Before the first-run setup, the landing page is marked shown. The confirm and codes handlers re-read the settings file first. An unlocked session ignores the event. |
| `MainProcess.App.CloseSecurity` | main.js:643-647 | Closing the security window exits the process. |
| `MainProcess.App.CloseCodes` | main.js:649-675 | The window position is saved first. In development the process exits. With `close_to_tray` off it quits after zero-filling the password buffer. Otherwise only the codes flag clears, as `HideStep` says. |
| `MainProcess.App.CloseSettings` | main.js:677-685 | The settings window hides: only the settings flag clears. |
| `MainProcess.App.CloseTools` | main.js:687-695 | The tools window hides: only the tools flag clears. |
| `Import.Lines` | app/import/src/js/index.js:325-337 | The reader emits lines with no line feed in them, and none at all only for an empty file. |
| `Import.LinesOfJoinLines` | app/import/src/js/index.js:325-389 | Reading back the lines of `output.txt`, each payload of which was appended with a newline, returns exactly the payloads, for payloads with no line feed. The model splits at "\n" only, so a payload with a lone "\r" is outside this promise (see Left out). |
| `Import.NextCounter` | app/import/src/js/index.js:383-388 | The counter cycles 0→1→2→0. |
| `Import.LineAppends` | app/import/src/js/index.js:337-389 | A line makes one append at counters 0 and 1 and two at counter 2 (the issuer and the `Type:` line). The last append ends with " \n". |
| `Import.FragmentText` | app/import/src/js/index.js:337-381 | The text a line contributes (the concatenation of its appends) is fixed by the counter. At 0 it is "\nName: " plus the line from offset 15. At 1 it is "Secret: " plus the line from offset 8. At 2 it is "Issuer: " plus the line from offset 8, then the `Type:` line. Each piece is followed by " \n". |
| `Import.ExportTextStep` | app/import/src/js/index.js:337-389 | The exported text of n+1 lines is that of n lines followed by the fragment of the last line at counter n mod 3. |
| `Import.ExportTypeLineCount` | app/import/src/js/index.js:363-381 | For n lines the exported text contains exactly floor(n/3) `Type:` lines. |
| `Import.ExportAppendsCount` | app/import/src/js/index.js:337-389 | n lines make exactly n + floor(n/3) calls of `appendFileSync`: one per line, plus one `Type:` line per complete block. |
| `Import.ExportTextEndsLine` | app/import/src/js/index.js:337-389 | The exported text of at least one line ends with " \n". |
| `Import.ExportBlock` | app/import/src/js/index.js:339-381 | Every complete group of three lines adds one Name/Secret/Issuer/Type block, after what came before. |
| `Import.PipelineExport` | app/import/src/js/index.js:276-389 | Exporting from `output.txt` equals exporting the payload list directly. |
| `Import.Found` | app/import/src/js/index.js:262-276 | A payload is among those appended exactly when some image decoded to it. An image whose decode fails contributes nothing. The contract states membership only; input order and repeats follow from the definition, which takes the images in turn. |
| `Import.ImportPage.AppendPayloads` | app/import/src/js/index.js:261-300 | Each decoded payload, in input order, is appended to `output.txt` as exactly one line. Payloads that failed to decode add nothing. |
| `Import.ImportPage.ImportQrCodes` | app/import/src/js/index.js:30-111 | A cancelled open dialog triggers no processing. Otherwise the decoded payloads are appended. |
| `Import.ImportPage.ImportTextResume` | app/import/src/js/index.js:122-157 | A non-empty first input writes `input0 + " \n" + input1` and sets the "File created" or error label, depending on whether the write succeeds. An empty first input writes nothing and sets the fill-in error label. |
| `Import.ImportPage.AppendLine` | app/import/src/js/index.js:337-381 | Handling one line appends exactly the fragment its counter selects to `exported.txt`. |
| `Import.ImportPage.GenerateStandAlone` | app/import/src/js/index.js:310-418 | If not cancelled, `exported.txt` grows by the export of the lines of `output.txt`, and the destination file receives the whole of `exported.txt`. A cancelled save dialog changes nothing. |
| `Landing.Compare` | app/landing/src/js/index.js:89-122 | The verdict is too long exactly when the first input is over 64 characters, checked first, and too short exactly when it is under 8. Within 8..64 characters, differing inputs mismatch. Equal inputs are accepted exactly when they are not on the common list. |
| `Landing.LengthBeforeMatch` | app/landing/src/js/index.js:93-98 | A length violation is decided on the first input alone, whatever the second input is. |
| `Landing.MessageIdentifiesVerdict` | app/landing/src/js/index.js:93-121 | Each verdict shows a message of its own, so the message tells which check failed. |
| `Landing.MessageColor` | app/landing/src/js/index.js:93-121 | The message is green exactly for an accepted password. Every rejection is red. |
| `Landing.InitialStorage` | app/landing/src/js/index.js:70-84 | After page load a storage item exists. An existing one is kept, and a missing one becomes the empty object. |
| `Landing.InitialStorageIdempotent` | app/landing/src/js/index.js:72-84 | Initialising the storage twice is initialising it once. |
| `Landing.WithPassword` | app/landing/src/js/index.js:139-141 | After choosing a password, a password is required, with its hash and the fresh key. The other blocks are unchanged. |
| `Landing.WithoutPassword` | app/landing/src/js/index.js:201 | After opting out, no password is required. The stored hash and key and the other blocks are unchanged. |
| `Landing.ZeroFill` | app/landing/src/js/index.js:107-108 | Every element of the buffer is zero. |
| `Landing.BufferFrom` | app/landing/src/js/index.js:90-91 | A fresh buffer holds exactly the characters of the input. |
| `Landing.LandingPage.constructor` | app/landing/src/js/index.js:43-84 | The page reads the settings file and initialises the storage item. |
| `Landing.LandingPage.ComparePasswords` | app/landing/src/js/index.js:89-122 | It shows the `Compare` verdict's message and colour. On acceptance both input buffers are zero-filled and the password is stored. On rejection the settings, the file and the storage are unchanged. On acceptance without a storage item, the file and the storage are unchanged too. |
| `Landing.LandingPage.HashPasswords` | app/landing/src/js/index.js:127-174 | The settings are re-read and secured with the hash and key. When a storage item exists, the file is written and the storage mirrors `require_password`, `password` and `key`. Without one, the handler fails before writing anything. |
| `Landing.LandingPage.NoPassword` | app/landing/src/js/index.js:179-239 | "Yes" marks the password as not required in the settings and the storage, and puts the generated key and its salt into the storage. The file's hash and key are untouched. "No" changes nothing. |
| `Landing.OptOutStorageDiverges` | app/landing/src/js/index.js:201-223 | After opting out, the storage agrees with the settings on the requirement but not on the key material, so it no longer mirrors them. |
| `SettingsPage.ButtonOf` | app/settings/src/js/index.js:36-42 | Each of the six switches owns one of the six buttons, and each button belongs to exactly one switch. |
| `SettingsPage.ButtonOfInjective` | app/settings/src/js/index.js:36-42 | No two switches share a button. |
| `SettingsPage.Flipped` | app/settings/src/js/index.js:108-151 | Turning a switch over changes its position and no other key of the `settings` block. |
| `SettingsPage.FlippedTwice` | app/settings/src/js/index.js:108-151 | Turning a switch over twice restores every position. The block itself is restored when the key was present. |
| `SettingsPage.InitialLabels` | app/settings/src/js/index.js:55-105 | On page load each button reads "On" exactly when its setting is true. |
| `SettingsPage.Notice` | app/settings/src/js/index.js:108-151 | Only launch-on-startup and close-to-tray notify the main process, with one message each, ending in "1" for on and "0" for off. |
| `SettingsPage.SwitchStep` | app/settings/src/js/index.js:108-151 | Launch-on-startup and close-to-tray flip their own key and no other, relabel only their own button, keep every label in agreement, and append the notice for the new position. |
| `SettingsPage.SwitchTwiceRestores` | app/settings/src/js/index.js:108-151 | Using the same immediate switch twice restores the positions, the labels and, for a present key, the file. |
| `SettingsPage.RestartStep` | app/settings/src/js/index.js:228-436 | "Yes" (0) flips the key, shows "Restarting app" on the switch's own button and requests a restart. "No" (1) flips it without a restart. Any other answer changes nothing. No other key or button changes. |
| `SettingsPage.YesAndNoStoreTheSame` | app/settings/src/js/index.js:228-436 | "Yes" and "No" write the same file. |
| `SettingsPage.NoTwiceRestores` | app/settings/src/js/index.js:228-436 | Answering "No" twice restores the positions, the labels and, for a present key, the file. |
| `SettingsPage.RestartButtonAsWritten` | app/settings/src/js/index.js:361 | As written, the restart text goes to the switch's own button for every switch except save-search, whose text goes to the reset-after-copy button. |
| `SettingsPage.RestartYesAsWritten` | app/settings/src/js/index.js:334-385 | As written, "Yes" stores the same file and requests the same restart as `RestartStep`. For every switch except save-search it is exactly `RestartStep`. |
| `SettingsPage.SaveSearchRestartMislabels` | app/settings/src/js/index.js:334-385 | As written, "Yes" for save-search leaves its own button at "On"/"Off" and puts "Restarting app" on the reset-after-copy button, whose setting did not change. |
| `SettingsPage.Page.constructor` | app/settings/src/js/index.js:44-105 | After load, the state variables and the file agree, every label agrees, and the tray position is sent. |
| `SettingsPage.Page.Turn` | app/settings/src/js/index.js:108-128 | It turns the switch over from its state variable, writes the file and relabels the button. State and file still agree. |
| `SettingsPage.Page.Startup` | app/settings/src/js/index.js:108-128 | It behaves as `SwitchStep` for launch-on-startup. Afterwards `startup_state` equals the new value. |
| `SettingsPage.Page.Tray` | app/settings/src/js/index.js:131-151 | It behaves as `SwitchStep` for close-to-tray. Afterwards `tray_state` equals the new value. |
| `SettingsPage.Page.AnswerRestart` | app/settings/src/js/index.js:228-278 | It applies the dialog answer for a restart switch, as `RestartStep` says. |
| `SettingsPage.Page.Names` | app/settings/src/js/index.js:228-278 | It behaves as `RestartStep` for `show_2fa_names`. |
| `SettingsPage.Page.Copy` | app/settings/src/js/index.js:281-331 | It behaves as `RestartStep` for `reset_after_copy`. |
| `SettingsPage.Page.Search` | app/settings/src/js/index.js:334-385 | It behaves as `RestartStep` for `save_search_results`, with the restart text on its own button (see Findings). |
| `SettingsPage.Page.Reveal` | app/settings/src/js/index.js:387-437 | It behaves as `RestartStep` for `click_to_reveal`. |
| `Logger.Tag` | lib/logger/main/index.js:39-50 | Every level tag starts with "[AUTHME " and ends with "]". |
| `Logger.Head` | lib/logger/main/index.js:67-78 | A line head starts with the level tag. A main-process head ends with "} ", and a renderer head ends with "<id> ". |
| `Logger.Body` | lib/logger/main/index.js:39-50 | The body starts with the message and ends with " \n". It is exactly two characters longer than the message when there is no argument. |
| `Logger.ArgText` | lib/logger/main/index.js:33-37 | An undefined argument gives no parenthesised part, and a null one prints "null". |
| `Logger.FileLine` | lib/logger/main/index.js:39-50 | Every line starts with its level tag, timestamp and optional renderer id, and ends with " \n". |
| `Logger.ArgumentInParentheses` | lib/logger/main/index.js:39-50 | A line with an argument is the line without one, for the message followed by " (argument)". |
| `Logger.RendererInsertsId` | lib/logger/main/index.js:67-78 | A renderer line is the main-process line with "<id> " inserted after the timestamp. |
| `Logger.LevelOfFileLine` | lib/logger/main/index.js:149-160 | The `[AUTHME LOG]`, `[AUTHME WARN]` and `[AUTHME ERROR]` tags keep the levels apart: every line, read by its leading tag, gives back the level it was written at. |
| `Logger.LevelsDistinguished` | lib/logger/main/index.js:39-160 | Two calls at different levels never append the same line, whatever their time, window id, message and argument. |
| `Logger.FirstIndex` | lib/logger/main/index.js:198 | It finds the first occurrence of a character, or reports none. |
| `Logger.ReplaceFirst` | lib/logger/main/index.js:198 | Only the first occurrence of the pattern is replaced. |
| `Logger.ReplaceAll` | lib/logger/main/index.js:198 | Every occurrence is replaced. |
| `Logger.Stamp` | lib/logger/main/index.js:198 | The stamp has at most 19 characters and no ':'. The first 'T' and every ':' become '-', and every other character is kept. |
| `Logger.StampOfIsoTime` | lib/logger/main/index.js:198 | An ISO time YYYY-MM-DDTHH:MM:SS.sssZ gives the stamp YYYY-MM-DD-HH-MM-SS. |
| `Logger.LogFileName` | lib/logger/main/index.js:204-206 | The name is the given name, "-", the stamp and ".log". |
| `Logger.LogFileNameHasNoColon` | lib/logger/main/index.js:198-206 | A log file name built from a name without ':' contains no ':'. |
| `Logger.LogFile.constructor` | lib/logger/main/index.js:18-19 | Before `createFile` there is no file name or path. |
| `Logger.LogFile.CreateFile` | lib/logger/main/index.js:197-208 | It creates an empty log in the `logs` directory under the stamped name, which becomes the current file name and path. |
| `Logger.LogFile.WriteFile` | lib/logger/main/index.js:214-216 | It appends exactly the message. It fails, changing nothing, before any log file exists. The log is always the concatenation of the writes since creation. |
| `Logger.LogFile.Emit` | lib/logger/main/index.js:32-52 | A log call appends its formatted line once a log file exists, the append taken to succeed. Otherwise it does nothing and does not fail. Only the current file grows, by exactly that line; every other file in the map is unchanged. |
| `Logger.LogFile.LogMessage` | lib/logger/main/index.js:32-52 | `log` appends the `[AUTHME LOG]` line. Only the current file grows, by exactly that line; every other file in the map is unchanged. |
| `Logger.LogFile.WarnMessage` | lib/logger/main/index.js:87-107 | `warn` appends the `[AUTHME WARN]` line. Only the current file grows, by exactly that line; every other file in the map is unchanged. |
| `Logger.LogFile.ErrorMessage` | lib/logger/main/index.js:142-162 | `error` appends the `[AUTHME ERROR]` line. Only the current file grows, by exactly that line; every other file in the map is unchanged. |
| `Logger.LogFile.RendererLog` | lib/logger/main/index.js:60-80 | `rendererLog` appends the log line carrying the window id. Only the current file grows, by exactly that line; every other file in the map is unchanged. |
| `Logger.LogFile.RendererWarn` | lib/logger/main/index.js:115-135 | `rendererWarn` appends the warn line carrying the window id. Only the current file grows, by exactly that line; every other file in the map is unchanged. |
| `Logger.LogFile.RendererError` | lib/logger/main/index.js:170-190 | `rendererError` appends the error line carrying the window id. Only the current file grows, by exactly that line; every other file in the map is unchanged. |
| `Logger.LogFile.FileName` | lib/logger/main/index.js:222-224 | It returns the current log file name, or none before `createFile`. |

## Left out

- Windows, trays, menus, dialogs and the rest of the Electron UI are left out. The flags set by the tray, the IPC calls, the window events and the lock screen are modelled. A dialog's answer, and whether a file dialog was cancelled, are parameters.
- The application menu's Settings, Edit, Import and Export items (main.js:1624-1660 and 1715-1850) also set `settings_shown` and `tools_shown`. They are not part of this model. The guard lemmas `LockedSessionStaysGuarded`, `StartUpGuard` and `HidingKeepsLocked` cover only tray clicks, start-up and window closes. They say nothing about the tools window under IPC, because `toggleToolsWindow` and `toggleImportWindow` (`App.ToggleTools`, `App.ShowImport`) show it without any password check.
- `MainProcess.App.ReadyToShow` and the `close` handlers keep only the flags, the settings and the exit. Maximising, focusing, the tray and menu rebuilds, the 100 ms delay before the flags change, and enabling the auto-launcher are left out. The handler is chosen from the requirement as it stands when the event arrives, which is the requirement read at start-up because nothing changes it before the first window is ready.
- Network traffic is left out: auto-update, analytics and crash reports, release notes, and the `shell.openExternal` links of `rateAuthme` and `starAuthme`.
- `bcrypt`, `aes.generateSalt` and `aes.generateRandomKey` are foreign crypto. Their results (hash, key, salt, generated key) are parameters.
- The common-password list is a foreign function. `password.search` is taken as a predicate on the password, and a truthy result means the password is on the list.
- QR decoding, image loading, and the Python extraction step and other `spawn` calls are foreign. A decode is a parameter: the payload, or none on failure.
- `Import.ImportPage.AppendPayloads` appends payloads in input order. In the program, each decode is asynchronous and finishes in whatever order it completes. The model does not capture that ordering, nor the "last file" dialog, which depends on it.
- Reading `output.txt` line by line splits only at "\n". Node's `readline` also ends a line at "\r\n" and at a lone "\r". The model keeps a "\r" before "\n" in the line. It also keeps a lone "\r" inside the line, where the program would split it in two. Such a split shifts the Name/Secret/Issuer counter for every later line. `Import.LinesOfJoinLines` and `Import.PipelineExport` therefore describe the program only for payloads without "\r".
- The text-import path writes its two inputs even when the second is empty; the model keeps that. The `generate` Python path that follows it is not part of this model.
- Timers and asynchronous completion are left out: `setTimeout`, `setInterval`, the delayed page reloads, and the IPC messages sent after them.
- Filesystem details are simplified. Folder creation, `fs.unlink`, the reset flow and `localStorage.clear` are left out. Files are values: the settings document is a record and a log file is a string. Path joining is string concatenation with "/", with no normalisation.
- The development-mode storage key (`dev_storage`) is left out. The model covers the packaged key only.
- `Landing.LandingPage.ComparePasswords`: Node buffers hold UTF-8 bytes, while the model's buffers hold one character each. Zero-filling is modelled on those characters.
- `Landing.Compare` measures length in UTF-16 code units in the program. The model counts string elements.
- `Text.Drop` and `Text.Take` count string elements (Unicode scalar values), where `slice` and `substring` count UTF-16 code units. They differ on characters outside the Basic Multilingual Plane. This affects `Import.LineAppends` (offsets 15 and 8), `MainProcess.LocaleCode` (the first two letters of the locale) and `Logger.Stamp` (the first 19 characters).
- File writes other than the text-import write are taken to succeed. When one fails in the program:
  - The start-up write of the default file (main.js:262) and `saveSettings` (main.js:267) use `writeFileSync`. Its exception propagates out of the caller, and the rest of that handler does not run.
  - The landing page's writes (app/landing/src/js/index.js:159 and 228) throw the same way.
  - The settings page's handlers set the key in the parsed file before `writeFileSync`. A throw leaves the key changed in memory, while the state variable and the label are not. `SettingsPage.Page.Valid` (state equals file) then no longer describes the page.
  - On the import page, `appendFile` at app/import/src/js/index.js:276 only logs the error, and `output.txt` does not grow. The `appendFileSync` calls at 341-374 and the `writeFileSync` at 402 throw inside the line and close handlers.
  - In the logger, a failing `appendFileSync` (lib/logger/main/index.js:215) is swallowed by the caller's `try`, and nothing is appended.
- `MainProcess.App.RegisterShortcuts` takes registration with the operating system to succeed. In the program, the three `globalShortcut.register` calls share one `try` (main.js:833-854). A call that throws, for example on an invalid accelerator, skips the later ones, and the program only logs the failure.
- `Logger.LogFile.Emit` writes to the file only. The coloured console output and `toLocaleString` are left out, and the timestamp text is a parameter.
- `Logger.ArgText` takes an object argument's JSON text as given. JSON serialisation is not modelled, and other values appear as their string form.
- `MainProcess.ChooseLanguage` lower-cases ASCII letters only, where the program uses JavaScript's full Unicode lower-casing.
- `MainProcess.App.CreateWindows` keeps only the state it changes: the translation, the shortcut registration, the launch count and the info prompt. Window creation and content protection are left out.
- `MainProcess.App.ExitFromTray` zero-fills the password buffer as a sequence of integers. Process exit is a flag.
- `Config.SettingsFile` carries only the keys the modelled operations read or write. The other keys of the settings document are left out: the `info` block (version, build, date), `launch_on_startup`, `codes_description`, `reset_after_copy`, `search_history`, `hardware_acceleration`, `search_filter`, the `shortcuts` block and the `search_history` block.
- `SettingsPage.Prefs` covers only the six switch keys. The rest of the document the page writes back is unchanged and left out.
- The older settings-file layout used by the settings page is modelled as read. Which application version writes it is outside this model.
- The program does not parse otpauth URIs, validate base32, carry HOTP or TOTP parameters, or encrypt stored secrets, so the model has none of these. The import page strips fixed prefixes at offsets 15 and 8, as the model does.

## Findings

| source | as written | input that shows it | evidently intended | confidence | as-written member | corrected member |
|---|---|---|---|---|---|---|
| app/settings/src/js/index.js:361 | After "Yes" in the save-search restart dialog, "Restarting app" is written to `but10`, the reset-after-copy button. | `search()` answered with response 0 while `save_search_results` is on: `but13` shows "Off", and `but10` shows "Restarting app" although reset-after-copy did not change. | "Restarting app" on `but13`, as `names`, `copy` and `reveal` do with their own buttons (lines 255, 308, 414). | high, not executed | `SettingsPage.SaveSearchRestartMislabels` | `SettingsPage.RestartStep` |
