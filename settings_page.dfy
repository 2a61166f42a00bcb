/**
 * The settings page: six switches over the `settings` block of the settings
 * file. "Launch on startup" and "close to tray" take effect at once and notify
 * the main process; the other four ask whether to restart the app, and the
 * answer decides whether the switch flips, and whether a restart follows.
 *
 * The page keeps a state variable per switch besides the parsed file; the
 * class invariant is that the two agree. A key absent from the file reads as
 * "off" and is written as soon as its switch is used.
 */
module SettingsPage {

  /** The six switches, by the key they own in the file's `settings` block. */
  datatype Switch =
    | LaunchOnStartup   // launch_on_startup
    | CloseToTray       // close_to_tray
    | ShowNames         // show_2fa_names
    | ResetAfterCopy    // reset_after_copy
    | SaveSearch        // save_search_results
    | ClickToReveal     // click_to_reveal

  /** The buttons whose text shows a switch's position. */
  datatype Button = But0 | But2 | But5 | But10 | But11 | But13

  /** The button that belongs to each switch. */
  function ButtonOf(s: Switch): (b: Button)
    ensures b == But0 <==> s == LaunchOnStartup
    ensures b == But2 <==> s == CloseToTray
    ensures b == But5 <==> s == ShowNames
    ensures b == But10 <==> s == ResetAfterCopy
    ensures b == But13 <==> s == SaveSearch
    ensures b == But11 <==> s == ClickToReveal
  {
    match s
    case LaunchOnStartup => But0
    case CloseToTray => But2
    case ShowNames => But5
    case ResetAfterCopy => But10
    case SaveSearch => But13
    case ClickToReveal => But11
  }

  /** No two switches share a button. */
  lemma ButtonOfInjective(s: Switch, t: Switch)
    ensures ButtonOf(s) == ButtonOf(t) ==> s == t
  {
  }

  /** The switches that ask for a restart before taking effect. */
  predicate NeedsRestart(s: Switch)
  {
    s != LaunchOnStartup && s != CloseToTray
  }

  /** The `settings` block as far as the switches see it; a missing key is absent from the map. */
  type Prefs = map<Switch, bool>

  /** A switch is on exactly when its key holds `true`. */
  predicate IsOn(p: Prefs, s: Switch)
  {
    s in p && p[s]
  }

  /** The block after one switch has been turned over. */
  function Flipped(p: Prefs, s: Switch): (r: Prefs)
    ensures s in r && IsOn(r, s) == !IsOn(p, s)
    ensures forall u :: u != s ==> (u in r <==> u in p) && (u in p ==> r[u] == p[u])
  {
    p[s := !IsOn(p, s)]
  }

  /** Turning a switch over twice gives back the position of every switch. */
  lemma FlippedTwice(p: Prefs, s: Switch)
    ensures forall u :: IsOn(Flipped(Flipped(p, s), s), u) == IsOn(p, u)
    ensures s in p ==> Flipped(Flipped(p, s), s) == p
  {
    var q := Flipped(Flipped(p, s), s);
    if s in p {
      assert q.Keys == p.Keys;
      assert forall u | u in p :: q[u] == p[u];
    }
  }

  const RestartingText := "Restarting app"

  /** The text of a switch's button. */
  function Label(on: bool): string
  {
    if on then "On" else "Off"
  }

  /** Every button shows the position of its switch. */
  predicate LabelsAgree(p: Prefs, labels: map<Button, string>)
  {
    forall s :: ButtonOf(s) in labels && labels[ButtonOf(s)] == Label(IsOn(p, s))
  }

  /** The button texts set up when the page loads. */
  function InitialLabels(p: Prefs): (labels: map<Button, string>)
    ensures LabelsAgree(p, labels)
  {
    map s | s in {LaunchOnStartup, CloseToTray, ShowNames, ResetAfterCopy, SaveSearch, ClickToReveal}
      :: ButtonOf(s) := Label(IsOn(p, s))
  }

  /** The message sent to the main process after a switch that takes effect at once. */
  function Notice(s: Switch, on: bool): (r: seq<string>)
    ensures |r| == if NeedsRestart(s) then 0 else 1
    ensures forall m :: m in r ==> |m| > 0 && m[|m| - 1] == (if on then '1' else '0')
  {
    var digit := if on then "1" else "0";
    match s
    case LaunchOnStartup => ["after_startup" + digit]
    case CloseToTray => ["after_tray" + digit]
    case _ => []
  }

  /** What the page shows and has done: the file as parsed, the buttons, messages sent, restart requested. */
  datatype View = View(prefs: Prefs, labels: map<Button, string>, sent: seq<string>, restarting: bool)

  /** Switching launch-on-startup or close-to-tray: flip, write, relabel, notify. */
  function SwitchStep(v: View, s: Switch): (r: View)
    requires !NeedsRestart(s)
    ensures IsOn(r.prefs, s) == !IsOn(v.prefs, s)
    ensures forall u :: u != s ==> IsOn(r.prefs, u) == IsOn(v.prefs, u)
    ensures LabelsAgree(v.prefs, v.labels) ==> LabelsAgree(r.prefs, r.labels)
    ensures forall b :: b != ButtonOf(s) && b in v.labels ==> b in r.labels && r.labels[b] == v.labels[b]
    ensures r.sent == v.sent + Notice(s, IsOn(r.prefs, s))
    ensures r.restarting == v.restarting
  {
    var prefs := Flipped(v.prefs, s);
    View(prefs, v.labels[ButtonOf(s) := Label(IsOn(prefs, s))], v.sent + Notice(s, IsOn(prefs, s)), v.restarting)
  }

  /** Using launch-on-startup or close-to-tray twice puts every switch and every button back where it was. */
  lemma SwitchTwiceRestores(v: View, s: Switch)
    requires !NeedsRestart(s) && LabelsAgree(v.prefs, v.labels)
    ensures var w := SwitchStep(SwitchStep(v, s), s);
            (forall u :: IsOn(w.prefs, u) == IsOn(v.prefs, u)) && w.labels == v.labels
            && (s in v.prefs ==> w.prefs == v.prefs)
  {
    var w := SwitchStep(SwitchStep(v, s), s);
    FlippedTwice(v.prefs, s);
    assert w.prefs == Flipped(Flipped(v.prefs, s), s);
    forall b | b in v.labels
      ensures b in w.labels && w.labels[b] == v.labels[b]
    {
      if b == ButtonOf(s) {
        assert v.labels[b] == Label(IsOn(v.prefs, s));
      }
    }
    assert w.labels.Keys == v.labels.Keys;
  }

  /**
   * Answering the restart dialog of a switch that needs one: "Yes" (0) flips,
   * writes and shows "Restarting app" on the switch's button before the restart;
   * "No" (1) flips and writes only; "Cancel" (2) and anything else leave all as is.
   */
  function RestartStep(v: View, s: Switch, response: int): (r: View)
    requires NeedsRestart(s)
    ensures response != 0 && response != 1 ==> r == v
    ensures response == 0 || response == 1 ==>
              IsOn(r.prefs, s) == !IsOn(v.prefs, s)
              && (forall u :: u != s ==> IsOn(r.prefs, u) == IsOn(v.prefs, u))
    ensures response == 0 ==> r.restarting && ButtonOf(s) in r.labels && r.labels[ButtonOf(s)] == RestartingText
    ensures response == 1 ==> r.restarting == v.restarting
                              && (LabelsAgree(v.prefs, v.labels) ==> LabelsAgree(r.prefs, r.labels))
    ensures forall b :: b != ButtonOf(s) && b in v.labels ==> b in r.labels && r.labels[b] == v.labels[b]
    ensures r.sent == v.sent
  {
    if response == 0 || response == 1 then
      var prefs := Flipped(v.prefs, s);
      var labels := v.labels[ButtonOf(s) := Label(IsOn(prefs, s))];
      if response == 0 then View(prefs, labels[ButtonOf(s) := RestartingText], v.sent, true)
      else View(prefs, labels, v.sent, v.restarting)
    else v
  }

  /** "Yes" and "No" store the same file; they differ only in the restart. */
  lemma YesAndNoStoreTheSame(v: View, s: Switch)
    requires NeedsRestart(s)
    ensures RestartStep(v, s, 0).prefs == RestartStep(v, s, 1).prefs
  {
  }

  /** Answering "No" twice in a row puts every switch and every button back where it was. */
  lemma NoTwiceRestores(v: View, s: Switch)
    requires NeedsRestart(s) && LabelsAgree(v.prefs, v.labels)
    ensures var w := RestartStep(RestartStep(v, s, 1), s, 1);
            (forall u :: IsOn(w.prefs, u) == IsOn(v.prefs, u)) && w.labels == v.labels
            && (s in v.prefs ==> w.prefs == v.prefs)
  {
    var w := RestartStep(RestartStep(v, s, 1), s, 1);
    FlippedTwice(v.prefs, s);
    assert w.prefs == Flipped(Flipped(v.prefs, s), s);
    forall b | b in v.labels
      ensures b in w.labels && w.labels[b] == v.labels[b]
    {
      if b == ButtonOf(s) {
        assert v.labels[b] == Label(IsOn(v.prefs, s));
      }
    }
    assert w.labels.Keys == v.labels.Keys;
  }

  // ---------------------------------------------------------------------------
  // The restart label of "save search results", as written and as intended
  // ---------------------------------------------------------------------------

  /** The button the "Yes" answer relabels, as written: save-search relabels the reset-after-copy button. */
  function RestartButtonAsWritten(s: Switch): (b: Button)
    ensures b == ButtonOf(s) <==> s != SaveSearch
    ensures s == SaveSearch ==> b == ButtonOf(ResetAfterCopy)
  {
    if s == SaveSearch then But10 else ButtonOf(s)
  }

  /** The "Yes" answer of the restart dialog with the relabelling as written. */
  function RestartYesAsWritten(v: View, s: Switch): (w: View)
    requires NeedsRestart(s)
    ensures w.prefs == RestartStep(v, s, 0).prefs && w.restarting && w.sent == v.sent
    ensures s != SaveSearch ==> w == RestartStep(v, s, 0)
  {
    var prefs := Flipped(v.prefs, s);
    var labels := v.labels[ButtonOf(s) := Label(IsOn(prefs, s))];
    View(prefs, labels[RestartButtonAsWritten(s) := RestartingText], v.sent, true)
  }

  /**
   * As written, answering "Yes" for save-search leaves its own button showing
   * "On"/"Off" and puts "Restarting app" on the reset-after-copy button,
   * whose switch did not change.
   */
  lemma SaveSearchRestartMislabels(v: View)
    requires LabelsAgree(v.prefs, v.labels)
    ensures var w := RestartYesAsWritten(v, SaveSearch);
            && w.labels[ButtonOf(SaveSearch)] == Label(IsOn(w.prefs, SaveSearch))
            && w.labels[ButtonOf(ResetAfterCopy)] == RestartingText
            && IsOn(w.prefs, ResetAfterCopy) == IsOn(v.prefs, ResetAfterCopy)
            && w.labels != RestartStep(v, SaveSearch, 0).labels
  {
    var w := RestartYesAsWritten(v, SaveSearch);
    var c := RestartStep(v, SaveSearch, 0);
    assert w.labels[But13] != c.labels[But13];
  }

  /** The settings page: the parsed file, the per-switch state variables, the written file and the screen. */
  class Page {
    var prefs: Prefs
    var state: Prefs
    var disk: Prefs
    var labels: map<Button, string>
    var sent: seq<string>
    var restarting: bool

    /** The state variables agree with the parsed file, which agrees with what was last written. */
    predicate Valid()
      reads this
    {
      state == prefs && disk == prefs
    }

    ghost function Snapshot(): View
      reads this
    {
      View(prefs, labels, sent, restarting)
    }

    /** Page load: read the file, label every button and tell the main process the tray setting. */
    constructor (file: Prefs)
      ensures Valid() && prefs == file
      ensures LabelsAgree(prefs, labels)
      ensures sent == [if IsOn(file, CloseToTray) then "after_tray1" else "after_tray0"]
      ensures !restarting
    {
      prefs, state, disk := file, file, file;
      labels := InitialLabels(file);
      sent := [if IsOn(file, CloseToTray) then "after_tray1" else "after_tray0"];
      restarting := false;
    }

    /** Turn one switch over from its state variable, write the file and relabel its button. */
    method Turn(s: Switch)
      requires Valid()
      modifies this`prefs, this`state, this`disk, this`labels
      ensures Valid()
      ensures prefs == Flipped(old(prefs), s)
      ensures labels == old(labels)[ButtonOf(s) := Label(IsOn(prefs, s))]
    {
      if IsOn(state, s) {
        prefs := prefs[s := false];
        disk := prefs;
        labels := labels[ButtonOf(s) := "Off"];
        state := state[s := false];
      } else {
        prefs := prefs[s := true];
        disk := prefs;
        labels := labels[ButtonOf(s) := "On"];
        state := state[s := true];
      }
    }

    /** `startup` */
    method Startup()
      requires Valid()
      modifies this`prefs, this`state, this`disk, this`labels, this`sent
      ensures Valid()
      ensures Snapshot() == SwitchStep(old(Snapshot()), LaunchOnStartup)
    {
      Turn(LaunchOnStartup);
      sent := sent + Notice(LaunchOnStartup, IsOn(state, LaunchOnStartup));
    }

    /** `tray` */
    method Tray()
      requires Valid()
      modifies this`prefs, this`state, this`disk, this`labels, this`sent
      ensures Valid()
      ensures Snapshot() == SwitchStep(old(Snapshot()), CloseToTray)
    {
      Turn(CloseToTray);
      sent := sent + Notice(CloseToTray, IsOn(state, CloseToTray));
    }

    /** The restart dialog shared by `names`, `copy`, `search` and `reveal`. */
    method AnswerRestart(s: Switch, response: int)
      requires Valid() && NeedsRestart(s)
      modifies this`prefs, this`state, this`disk, this`labels, this`restarting
      ensures Valid()
      ensures Snapshot() == RestartStep(old(Snapshot()), s, response)
    {
      if response == 0 {
        Turn(s);
        labels := labels[ButtonOf(s) := RestartingText];
        restarting := true;
      }
      if response == 1 {
        Turn(s);
      }
    }

    /** `names` */
    method Names(response: int)
      requires Valid()
      modifies this`prefs, this`state, this`disk, this`labels, this`restarting
      ensures Valid()
      ensures Snapshot() == RestartStep(old(Snapshot()), ShowNames, response)
    {
      AnswerRestart(ShowNames, response);
    }

    /** `copy` */
    method Copy(response: int)
      requires Valid()
      modifies this`prefs, this`state, this`disk, this`labels, this`restarting
      ensures Valid()
      ensures Snapshot() == RestartStep(old(Snapshot()), ResetAfterCopy, response)
    {
      AnswerRestart(ResetAfterCopy, response);
    }

    /** `search`, with the restart text on its own button. */
    method Search(response: int)
      requires Valid()
      modifies this`prefs, this`state, this`disk, this`labels, this`restarting
      ensures Valid()
      ensures Snapshot() == RestartStep(old(Snapshot()), SaveSearch, response)
    {
      AnswerRestart(SaveSearch, response);
    }

    /** `reveal` */
    method Reveal(response: int)
      requires Valid()
      modifies this`prefs, this`state, this`disk, this`labels, this`restarting
      ensures Valid()
      ensures Snapshot() == RestartStep(old(Snapshot()), ClickToReveal, response)
    {
      AnswerRestart(ClickToReveal, response);
    }
  }
}
