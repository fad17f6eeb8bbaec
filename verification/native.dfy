/** The JavaScript wrapper around the three native add-ons (text selection,
    context menu, accessibility): which add-ons load, the flags each manager
    keeps, the guards in front of every native call, the AppleScript
    fallbacks, and the singleton that initialises, reports, sets up and
    cleans up the managers. Every native call is an oracle whose answer is a
    parameter (`NativeCalls`); the fallbacks' `osascript` runs are oracles
    too. */
module Native {
  import opened Wrappers
  import opened Text
  import opened Shell

  /** Which add-ons were loaded. They are required one after the other, so a
      failure leaves the earlier ones loaded and the later ones undefined. */
  datatype Loaded = Loaded(textSelection: bool, contextMenu: bool, accessibility: bool)

  /** `initializeNativeModules`: `firstFailure` is the position of the first
      add-on whose `require` throws (3 or more when all load); the result
      says whether all three loaded. */
  function LoadAddOns(firstFailure: nat): (r: (Loaded, bool))
    ensures r.1 <==> r.0 == Loaded(true, true, true)
    ensures r.0.contextMenu ==> r.0.textSelection
    ensures r.0.accessibility ==> r.0.contextMenu
    ensures r.0.textSelection <==> firstFailure > 0
    ensures r.0.contextMenu <==> firstFailure > 1
    ensures r.0.accessibility <==> firstFailure > 2
  {
    (Loaded(firstFailure > 0, firstFailure > 1, firstFailure > 2), firstFailure >= 3)
  }

  /** The answers the native add-ons give when called. */
  datatype NativeCalls = NativeCalls(
    permitted: bool,        // checkAccessibilityPermissions()
    startMonitoring: bool,
    stopMonitoring: bool,
    register: bool,
    startListening: bool,
    stopListening: bool)

  /** The errors the wrapper throws. `AccessibilityUndefined` is the
      TypeError of calling into the accessibility add-on when it did not
      load while the calling manager's own add-on did. */
  datatype NativeError =
    | TextSelectionMissing
    | AccessibilityMissing
    | AccessibilityUndefined
    | PermissionRequired(purpose: string)

  // ----- TextSelectionManager -------------------------------------------

  /** The text-selection manager. `callback` names the stored listener. */
  datatype Selector = Selector(hasNative: bool, isMonitoring: bool, callback: Option<nat>)

  function NewSelector(loaded: Loaded): Selector {
    Selector(loaded.textSelection, false, None)
  }

  /** `startMonitoring`: the add-on and the permission are checked before the
      listener is stored; on success the monitoring flag is what the add-on
      answered. */
  function StartMonitoring(s: Selector, loaded: Loaded, callback: nat, calls: NativeCalls)
    : (r: Result<(Selector, bool), NativeError>)
    ensures !s.hasNative ==> r == Failure(TextSelectionMissing)
    ensures s.hasNative && !loaded.accessibility ==> r == Failure(AccessibilityUndefined)
    ensures s.hasNative && loaded.accessibility && !calls.permitted ==>
      r.Failure? && r.error.PermissionRequired?
    ensures r.Success? <==> s.hasNative && loaded.accessibility && calls.permitted
    ensures r.Success? ==>
      r.value.0 == s.(isMonitoring := calls.startMonitoring, callback := Some(callback))
      && r.value.1 == calls.startMonitoring
  {
    if !s.hasNative then Failure(TextSelectionMissing)
    else if !loaded.accessibility then Failure(AccessibilityUndefined)
    else if !calls.permitted then
      Failure(PermissionRequired("text selection monitoring"))
    else
      Success((s.(isMonitoring := calls.startMonitoring, callback := Some(callback)),
               calls.startMonitoring))
  }

  /** `stopMonitoring`: refused (false, nothing changed) without the add-on
      or when not monitoring; a stop the add-on confirms clears the flag and
      the listener. */
  function StopMonitoring(s: Selector, calls: NativeCalls): (r: (Selector, bool))
    ensures !s.hasNative || !s.isMonitoring ==> r == (s, false)
    ensures r.1 ==> r.0 == s.(isMonitoring := false, callback := None)
    ensures !r.1 ==> r.0 == s
  {
    if !s.hasNative || !s.isMonitoring then (s, false)
    else if calls.stopMonitoring then (s.(isMonitoring := false, callback := None), true)
    else (s, false)
  }

  /** A confirmed start followed by a confirmed stop leaves the manager as it
      was before, listener dropped. */
  lemma StartThenStopRestores(s: Selector, loaded: Loaded, callback: nat, calls: NativeCalls)
    requires !s.isMonitoring && s.callback.None?
    requires StartMonitoring(s, loaded, callback, calls).Success?
    requires calls.startMonitoring && calls.stopMonitoring
    ensures StopMonitoring(StartMonitoring(s, loaded, callback, calls).value.0, calls) == (s, true)
  {
  }

  /** A selection as the add-on or the fallback reports it. */
  datatype Selection = Selection(text: string, appName: string, x: int, y: int)

  /** `getSelectedTextViaAppleScript`: the trimmed output of the copy script,
      or the empty text when the run fails (`stdout` is `None`); it never
      throws. */
  function FallbackSelection(stdout: Option<string>): (r: Selection)
    ensures r.appName == "Unknown" && r.x == 0 && r.y == 0
    ensures stdout.None? ==> r.text == ""
    ensures stdout.Some? ==> r.text == Trim(stdout.value)
  {
    match stdout
    case Some(out) => Selection(Trim(out), "Unknown", 0, 0)
    case None => Selection("", "Unknown", 0, 0)
  }

  /** `getSelectedText`: the AppleScript fallback without the add-on, else the
      add-on's answer once the permission holds. */
  function GetSelectedText(s: Selector, loaded: Loaded, calls: NativeCalls,
                           native: Selection, fallbackOut: Option<string>)
    : (r: Result<Selection, NativeError>)
    ensures !s.hasNative ==> r == Success(FallbackSelection(fallbackOut))
    ensures s.hasNative ==>
      (r.Success? <==> loaded.accessibility && calls.permitted)
    ensures s.hasNative && r.Success? ==> r.value == native
  {
    if !s.hasNative then Success(FallbackSelection(fallbackOut))
    else if !loaded.accessibility then Failure(AccessibilityUndefined)
    else if !calls.permitted then Failure(PermissionRequired(""))
    else Success(native)
  }

  /** Without the add-on, reading the selection never fails, and a failed
      copy script gives the empty text. */
  lemma FallbackNeverFails(s: Selector, loaded: Loaded, calls: NativeCalls, native: Selection)
    requires !s.hasNative
    ensures GetSelectedText(s, loaded, calls, native, None) == Success(Selection("", "Unknown", 0, 0))
    ensures forall out :: GetSelectedText(s, loaded, calls, native, Some(out)).Success?
  {
  }

  // ----- ContextMenuManager ---------------------------------------------

  datatype MenuItem = MenuItem(title: string, action: string, icon: string)

  datatype Menu = Menu(hasNative: bool, isListening: bool, menuItems: seq<MenuItem>,
                       callback: Option<nat>)

  function NewMenu(loaded: Loaded): Menu {
    Menu(loaded.contextMenu, false, [], None)
  }

  /** `registerContextMenu`: without the add-on nothing is stored; otherwise
      items and listener are stored before the add-on answers. */
  function RegisterContextMenu(m: Menu, items: seq<MenuItem>, callback: nat, calls: NativeCalls)
    : (r: (Menu, bool))
    ensures !m.hasNative ==> r == (m, false)
    ensures m.hasNative ==>
      r == (m.(menuItems := items, callback := Some(callback)), calls.register)
  {
    if !m.hasNative then (m, false)
    else (m.(menuItems := items, callback := Some(callback)), calls.register)
  }

  /** `startListening`: false without the add-on; otherwise the permission is
      required and the listening flag becomes the add-on's answer. */
  function StartListening(m: Menu, loaded: Loaded, calls: NativeCalls)
    : (r: Result<(Menu, bool), NativeError>)
    ensures !m.hasNative ==> r == Success((m, false))
    ensures m.hasNative ==> (r.Success? <==> loaded.accessibility && calls.permitted)
    ensures m.hasNative && r.Success? ==>
      r.value == (m.(isListening := calls.startListening), calls.startListening)
  {
    if !m.hasNative then Success((m, false))
    else if !loaded.accessibility then Failure(AccessibilityUndefined)
    else if !calls.permitted then Failure(PermissionRequired("context menu"))
    else Success((m.(isListening := calls.startListening), calls.startListening))
  }

  /** `stopListening`: false and nothing changed unless the add-on is present
      and listening; a confirmed stop clears the flag and nothing else. */
  function StopListening(m: Menu, calls: NativeCalls): (r: (Menu, bool))
    ensures !m.hasNative || !m.isListening ==> r == (m, false)
    ensures r.1 ==> r.0 == m.(isListening := false)
    ensures !r.1 ==> r.0 == m
  {
    if !m.hasNative || !m.isListening then (m, false)
    else if calls.stopListening then (m.(isListening := false), true)
    else (m, false)
  }

  /** `showContextMenu`: false without the add-on, else its answer. */
  function ShowContextMenu(m: Menu, shown: bool): (r: bool)
    ensures r ==> m.hasNative
    ensures m.hasNative ==> r == shown
  {
    if !m.hasNative then false else shown
  }

  // ----- AccessibilityManager -------------------------------------------

  /** `checkPermissions`: false without the add-on, else its answer. */
  function CheckPermissions(hasNative: bool, calls: NativeCalls): (r: bool)
    ensures r <==> hasNative && calls.permitted
  {
    if !hasNative then false else calls.permitted
  }

  /** `requestPermissions`: throws without the add-on, else its answer. */
  function RequestPermissions(hasNative: bool, granted: bool): (r: Result<bool, NativeError>)
    ensures r.Success? <==> hasNative
    ensures r.Success? ==> r.value == granted
  {
    if !hasNative then Failure(AccessibilityMissing) else Success(granted)
  }

  /** The literal text `keystroke` is given, as the wrapper writes it: every
      `"` becomes `\"` and every newline the two characters `\n`. */
  function KeystrokeEscape(text: string): (r: string)
    ensures '"' !in text && '\n' !in text ==> r == text
    ensures |r| >= |text|
  {
    if |text| == 0 then ""
    else
      var c := text[0];
      (if c == '"' then "\\\"" else if c == '\n' then "\\n" else [c]) + KeystrokeEscape(text[1..])
  }

  /** The escaped literal, for text with no backslash, is read by AppleScript
      as the text itself. */
  lemma {:induction false} KeystrokeEscapeWithoutBackslash(text: string)
    requires '\\' !in text
    ensures AppleStringValue(KeystrokeEscape(text)) == Some(text)
  {
    if |text| > 0 {
      var c := text[0];
      var rest := KeystrokeEscape(text[1..]);
      assert '\\' !in text[1..] by {
        forall k | 0 <= k < |text[1..]| ensures text[1..][k] != '\\' {
          assert text[1..][k] == text[k + 1];
        }
      }
      KeystrokeEscapeWithoutBackslash(text[1..]);
      var w := KeystrokeEscape(text);
      if c == '"' {
        assert w == "\\\"" + rest;
        assert w[0] == '\\' && w[1] == '"' && w[2..] == rest;
      } else if c == '\n' {
        assert w == "\\n" + rest;
        assert w[0] == '\\' && w[1] == 'n' && w[2..] == rest;
      } else {
        assert w == [c] + rest;
        assert w[0] == c && w[1..] == rest;
      }
      assert text == [c] + text[1..];
    }
  }

  /** A backslash in the text is not escaped, so `\n` typed literally (a
      backslash and an `n`) reaches the keyboard as a line break. */
  lemma BackslashIsReinterpreted()
    ensures KeystrokeEscape("\\n") == "\\n"
    ensures AppleStringValue(KeystrokeEscape("\\n")) == Some("\n")
    ensures AppleStringValue(KeystrokeEscape("\\n")) != Some("\\n")
  {
    var w := "\\n";
    assert w[0] == '\\' && w[1] == 'n' && w[2..] == "";
    assert KeystrokeEscape(w) == [w[0]] + KeystrokeEscape(w[1..]);
    assert w[1..] == "n";
    assert KeystrokeEscape("n") == "n";
    assert AppleStringValue(w) == Prepend('\n', AppleStringValue(w[2..]));
    assert AppleStringValue("") == Some("");
    assert KeystrokeEscape(w) == w;
    assert ['\n'] + "" == "\n";
    assert "\n" != w by { assert |"\n"| == 1; }
  }

  /** The escaping the literal needs: a backslash becomes `\\` as well. */
  function AppleEscape(text: string): (r: string)
    ensures '"' !in text && '\n' !in text && '\\' !in text ==> r == text
    ensures |r| >= |text|
  {
    if |text| == 0 then ""
    else
      var c := text[0];
      (if c == '"' then "\\\"" else if c == '\n' then "\\n" else if c == '\\' then "\\\\" else [c])
        + AppleEscape(text[1..])
  }

  /** AppleScript reads every escaped literal back as the text itself. */
  lemma {:induction false} AppleEscapeRoundTrip(text: string)
    ensures AppleStringValue(AppleEscape(text)) == Some(text)
  {
    if |text| > 0 {
      var c := text[0];
      var rest := AppleEscape(text[1..]);
      AppleEscapeRoundTrip(text[1..]);
      var w := AppleEscape(text);
      if c == '"' {
        assert w == "\\\"" + rest;
        assert w[0] == '\\' && w[1] == '"' && w[2..] == rest;
      } else if c == '\n' {
        assert w == "\\n" + rest;
        assert w[0] == '\\' && w[1] == 'n' && w[2..] == rest;
      } else if c == '\\' {
        assert w == "\\\\" + rest;
        assert w[0] == '\\' && w[1] == '\\' && w[2..] == rest;
      } else {
        assert w == [c] + rest;
        assert w[0] == c && w[1..] == rest;
      }
      assert text == [c] + text[1..];
    }
  }

  const KeystrokeHead: string := "tell application \"System Events\" to keystroke \""

  /** The one-line script that types an escaped literal. */
  function KeystrokeScript(literal: string): string {
    KeystrokeHead + literal + "\""
  }

  /** The shell word of `setTextViaKeyboard` as written: the script pasted
      between single quotes, its own quotes left as they are. */
  function KeyboardWordAsWritten(text: string): string {
    "'" + KeystrokeScript(KeystrokeEscape(text)) + "'"
  }

  /** A `'` in the text (as in "it's") ends the shell's single quotes early,
      so `osascript` never receives the script. */
  lemma QuoteInTextBreaksKeyboardWord(text: string)
    requires '\'' in text
    ensures ReadWord(KeyboardWordAsWritten(text), Bare)
         != Some(KeystrokeScript(KeystrokeEscape(text)))
  {
    QuoteSurvivesKeystrokeEscape(text);
    var script := KeystrokeScript(KeystrokeEscape(text));
    var e := KeystrokeEscape(text);
    var k :| 0 <= k < |e| && e[k] == '\'';
    assert script[|KeystrokeHead| + k] == '\'';
    UnescapedQuoteBreaksWord(script);
  }

  lemma {:induction false} QuoteSurvivesKeystrokeEscape(text: string)
    requires '\'' in text
    ensures '\'' in KeystrokeEscape(text)
  {
    var rest := KeystrokeEscape(text[1..]);
    var w := KeystrokeEscape(text);
    if text[0] == '\'' {
      assert w == [text[0]] + rest;
      assert w[0] == '\'';
    } else {
      assert '\'' in text[1..] by {
        var k :| 0 <= k < |text| && text[k] == '\'';
        assert text[1..][k - 1] == '\'';
      }
      QuoteSurvivesKeystrokeEscape(text[1..]);
      var j :| 0 <= j < |rest| && rest[j] == '\'';
      var head := |w| - |rest|;
      assert w == w[..head] + rest;
      assert w[head + j] == '\'';
    }
  }

  /** The shell word that types `text`: the literal escaped for AppleScript,
      the script quoted for the shell. */
  function KeyboardWord(text: string): string {
    ShellQuote(KeystrokeScript(AppleEscape(text)))
  }

  /** The shell hands `osascript` the typing script intact, and the literal in
      it denotes exactly the text. */
  lemma KeyboardWordDelivers(text: string)
    ensures ReadWord(KeyboardWord(text), Bare) == Some(KeystrokeScript(AppleEscape(text)))
    ensures AppleStringValue(AppleEscape(text)) == Some(text)
  {
    ShellQuoteRoundTrip(KeystrokeScript(AppleEscape(text)));
    AppleEscapeRoundTrip(text);
  }

  /** The head of the keystroke script holds no `'`. */
  lemma HeadHasNoQuote()
    ensures '\'' !in KeystrokeHead
  {
    var a := "tell application ";
    var b := "\"System Events\"";
    var c := " to keystroke \"";
    assert KeystrokeHead == a + b + c;
    assert '\'' !in a && '\'' !in b && '\'' !in c;
  }

  /** The keystroke escape introduces no `'` of its own. */
  lemma {:induction false} KeystrokeEscapeAddsNoQuote(text: string)
    requires '\'' !in text
    ensures '\'' !in KeystrokeEscape(text)
  {
    if |text| > 0 {
      var c := text[0];
      assert '\'' !in text[1..] by {
        forall k | 0 <= k < |text[1..]| ensures text[1..][k] != '\'' {
          assert text[1..][k] == text[k + 1];
        }
      }
      KeystrokeEscapeAddsNoQuote(text[1..]);
      var piece: string := if c == '"' then "\\\"" else if c == '\n' then "\\n" else [c];
      assert '\'' !in piece;
      assert KeystrokeEscape(text) == piece + KeystrokeEscape(text[1..]);
    }
  }

  /** For text without `'`, the single quotes the wrapper writes are a correct
      shell quoting, so the shell hands over the whole keystroke script. */
  lemma KeyboardWordAsWrittenReads(text: string)
    requires '\'' !in text
    ensures ReadWord(KeyboardWordAsWritten(text), Bare)
         == Some(KeystrokeScript(KeystrokeEscape(text)))
  {
    var script := KeystrokeScript(KeystrokeEscape(text));
    HeadHasNoQuote();
    KeystrokeEscapeAddsNoQuote(text);
    assert '\'' !in script by {
      assert script == KeystrokeHead + KeystrokeEscape(text) + "\"";
    }
    assert ShellQuote(script) == KeyboardWordAsWritten(text);
    ShellQuoteRoundTrip(script);
  }

  /** `setTextViaKeyboard` as written: the single-quoted command line is
      handed to the shell, and `osascript` answers (true for a run that
      succeeds, false when it throws) for the script the shell passes it, or
      for `None` when the shell cannot read the line. Text without `'` gets
      its keystroke script through intact, and without a backslash as well
      the literal in it denotes the text; a `'` makes `osascript` receive
      something else. */
  function SetTextViaKeyboard(text: string, osascript: Option<string> -> bool): (r: bool)
    ensures '\'' !in text ==> r == osascript(Some(KeystrokeScript(KeystrokeEscape(text))))
    ensures '\'' !in text && '\\' !in text ==>
      exists lit :: AppleStringValue(lit) == Some(text) && r == osascript(Some(KeystrokeScript(lit)))
    ensures '\'' in text ==>
      exists d :: d != Some(KeystrokeScript(KeystrokeEscape(text))) && r == osascript(d)
  {
    if '\'' in text then
      QuoteInTextBreaksKeyboardWord(text);
      osascript(ReadWord(KeyboardWordAsWritten(text), Bare))
    else
      KeyboardWordAsWrittenReads(text);
      if '\\' !in text then
        KeystrokeEscapeWithoutBackslash(text);
        osascript(ReadWord(KeyboardWordAsWritten(text), Bare))
      else
        osascript(ReadWord(KeyboardWordAsWritten(text), Bare))
  }

  /** The keyboard fallback with the command quoted and escaped as it needs:
      for every text `osascript` receives the keystroke script, and the
      literal in it denotes the text. */
  function SetTextViaKeyboardQuoted(text: string, osascript: Option<string> -> bool): (r: bool)
    ensures r == osascript(Some(KeystrokeScript(AppleEscape(text))))
    ensures exists lit :: AppleStringValue(lit) == Some(text) && r == osascript(Some(KeystrokeScript(lit)))
  {
    KeyboardWordDelivers(text);
    osascript(ReadWord(KeyboardWord(text), Bare))
  }

  /** `setFocusedElementText` and `insertTextAtCursor`: the keyboard fallback
      without the add-on, else the add-on's answer once the permission holds
      (`applied`). */
  function PlaceText(hasNative: bool, calls: NativeCalls, text: string, applied: bool,
                     osascript: Option<string> -> bool): (r: Result<bool, NativeError>)
    ensures !hasNative ==> r == Success(SetTextViaKeyboard(text, osascript))
    ensures hasNative ==> (r.Success? <==> calls.permitted)
    ensures hasNative && r.Success? ==> r.value == applied
  {
    if !hasNative then Success(SetTextViaKeyboard(text, osascript))
    else if !CheckPermissions(hasNative, calls) then Failure(PermissionRequired(""))
    else Success(applied)
  }

  // ----- NativeModules --------------------------------------------------

  /** The singleton: the add-ons loaded so far and the three managers once
      built (the accessibility manager is just its add-on flag). */
  datatype Wrapper = Wrapper(
    loaded: Loaded,
    initialized: bool,
    selector: Option<Selector>,
    menu: Option<Menu>,
    accessibility: Option<bool>)

  const Fresh: Wrapper := Wrapper(Loaded(false, false, false), false, None, None, None)

  /** What the singleton keeps true: managers exist exactly once it is
      initialised, each reflects its add-on, and a manager without its add-on
      is never monitoring or listening. */
  predicate Valid(w: Wrapper) {
    if w.initialized then
      w.selector.Some? && w.menu.Some? && w.accessibility.Some?
      && w.selector.value.hasNative == w.loaded.textSelection
      && w.menu.value.hasNative == w.loaded.contextMenu
      && w.accessibility.value == w.loaded.accessibility
      && (w.selector.value.hasNative || !w.selector.value.isMonitoring)
      && (w.menu.value.hasNative || !w.menu.value.isListening)
    else
      w.selector.None? && w.menu.None? && w.accessibility.None?
  }

  /** `initialize`: once initialised it answers true and changes nothing;
      otherwise it loads the add-ons, builds the managers and answers whether
      all three add-ons loaded. */
  function Initialize(w: Wrapper, firstFailure: nat): (r: (Wrapper, bool))
    ensures w.initialized ==> r == (w, true)
    ensures r.0.initialized
    ensures Valid(w) ==> Valid(r.0)
    ensures !w.initialized ==> r.0.loaded == LoadAddOns(firstFailure).0
  {
    if w.initialized then (w, true)
    else
      var (loaded, all) := LoadAddOns(firstFailure);
      (Wrapper(loaded, true, Some(NewSelector(loaded)), Some(NewMenu(loaded)),
               Some(loaded.accessibility)), all)
  }

  /** Initialising twice is the same as initialising once. */
  lemma InitializeIdempotent(w: Wrapper, first: nat, second: nat)
    ensures Initialize(Initialize(w, first).0, second) == (Initialize(w, first).0, true)
  {
  }

  /** `isAvailable`: every manager exists and has its add-on. */
  function IsAvailable(w: Wrapper): (r: bool)
    ensures r <==> (w.selector.Some? && w.selector.value.hasNative
                    && w.menu.Some? && w.menu.value.hasNative
                    && w.accessibility == Some(true))
  {
    match (w.selector, w.menu, w.accessibility)
    case (Some(s), Some(m), Some(a)) => s.hasNative && m.hasNative && a
    case _ => false
  }

  /** On a first initialisation, the answer of `initialize` and the later
      availability agree. */
  lemma AvailableIffAllLoaded(w: Wrapper, firstFailure: nat)
    requires !w.initialized
    ensures IsAvailable(Initialize(w, firstFailure).0) == Initialize(w, firstFailure).1
    ensures Initialize(w, firstFailure).1 <==> firstFailure >= 3
  {
  }

  datatype Status = Status(textSelection: bool, contextMenu: bool, accessibility: bool,
                           permissions: bool)

  /** `getStatus`: each manager's add-on flag, false for a missing manager,
      and the permission as the accessibility manager checks it. */
  function GetStatus(w: Wrapper, calls: NativeCalls): (r: Status)
    ensures r.textSelection <==> w.selector.Some? && w.selector.value.hasNative
    ensures r.contextMenu <==> w.menu.Some? && w.menu.value.hasNative
    ensures r.accessibility <==> w.accessibility == Some(true)
    ensures r.permissions <==> w.accessibility == Some(true) && calls.permitted
  {
    Status(
      w.selector.Some? && w.selector.value.hasNative,
      w.menu.Some? && w.menu.value.hasNative,
      w.accessibility == Some(true),
      w.accessibility.Some? && CheckPermissions(w.accessibility.value, calls))
  }

  /** The two listener names the setup registers. */
  const MenuListener: nat := 0
  const SelectionListener: nat := 1

  const AssistantMenu: seq<MenuItem> := [
    MenuItem("✨ Improve Text", "improve", "sparkles"),
    MenuItem("📝 Summarize", "summarize", "doc.text"),
    MenuItem("🌐 Translate", "translate", "globe"),
    MenuItem("↩️ Draft Reply", "reply", "arrowshape.turn.up.left")
  ]

  /** The accessibility add-on's answers to the setup's three permission
      queries, in the order they are asked: for the status, then again inside
      `startListening`, then again inside `startMonitoring`. */
  datatype PermissionAnswers = PermissionAnswers(status: bool, listen: bool, monitor: bool)

  /** The answers of a permission that does not change during the setup. */
  function Steady(calls: NativeCalls): PermissionAnswers {
    PermissionAnswers(calls.permitted, calls.permitted, calls.permitted)
  }

  /** Whether the setup registers the menu and starts listening. */
  predicate SetsUpMenu(st: Status) { st.contextMenu && st.permissions }

  /** Whether the setup starts monitoring the selection. */
  predicate SetsUpSelection(st: Status) { st.textSelection && st.permissions }

  /** The status the setup takes and answers. */
  function SetupStatus(w: Wrapper, firstFailure: nat, calls: NativeCalls, answers: PermissionAnswers)
    : Status
  {
    GetStatus(Initialize(w, firstFailure).0, calls.(permitted := answers.status))
  }

  /** `setupForAssistant`: initialises if needed, takes the status, and with
      the permission reported registers the menu and starts listening (when
      the context-menu add-on is there), then starts monitoring (when the
      text-selection add-on is there). Each start asks for the permission
      again and throws when it is now refused, which rejects the setup with
      the state reached so far; otherwise the answer is the status taken
      before any of that. */
  function SetupForAssistant(w: Wrapper, firstFailure: nat, calls: NativeCalls,
                             answers: PermissionAnswers)
    : (r: (Wrapper, Result<Status, NativeError>))
    requires Valid(w)
    ensures Valid(r.0)
    ensures var w1 := Initialize(w, firstFailure).0;
      r.0.loaded == w1.loaded && r.0.initialized
    ensures var st := SetupStatus(w, firstFailure, calls, answers);
      r.1.Success? <==> (SetsUpMenu(st) ==> answers.listen)
                        && (SetsUpSelection(st) ==> answers.monitor)
    ensures r.1.Success? ==> r.1.value == SetupStatus(w, firstFailure, calls, answers)
    ensures var st := SetupStatus(w, firstFailure, calls, answers);
      SetsUpMenu(st) && !answers.listen ==> r.1 == Failure(PermissionRequired("context menu"))
    ensures var st := SetupStatus(w, firstFailure, calls, answers);
      (!SetsUpMenu(st) || answers.listen) && SetsUpSelection(st) && !answers.monitor ==>
        r.1 == Failure(PermissionRequired("text selection monitoring"))
    ensures var w1 := Initialize(w, firstFailure).0;
      var st := SetupStatus(w, firstFailure, calls, answers);
      (SetsUpMenu(st) ==>
         r.0.menu.Some? && r.0.menu.value.menuItems == AssistantMenu
         && r.0.menu.value.callback == Some(MenuListener)
         && r.0.menu.value.isListening
              == (if answers.listen then calls.startListening else w1.menu.value.isListening))
      && (!SetsUpMenu(st) ==> r.0.menu == w1.menu)
    ensures var w1 := Initialize(w, firstFailure).0;
      var st := SetupStatus(w, firstFailure, calls, answers);
      (SetsUpSelection(st) && (SetsUpMenu(st) ==> answers.listen) && answers.monitor ==>
         r.0.selector == Some(w1.selector.value.(isMonitoring := calls.startMonitoring,
                                                 callback := Some(SelectionListener))))
      && (!(SetsUpSelection(st) && (SetsUpMenu(st) ==> answers.listen) && answers.monitor) ==>
         r.0.selector == w1.selector)
  {
    var w1 := Initialize(w, firstFailure).0;
    var status := GetStatus(w1, calls.(permitted := answers.status));
    assert status == SetupStatus(w, firstFailure, calls, answers);
    assert Valid(w1) && w1.initialized;
    var menu := MenuStep(w1, status, calls, answers.listen);
    if menu.1.Failure? then (menu.0, Failure(menu.1.error))
    else
      var selection := SelectionStep(menu.0, status, calls, answers.monitor);
      if selection.1.Failure? then (selection.0, Failure(selection.1.error))
      else (selection.0, Success(status))
  }

  /** The menu part of the setup: register and start listening when the
      status calls for it, the re-check answering `listen`. */
  function MenuStep(w1: Wrapper, status: Status, calls: NativeCalls, listen: bool)
    : (r: (Wrapper, Result<(), NativeError>))
    requires Valid(w1) && w1.initialized
    requires status.contextMenu <==> w1.menu.value.hasNative
    requires status.permissions ==> w1.loaded.accessibility
    ensures Valid(r.0) && r.0.loaded == w1.loaded && r.0.initialized
    ensures r.0.selector == w1.selector
    ensures r.1.Failure? <==> SetsUpMenu(status) && !listen
    ensures r.1.Failure? ==> r.1.error == PermissionRequired("context menu")
    ensures SetsUpMenu(status) ==>
      r.0.menu.Some? && r.0.menu.value.menuItems == AssistantMenu
      && r.0.menu.value.callback == Some(MenuListener)
      && r.0.menu.value.isListening
           == (if listen then calls.startListening else w1.menu.value.isListening)
    ensures !SetsUpMenu(status) ==> r.0.menu == w1.menu
  {
    if SetsUpMenu(status) then
      var (m1, _) := RegisterContextMenu(w1.menu.value, AssistantMenu, MenuListener, calls);
      match StartListening(m1, w1.loaded, calls.(permitted := listen))
      case Success((m2, _)) => (w1.(menu := Some(m2)), Success(()))
      case Failure(e) => (w1.(menu := Some(m1)), Failure(e))
    else (w1, Success(()))
  }

  /** The selection part of the setup: start monitoring when the status
      calls for it, the re-check answering `monitor`. */
  function SelectionStep(w2: Wrapper, status: Status, calls: NativeCalls, monitor: bool)
    : (r: (Wrapper, Result<(), NativeError>))
    requires Valid(w2) && w2.initialized
    requires status.textSelection <==> w2.selector.value.hasNative
    requires status.permissions ==> w2.loaded.accessibility
    ensures Valid(r.0) && r.0.loaded == w2.loaded && r.0.initialized
    ensures r.0.menu == w2.menu
    ensures r.1.Failure? <==> SetsUpSelection(status) && !monitor
    ensures r.1.Failure? ==> r.1.error == PermissionRequired("text selection monitoring")
    ensures SetsUpSelection(status) && monitor ==>
      r.0.selector == Some(w2.selector.value.(isMonitoring := calls.startMonitoring,
                                              callback := Some(SelectionListener)))
    ensures !(SetsUpSelection(status) && monitor) ==> r.0.selector == w2.selector
  {
    if SetsUpSelection(status) then
      match StartMonitoring(w2.selector.value, w2.loaded, SelectionListener,
                            calls.(permitted := monitor))
      case Success((s2, _)) => (w2.(selector := Some(s2)), Success(()))
      case Failure(e) => (w2, Failure(e))
    else (w2, Success(()))
  }

  /** With a permission that stays as it was, the setup always succeeds and
      answers the status of the initialised singleton: the permission is only
      reported when the accessibility add-on is loaded, so neither start call
      reaches an undefined add-on. */
  lemma SetupStartsCannotThrow(w: Wrapper, firstFailure: nat, calls: NativeCalls)
    requires Valid(w)
    ensures var w1 := Initialize(w, firstFailure).0;
      var st := GetStatus(w1, calls);
        (SetsUpMenu(st) ==> StartListening(w1.menu.value, w1.loaded, calls).Success?)
        && (SetsUpSelection(st) ==>
              StartMonitoring(w1.selector.value, w1.loaded, SelectionListener, calls).Success?)
    ensures SetupForAssistant(w, firstFailure, calls, Steady(calls)).1
         == Success(GetStatus(Initialize(w, firstFailure).0, calls))
  {
    assert calls.(permitted := calls.permitted) == calls;
  }

  /** A permission revoked between the status and the first start rejects
      the setup whenever the status reported it. */
  lemma RevokedPermissionRejectsSetup(w: Wrapper, firstFailure: nat, calls: NativeCalls)
    requires Valid(w)
    requires var st := GetStatus(Initialize(w, firstFailure).0, calls);
      st.permissions && (st.contextMenu || st.textSelection)
    ensures SetupForAssistant(w, firstFailure, calls,
                              PermissionAnswers(calls.permitted, false, false)).1.Failure?
  {
    assert calls.(permitted := calls.permitted) == calls;
  }

  /** `cleanup`: stops monitoring and listening where there is a manager. */
  function Cleanup(w: Wrapper, calls: NativeCalls): (r: Wrapper)
    ensures r.loaded == w.loaded && r.initialized == w.initialized
    ensures Valid(w) ==> Valid(r)
    ensures w.selector.None? ==> r.selector.None?
    ensures w.menu.None? ==> r.menu.None?
    ensures w.selector.Some? ==> r.selector == Some(StopMonitoring(w.selector.value, calls).0)
    ensures w.menu.Some? ==> r.menu == Some(StopListening(w.menu.value, calls).0)
  {
    var selector :=
      match w.selector
      case Some(s) => Some(StopMonitoring(s, calls).0)
      case None => None;
    var menu :=
      match w.menu
      case Some(m) => Some(StopListening(m, calls).0)
      case None => None;
    w.(selector := selector, menu := menu)
  }

  /** When the add-ons confirm both stops, nothing is monitoring or
      listening after cleanup. */
  lemma CleanupQuiesces(w: Wrapper, calls: NativeCalls)
    requires Valid(w)
    requires calls.stopMonitoring && calls.stopListening
    ensures var r := Cleanup(w, calls);
      (r.selector.Some? ==> !r.selector.value.isMonitoring)
      && (r.menu.Some? ==> !r.menu.value.isListening)
  {
  }
}
