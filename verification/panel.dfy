/** The assistant panel of the renderer as a small state machine: the
    processing flag, the text a quick action staged, the current mail
    context, the input box and the result area. Every asynchronous call of
    the panel (reading the selection and the clipboard, the filter and the
    model request sent to the main process) is an oracle held in `Env`, and
    each operation returns the calls it made in order, so that "the model is
    never asked" is a statement about that list. */
module Panel {
  import opened Wrappers
  import opened Text
  import Filter

  datatype EmailMessage = EmailMessage(sender: string, subject: string, content: string)

  /** A mail context as the main process reports it. `kind` is the context
      `type` and `content` its content, both `""` when missing or falsy. */
  datatype MailContext = MailContext(
    kind: string,
    content: string,
    sender: string,
    subject: string,
    messages: Option<seq<EmailMessage>>)

  datatype PanelState = PanelState(
    isProcessing: bool,
    storedText: Option<string>,
    context: Option<MailContext>,
    inputValue: string,
    result: string,
    replyEnabled: bool)

  /** The outside world of the panel: whether `systemAPI` and `electronAPI`
      exist, what the selection and clipboard reads resolve with (`None` when
      they reject), and the filter and model requests (their `Failure` is the
      rejection's message). */
  datatype Env = Env(
    systemApi: bool,
    selection: Option<string>,
    clipboard: Option<string>,
    electronApi: bool,
    filter: string -> Result<Filter.Verdict, string>,
    ai: (string, string, Option<MailContext>) -> Result<string, string>)

  /** One asynchronous call the panel made. */
  datatype Call =
    | SelectionRead
    | ClipboardRead
    | FilterCall(text: string)
    | AiCall(text: string, prompt: string, context: Option<MailContext>)

  /** What an operation did: the state it leaves, the calls it made, and the
      state the panel shows while it waits on them, if it sets the flag. */
  datatype Run = Run(after: PanelState, calls: seq<Call>, busy: Option<PanelState>)

  predicate AsksModel(calls: seq<Call>) {
    exists i :: 0 <= i < |calls| && calls[i].AiCall?
  }

  const NoElectronApi: string := "Electron API not available"
  const BlockedMessage: string := "Cannot process text containing sensitive information."
  const ProcessFailed: string :=
    "Failed to process request. Please check your settings and try again."
  const EmptyPrompt: string := "Please enter a description of what you need."
  const NoText: string := "No text available to process. Please select some text or compose an email."
  const QuickActionFailed: string := "Failed to perform quick action. Please try again."

  /** `a || b` on strings. */
  function Or(a: string, b: string): (r: string)
    ensures a != "" ==> r == a
    ensures a == "" ==> r == b
  {
    if a != "" then a else b
  }

  // ----- Result area ----------------------------------------------------

  /** `showError`: the result area shows the message behind `Error: `. */
  function ShowError(st: PanelState, message: string): (r: PanelState)
    ensures r == st.(result := r.result)
    ensures |r.result| == 7 + |message| && r.result[7..] == message
    ensures r.result[..7] == "Error: "
  {
    st.(result := "Error: " + message)
  }

  /** `startProcessing`: raises the flag and nothing else. */
  function StartProcessing(st: PanelState): (r: PanelState)
    ensures r.isProcessing && r.(isProcessing := st.isProcessing) == st
  {
    st.(isProcessing := true)
  }

  /** `stopProcessing`: lowers the flag and nothing else. */
  function StopProcessing(st: PanelState): (r: PanelState)
    ensures !r.isProcessing && r.(isProcessing := st.isProcessing) == st
  {
    st.(isProcessing := false)
  }

  // ----- Mail context and quick-action buttons ----------------------------

  /** `updateQuickActions`: only the reply button depends on the context. */
  function ReplyEnabled(kind: string): (r: bool)
    ensures r <==> kind == "mailbox" || kind == "viewer"
  {
    !(kind != "mailbox" && kind != "viewer")
  }

  /** `hideMailContext`: the context is dropped; the buttons stay as they are. */
  function HideMailContext(st: PanelState): (r: PanelState)
    ensures r == st.(context := None)
  {
    st.(context := None)
  }

  /** `updateMailContext`: a falsy context or one without a type hides the
      context; any other becomes current and sets the reply button. */
  function UpdateMailContext(st: PanelState, ctx: Option<MailContext>): (r: PanelState)
    ensures ctx.None? || ctx.value.kind == "" ==> r == st.(context := None)
    ensures ctx.Some? && ctx.value.kind != "" ==>
      r == st.(context := ctx, replyEnabled := ReplyEnabled(ctx.value.kind))
  {
    if ctx.None? || ctx.value.kind == "" then HideMailContext(st)
    else st.(context := ctx, replyEnabled := ReplyEnabled(ctx.value.kind))
  }

  // ----- formatEmailThread ------------------------------------------------

  function DigitChar(d: nat): char
    requires d < 10
  {
    ('0' as int + d) as char
  }

  /** `String(n)` for a natural number: its decimal digits. */
  function Decimal(n: nat): (r: string)
    ensures |r| >= 1
    ensures forall k :: 0 <= k < |r| ==> '0' <= r[k] <= '9'
  {
    if n < 10 then [DigitChar(n)] else Decimal(n / 10) + [DigitChar(n % 10)]
  }

  /** Reading decimal digits back into a number. */
  function ParseDecimal(s: string): (r: Option<nat>)
    decreases |s|
  {
    if |s| == 0 || !('0' <= s[|s| - 1] <= '9') then None
    else if |s| == 1 then Some(s[0] as int - '0' as int)
    else match ParseDecimal(s[..|s| - 1])
      case Some(h) => Some(h * 10 + (s[|s| - 1] as int - '0' as int))
      case None => None
  }

  lemma {:induction false} DecimalRoundTrip(n: nat)
    ensures ParseDecimal(Decimal(n)) == Some(n)
  {
    if n >= 10 {
      DecimalRoundTrip(n / 10);
      var s := Decimal(n);
      assert s[..|s| - 1] == Decimal(n / 10);
    }
  }

  /** The block of the `i`-th email (counting from 1). */
  function EmailBlock(i: nat, m: EmailMessage): (r: string)
    ensures |r| > 0
  {
    "Email " + Decimal(i) + ":\nFrom: " + m.sender + "\nSubject: " + m.subject
      + "\nContent: " + m.content + "\n\n---"
  }

  function EmailBlocks(ms: seq<EmailMessage>): (r: seq<string>)
    ensures |r| == |ms|
    ensures forall i :: 0 <= i < |ms| ==> r[i] == EmailBlock(i + 1, ms[i])
  {
    seq(|ms|, i requires 0 <= i < |ms| => EmailBlock(i + 1, ms[i]))
  }

  lemma {:induction false} JoinSnoc(parts: seq<string>, p: string, sep: char)
    requires |parts| > 0
    ensures Join(parts + [p], sep) == Join(parts, sep) + [sep] + p
    decreases |parts|
  {
    var all := parts + [p];
    if |parts| == 1 {
      assert all[1..] == [p];
    } else {
      assert all[1..] == parts[1..] + [p];
      JoinSnoc(parts[1..], p, sep);
    }
  }

  lemma {:induction false} JoinStartsWithFirst(parts: seq<string>, sep: char)
    requires |parts| > 0
    ensures |Join(parts, sep)| >= |parts[0]|
  {
  }

  /** `formatEmailThread`: the numbered blocks joined by newlines, or the
      empty string for no messages. */
  function FormatEmailThread(messages: Option<seq<EmailMessage>>): (r: string)
    ensures r == "" <==> messages.None? || |messages.value| == 0
    ensures messages.Some? && |messages.value| == 1 ==> r == EmailBlock(1, messages.value[0])
  {
    if messages.None? || |messages.value| == 0 then ""
    else
      var blocks := EmailBlocks(messages.value);
      JoinStartsWithFirst(blocks, '\n');
      Join(blocks, '\n')
  }

  /** One more message adds one more block, behind a newline. */
  lemma ThreadGrowsByOneBlock(ms: seq<EmailMessage>, m: EmailMessage)
    requires |ms| > 0
    ensures FormatEmailThread(Some(ms + [m]))
         == FormatEmailThread(Some(ms)) + "\n" + EmailBlock(|ms| + 1, m)
  {
    assert EmailBlocks(ms + [m]) == EmailBlocks(ms) + [EmailBlock(|ms| + 1, m)];
    JoinSnoc(EmailBlocks(ms), EmailBlock(|ms| + 1, m), '\n');
  }

  /** The text the panel takes from a viewer or mailbox context. */
  function MailText(c: MailContext): (r: string)
    ensures c.content != "" ==> r == c.content
    ensures c.content == "" ==> r == FormatEmailThread(c.messages)
  {
    Or(c.content, FormatEmailThread(c.messages))
  }

  // ----- Reading text -----------------------------------------------------

  /** `await getSelectedText() || await readClipboard() || ''`: the text,
      or `None` when a read rejects, with the reads made. Without
      `systemAPI` the text stays empty. */
  function ReadSystemText(env: Env): (r: (Option<string>, seq<Call>))
    ensures !env.systemApi ==> r == (Some(""), [])
    ensures env.systemApi && env.selection.Some? && env.selection.value != "" ==>
      r == (env.selection, [SelectionRead])
    ensures env.systemApi && env.selection.None? ==> r == (None, [SelectionRead])
    ensures env.systemApi && env.selection == Some("") ==>
      r == (env.clipboard, [SelectionRead, ClipboardRead])
  {
    if !env.systemApi then (Some(""), [])
    else match env.selection
      case None => (None, [SelectionRead])
      case Some(s) =>
        if s != "" then (Some(s), [SelectionRead])
        else (env.clipboard, [SelectionRead, ClipboardRead])
  }

  predicate IsContext(ctx: Option<MailContext>, kind: string) {
    ctx.Some? && ctx.value.kind == kind
  }

  /** The text `processRequest` sends: staged text first, then a compose
      context's content, then a viewer or mailbox context's content or
      thread, then the selection or clipboard; a rejected read leaves it
      empty. */
  function RequestText(st: PanelState, env: Env): (r: (string, seq<Call>))
    ensures st.storedText.Some? && st.storedText.value != "" ==> r == (st.storedText.value, [])
    ensures (st.storedText.None? || st.storedText.value == "") && IsContext(st.context, "compose")
      ==> r == (st.context.value.content, [])
    ensures (st.storedText.None? || st.storedText.value == "")
      && (IsContext(st.context, "viewer") || IsContext(st.context, "mailbox"))
      ==> r == (MailText(st.context.value), [])
    ensures (st.storedText.None? || st.storedText.value == "")
      && !IsContext(st.context, "compose") && !IsContext(st.context, "viewer")
      && !IsContext(st.context, "mailbox")
      ==> r == (ReadSystemText(env).0.GetOr(""), ReadSystemText(env).1)
  {
    if st.storedText.Some? && st.storedText.value != "" then (st.storedText.value, [])
    else if IsContext(st.context, "compose") then (st.context.value.content, [])
    else if IsContext(st.context, "viewer") || IsContext(st.context, "mailbox") then
      (MailText(st.context.value), [])
    else
      var read := ReadSystemText(env);
      (read.0.GetOr(""), read.1)
  }

  // ----- processWithText and processRequest --------------------------------

  /** What the guarded part of `processWithText` shows and which calls it
      makes. */
  function Attempt(env: Env, text: string, prompt: string, ctx: Option<MailContext>)
    : (r: (string, seq<Call>))
  {
    if !env.electronApi then ("Error: " + NoElectronApi, [])
    else match env.filter(text)
      case Failure(m) => ("Error: " + Or(m, ProcessFailed), [FilterCall(text)])
      case Success(v) =>
        if !v.safe && v.blocked then ("Error: " + BlockedMessage, [FilterCall(text)])
        else
          var sent := Or(v.safeText, text);
          match env.ai(sent, prompt, ctx)
          case Success(reply) => (reply, [FilterCall(text), AiCall(sent, prompt, ctx)])
          case Failure(m) => ("Error: " + Or(m, ProcessFailed), [FilterCall(text), AiCall(sent, prompt, ctx)])
  }

  /** The prompt `processWithText` uses: the given one, or the trimmed input. */
  function EffectivePrompt(st: PanelState, customPrompt: Option<string>): (r: string)
    ensures customPrompt.Some? && customPrompt.value != "" ==> r == customPrompt.value
    ensures customPrompt.None? || customPrompt.value == "" ==> r == Trim(st.inputValue)
  {
    if customPrompt.Some? && customPrompt.value != "" then customPrompt.value
    else Trim(st.inputValue)
  }

  /** `processWithText`: a no-op while processing; otherwise the flag is up
      across the calls, filtering comes first, a blocked verdict stops before
      the model, the model gets the redacted text (or the original when that
      is empty), and the flag is down again whatever happened. */
  function ProcessWithText(st: PanelState, env: Env, text: string, customPrompt: Option<string>)
    : (r: Run)
    ensures st.isProcessing ==> r == Run(st, [], None)
    ensures !st.isProcessing ==>
      r.busy == Some(StartProcessing(st))
      && !r.after.isProcessing
      && r.after == st.(result := r.after.result)
    ensures !st.isProcessing && !env.electronApi ==>
      r.calls == [] && r.after.result == "Error: " + NoElectronApi
    ensures !st.isProcessing && env.electronApi ==>
      |r.calls| >= 1 && r.calls[0] == FilterCall(text)
    ensures !st.isProcessing && env.electronApi && env.filter(text).Success? ==>
      var v := env.filter(text).value;
      var prompt := EffectivePrompt(st, customPrompt);
      (!v.safe && v.blocked ==>
         r.calls == [FilterCall(text)] && r.after.result == "Error: " + BlockedMessage)
      && (!(!v.safe && v.blocked) ==>
         r.calls == [FilterCall(text), AiCall(Or(v.safeText, text), prompt, st.context)]
         && match env.ai(Or(v.safeText, text), prompt, st.context)
            case Success(reply) => r.after.result == reply
            case Failure(m) => r.after.result == "Error: " + Or(m, ProcessFailed))
    ensures !st.isProcessing && env.electronApi && env.filter(text).Failure? ==>
      r.calls == [FilterCall(text)]
      && r.after.result == "Error: " + Or(env.filter(text).error, ProcessFailed)
  {
    if st.isProcessing then Run(st, [], None)
    else
      var prompt := EffectivePrompt(st, customPrompt);
      var busy := StartProcessing(st);
      var outcome := Attempt(env, text, prompt, busy.context);
      Run(StopProcessing(busy.(result := outcome.0)), outcome.1, Some(busy))
  }

  /** `processRequest`: a no-op while processing; a blank prompt only shows
      an error; otherwise the text is acquired, processed with the trimmed
      prompt, and the staged text is dropped, whatever the outcome. */
  function ProcessRequest(st: PanelState, env: Env): (r: Run)
    ensures st.isProcessing ==> r == Run(st, [], None)
    ensures !st.isProcessing && IsBlank(st.inputValue) ==>
      r == Run(ShowError(st, EmptyPrompt), [], None)
    ensures !st.isProcessing && !IsBlank(st.inputValue) ==>
      var acquired := RequestText(st, env);
      var inner := ProcessWithText(st, env, acquired.0, Some(Trim(st.inputValue)));
      r.after == inner.after.(storedText := None)
      && r.calls == acquired.1 + inner.calls
      && r.busy == inner.busy
  {
    if st.isProcessing then Run(st, [], None)
    else
      var prompt := Trim(st.inputValue);
      TrimEmptyIffBlank(st.inputValue);
      if prompt == "" then Run(ShowError(st, EmptyPrompt), [], None)
      else
        var acquired := RequestText(st, env);
        var inner := ProcessWithText(st, env, acquired.0, Some(prompt));
        Run(inner.after.(storedText := None), acquired.1 + inner.calls, inner.busy)
  }

  // ----- handleQuickAction -------------------------------------------------

  datatype QuickAction = Summarize | Translate | Improve | Reply | Unknown

  const SummarizeText: string := "Please summarize this text concisely, highlighting the key points:"
  const TranslatePrompt: string :=
    "Please translate this text to English (or if it's already in English, ask me which language to translate to):"
  const ImprovePrompt: string := "Please improve this text for clarity, tone, and professionalism:"
  const ReplyToEmail: string := "Based on this email, help me draft a professional reply:"
  const ReplyToText: string := "Help me draft a professional email reply to this:"

  /** The prompt a quick action stages, and the text it stages given the
      text read first. Only reply in a viewer or mailbox context replaces
      that text, with the mail's content or thread. */
  function QuickPlan(action: QuickAction, ctx: Option<MailContext>, read: string)
    : (r: (string, string))
    ensures action != Reply ==> r.1 == read
    ensures action == Reply && (IsContext(ctx, "viewer") || IsContext(ctx, "mailbox")) ==>
      r == (ReplyToEmail, MailText(ctx.value))
    ensures action == Reply && !(IsContext(ctx, "viewer") || IsContext(ctx, "mailbox")) ==>
      r == (ReplyToText, read)
    ensures action == Summarize && IsContext(ctx, "viewer") ==>
      r.0 == "Please summarize this email from " + Or(ctx.value.sender, "sender") + ":"
    ensures action == Summarize && !IsContext(ctx, "viewer") ==> r.0 == SummarizeText
    ensures action == Unknown ==> r.0 == ""
  {
    match action
    case Summarize =>
      if IsContext(ctx, "viewer") then
        ("Please summarize this email from " + Or(ctx.value.sender, "sender") + ":", read)
      else (SummarizeText, read)
    case Translate => (TranslatePrompt, read)
    case Improve => (ImprovePrompt, read)
    case Reply =>
      if IsContext(ctx, "viewer") || IsContext(ctx, "mailbox") then
        (ReplyToEmail, MailText(ctx.value))
      else (ReplyToText, read)
    case Unknown => ("", read)
  }

  /** The text read before the prompt is chosen: a compose or viewer
      context's content, otherwise the selection or clipboard. */
  function QuickRead(st: PanelState, env: Env): (r: (Option<string>, seq<Call>))
    ensures IsContext(st.context, "compose") || IsContext(st.context, "viewer") ==>
      r == (Some(st.context.value.content), [])
    ensures !(IsContext(st.context, "compose") || IsContext(st.context, "viewer")) ==>
      r == ReadSystemText(env)
  {
    if IsContext(st.context, "compose") || IsContext(st.context, "viewer") then
      (Some(st.context.value.content), [])
    else ReadSystemText(env)
  }

  /** `handleQuickAction` (the definition that takes only the action): stages
      the text and the prompt for the user to edit and run. A rejected read,
      or blank text, only shows an error. The panel's flag is never raised. */
  function HandleQuickAction(st: PanelState, env: Env, action: QuickAction): (r: Run)
    ensures st.isProcessing ==> r == Run(st, [], None)
    ensures r.busy.None? && !AsksModel(r.calls)
    ensures !st.isProcessing ==> r.calls == QuickRead(st, env).1
    ensures !st.isProcessing && QuickRead(st, env).0.None? ==>
      r.after == ShowError(st, QuickActionFailed)
    ensures !st.isProcessing && QuickRead(st, env).0.Some? ==>
      var plan := QuickPlan(action, st.context, QuickRead(st, env).0.value);
      (IsBlank(plan.1) ==> r.after == ShowError(st, NoText))
      && (!IsBlank(plan.1) ==> r.after == st.(storedText := Some(plan.1), inputValue := plan.0))
  {
    if st.isProcessing then Run(st, [], None)
    else
      var read := QuickRead(st, env);
      assert !AsksModel(read.1);
      match read.0
      case None => Run(ShowError(st, QuickActionFailed), read.1, None)
      case Some(t) =>
        var plan := QuickPlan(action, st.context, t);
        TrimEmptyIffBlank(plan.1);
        if Trim(plan.1) == "" then Run(ShowError(st, NoText), read.1, None)
        else Run(st.(storedText := Some(plan.1), inputValue := plan.0), read.1, None)
  }

  // ----- Privacy indicator ---------------------------------------------------

  const SafeBadge: string := "\U{1F512} Safe"
  const FilteredBadge: string := "\U{26A0}\U{FE0F} Filtered"

  /** The privacy indicator: its label and the warning, `None` when hidden,
      else the count it shows. */
  datatype PrivacyView = PrivacyView(status: string, warning: Option<int>)

  /** `updatePrivacyStatus`: safe shows the lock and hides the warning;
      otherwise the warning shows the count, or 1 when the count is falsy. */
  function UpdatePrivacyStatus(v: Filter.Verdict): (r: PrivacyView)
    ensures v.safe ==> r == PrivacyView(SafeBadge, None)
    ensures !v.safe ==> r.status == FilteredBadge && r.warning.Some?
    ensures !v.safe && v.filteredCount != 0 ==> r.warning == Some(v.filteredCount)
    ensures !v.safe && v.filteredCount == 0 ==> r.warning == Some(1)
  {
    if v.safe then PrivacyView(SafeBadge, None)
    else PrivacyView(FilteredBadge, Some(if v.filteredCount != 0 then v.filteredCount else 1))
  }

  /** `handleInputChange`: blank input hides the warning and keeps the
      label; otherwise the filter's verdict sets the indicator, and a missing
      API or a failing filter leaves it as it was. */
  function HandleInputChange(view: PrivacyView, input: string, env: Env): (r: PrivacyView)
    ensures IsBlank(input) ==> r == view.(warning := None)
    ensures !IsBlank(input) && (!env.electronApi || env.filter(input).Failure?) ==> r == view
    ensures !IsBlank(input) && env.electronApi && env.filter(input).Success? ==>
      r == UpdatePrivacyStatus(env.filter(input).value)
  {
    TrimEmptyIffBlank(input);
    if Trim(input) == "" then view.(warning := None)
    else if !env.electronApi then view
    else match env.filter(input)
      case Failure(_) => view
      case Success(v) => UpdatePrivacyStatus(v)
  }

  // ----- Properties across operations ---------------------------------------

  /** Single flight: while an operation waits on its calls, starting any
      other operation does nothing at all. */
  lemma SingleFlight(st: PanelState, env: Env, text: string, customPrompt: Option<string>,
                     env2: Env, action: QuickAction)
    requires !st.isProcessing
    ensures var busy := ProcessWithText(st, env, text, customPrompt).busy.value;
      busy.isProcessing
      && ProcessWithText(busy, env2, text, customPrompt) == Run(busy, [], None)
      && ProcessRequest(busy, env2) == Run(busy, [], None)
      && HandleQuickAction(busy, env2, action) == Run(busy, [], None)
  {
  }

  /** With the main process's filter behind the panel, text with more than
      three matches is never sent to the model and the panel shows the
      blocked message; other text reaches the model redacted. */
  lemma BlockedTextNeverReachesModel(st: PanelState, env: Env, text: string,
                                     customPrompt: Option<string>,
                                     settings: Filter.FilterSettings, matcher: Filter.Matcher)
    requires !st.isProcessing && env.electronApi
    requires env.filter(text) == Success(Filter.FilterSensitiveContent(settings, matcher, text))
    ensures var v := Filter.FilterSensitiveContent(settings, matcher, text);
      var r := ProcessWithText(st, env, text, customPrompt);
      (|v.matches| > Filter.BlockThreshold <==> !AsksModel(r.calls))
      && (|v.matches| > Filter.BlockThreshold ==> r.after.result == "Error: " + BlockedMessage)
      && (|v.matches| <= Filter.BlockThreshold ==>
            r.calls[1].text == Or(Filter.Redact(text, v.matches), text))
  {
    var v := Filter.FilterSensitiveContent(settings, matcher, text);
    var r := ProcessWithText(st, env, text, customPrompt);
    if |v.matches| > Filter.BlockThreshold {
      assert r.calls == [FilterCall(text)];
    } else {
      assert r.calls[1].AiCall?;
    }
  }

  /** Staging and running: after a quick action has staged text and a
      non-blank prompt, pressing process filters exactly that text and drops
      it afterwards. */
  lemma QuickActionThenProcess(st: PanelState, env: Env, action: QuickAction)
    requires !st.isProcessing
    requires QuickRead(st, env).0.Some?
    requires var plan := QuickPlan(action, st.context, QuickRead(st, env).0.value);
      !IsBlank(plan.1) && !IsBlank(plan.0)
    requires env.electronApi
    ensures var plan := QuickPlan(action, st.context, QuickRead(st, env).0.value);
      var r := ProcessRequest(HandleQuickAction(st, env, action).after, env);
      r.calls[0] == FilterCall(plan.1) && r.after.storedText.None?
  {
    var plan := QuickPlan(action, st.context, QuickRead(st, env).0.value);
    var staged := HandleQuickAction(st, env, action).after;
    QuickActionStages(st, env, action);
    assert staged.storedText == Some(plan.1) && staged.inputValue == plan.0;
    assert !staged.isProcessing && staged.context == st.context;
    StagedRequest(staged, env, plan.1, plan.0);
  }

  lemma QuickActionStages(st: PanelState, env: Env, action: QuickAction)
    requires !st.isProcessing
    requires QuickRead(st, env).0.Some?
    requires !IsBlank(QuickPlan(action, st.context, QuickRead(st, env).0.value).1)
    ensures var plan := QuickPlan(action, st.context, QuickRead(st, env).0.value);
      HandleQuickAction(st, env, action).after
        == st.(storedText := Some(plan.1), inputValue := plan.0)
  {
  }

  /** Running with staged text filters that text first, drops it afterwards,
      and sends the model the input, trimmed, as the task. */
  lemma StagedRequest(staged: PanelState, env: Env, text: string, prompt: string)
    requires !staged.isProcessing && staged.storedText == Some(text) && staged.inputValue == prompt
    requires !IsBlank(text) && !IsBlank(prompt) && env.electronApi
    ensures var r := ProcessRequest(staged, env);
      r.calls[0] == FilterCall(text)
      && r.after.storedText.None?
      && (|r.calls| == 2 ==> r.calls[1] == AiCall(r.calls[1].text, Trim(prompt), staged.context))
  {
    assert text != "";
    TrimEmptyIffBlank(prompt);
    var acquired := RequestText(staged, env);
    assert acquired == (text, []);
    var inner := ProcessWithText(staged, env, text, Some(Trim(prompt)));
    assert EffectivePrompt(staged, Some(Trim(prompt))) == Trim(prompt);
    var r := ProcessRequest(staged, env);
    assert r.calls == [] + inner.calls;
    AttemptCalls(env, text, Trim(prompt), staged.context);
  }

  /** The calls of the guarded part: the filter first, then at most the
      model, with the prompt and context given. */
  lemma AttemptCalls(env: Env, text: string, prompt: string, ctx: Option<MailContext>)
    requires env.electronApi
    ensures var calls := Attempt(env, text, prompt, ctx).1;
      1 <= |calls| <= 2 && calls[0] == FilterCall(text)
      && (|calls| == 2 ==> calls[1] == AiCall(calls[1].text, prompt, ctx))
  {
  }

  /** The reply button is enabled exactly in the contexts where a reply
      drafts from the mail itself. */
  lemma ReplyButtonMatchesReplyText(st: PanelState, ctx: MailContext, read: string)
    requires ctx.kind != ""
    ensures var s := UpdateMailContext(st, Some(ctx));
      s.replyEnabled <==> QuickPlan(Reply, s.context, read).0 == ReplyToEmail
  {
    assert |ReplyToEmail| != |ReplyToText|;
  }

  /** In a mailbox context the reply action still reads the selection
      first: when that read rejects, the action fails even though the mail
      text would have been used. */
  lemma MailboxReplyNeedsSelection(st: PanelState, env: Env)
    requires !st.isProcessing && IsContext(st.context, "mailbox")
    requires env.systemApi && env.selection.None?
    ensures HandleQuickAction(st, env, Reply).after == ShowError(st, QuickActionFailed)
  {
  }

  /** Blank text never gets staged, and a failed quick action keeps the text
      staged before it. */
  lemma FailedQuickActionKeepsStaged(st: PanelState, env: Env, action: QuickAction)
    requires !st.isProcessing
    ensures var r := HandleQuickAction(st, env, action).after;
      r.storedText != st.storedText ==> r.storedText.Some? && !IsBlank(r.storedText.value)
  {
  }

  /** With the main process's filter, the warning shows exactly when
      something matched, and shows the number of matches. */
  lemma WarningCountsMatches(view: PrivacyView, input: string, env: Env,
                             settings: Filter.FilterSettings, matcher: Filter.Matcher)
    requires !IsBlank(input) && env.electronApi
    requires env.filter(input) == Success(Filter.FilterSensitiveContent(settings, matcher, input))
    ensures var r := HandleInputChange(view, input, env);
      var ms := Filter.FilterSensitiveContent(settings, matcher, input).matches;
      (r.warning.Some? <==> |ms| > 0) && (|ms| > 0 ==> r.warning == Some(|ms|))
  {
  }
}
