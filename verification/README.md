# LLM Assistant for macOS, modelled in Dafny

LLM Assistant is an Electron application that lets a user on macOS send selected
text, clipboard contents or Apple Mail context to OpenAI. The text first passes a
privacy filter, and a command-line wizard sets the assistant up. This project
models the application's core as pure Dafny functions and proves properties of it.
The core is:

- **main process** (`src/main/main.js`): the privacy filter that redacts and
  counts sensitive matches and blocks text with more than three; the `process-ai`
  handler (client creation, system prompt per mail context, user message,
  request parameters, error classification); `executeAppleScript`, which quotes
  a script for the shell and turns the process outcome into a value or an error.
- **renderer panel** (`src/renderer/js/assistant.js`): the busy flag; text
  acquisition (staged text, mail context, selection, clipboard); quick actions
  that stage a text and a prompt; the filtered request to the model; the privacy
  badge; the mail context bar; the reply button.
- **native wrapper** (`native-modules/index.js`): graceful loading of the three
  add-ons; the text-selection, context-menu and accessibility wrappers; the
  keyboard fallback that types text through `osascript`; the singleton's
  initialise/setup/cleanup lifecycle.
- **model catalogue** (`src/main/modelManager.js`): loading and merging the
  default and user model files, listing models of enabled providers, the
  default model, `provider:model` identifiers, enabling providers, adding and
  removing models, the fallback configuration.
- **setup wizard** (`scripts/setup_wizard.js`): API-key acceptance, reading of
  the yes/no answers, model choice, and the saved record.

Modules: `Wrappers` (Option/Result), `Text` (the JavaScript string operations
used: `trim`, `startsWith`, `indexOf`, `replace`, `split`/`join`, ASCII case),
`JsObject` (the member names every object inherits), `Filter`, `AiRequest`, `Shell`,
`Native`, `Catalog`, `Panel` and `Wizard`.

External effects become inputs. The regular expressions are a `Matcher`
(category, text) ↦ matches. The OpenAI reply is an `upstream` result. Selection,
clipboard, filter and model calls of the panel are an `Env` of oracles, and each
panel operation returns the sequence of calls it made. File reads are
`Option`/`UserFile` values, and process outcomes are `ExecOutcome` records.

Three behaviours of the code worth knowing when reading the model:
- Only status 500 maps to "service unavailable"; other 5xx statuses get the
  generic message.
- The filter replaces the first remaining occurrence of each match, not every
  occurrence of it.
- `processRequest` acquires the text before it raises the busy flag.

## Model

| member | source | states |
|---|---|---|
| Text.TrimStart | src/main/main.js:183 | the result is a suffix of the input, only blanks were dropped, and it does not start with a blank |
| Text.TrimEnd | src/main/main.js:183 | the result is a prefix of the input, only blanks were dropped, and it does not end with a blank |
| Text.TrimEmptyIffBlank | src/main/main.js:322 | `trim()` yields the empty string exactly when the input is all blanks |
| Text.IndexOf | src/main/main.js:280 | the result is -1 or a position where the pattern occurs, and no earlier position matches |
| Text.ReplaceFirst | src/main/main.js:280 | without an occurrence the text is unchanged; otherwise the first occurrence is replaced and the text around it kept |
| Text.ReplaceEveryChar | src/main/main.js:174 | a text without the character is unchanged |
| Text.ReplaceEveryCharUnits | src/main/main.js:174 | the character alone becomes the replacement, and any other single character stays |
| Text.ReplaceEveryCharAppend | src/main/main.js:174 | replacing every occurrence distributes over concatenation, so each character is handled independently of the others |
| Text.Split | src/main/modelManager.js:153 | at least one part, and no part contains the separator |
| Text.JoinSplit | src/main/modelManager.js:153-157 | joining the split parts with the separator gives back the input |
| Text.SplitSingleIffNoSep | src/main/modelManager.js:153-157 | splitting yields one part exactly when the separator is absent |
| Text.ToUpperAscii | src/main/main.js:280 | same length, each character upper-cased |
| Text.ToLowerAscii | scripts/setup_wizard.js:69 | same length, each character lower-cased |
| Filter.FilterSensitiveContent | src/main/main.js:265-292 | matches are the toggled categories' matches in declaration order; safeText is the text with each match redacted in turn; count = number of matches; safe iff none; blocked iff more than 3 |
| Filter.DefaultTogglesOn | src/main/main.js:266-270 | an unset store value enables each of the three store-toggled categories |
| Filter.OnlyToggledCategories | src/main/main.js:276 | every reported match belongs to a category whose toggle is on |
| Filter.MatchesOfCategory | src/main/main.js:275-283 | the matches of one category are exactly its regular expression's matches, tagged, when toggled, and none otherwise |
| Filter.MatchesInDeclarationOrder | src/main/main.js:199-205 | matches are grouped by category in the order the patterns are declared |
| Filter.Disable | src/main/main.js:266-270 | switching one toggle off leaves the others as they were |
| Filter.DisablingRemovesCategory | src/main/main.js:276 | disabling a category removes exactly its matches and keeps the rest in order |
| Filter.NoMatchesKeepsText | src/main/main.js:285-287 | when no toggled pattern matches, the text is safe and passed through unchanged |
| Filter.RedactStep | src/main/main.js:280 | one redaction puts the category placeholder where the first occurrence was |
| Filter.RecordMatchesIsTagAndRedact | src/main/main.js:278-281 | the per-match loop appends the tagged matches and redacts each in turn |
| Filter.RedactAppend | src/main/main.js:278-281 | redacting two match lists in a row equals redacting their concatenation |
| Filter.ScanMatches | src/main/main.js:275-283 | the category loop accumulates exactly the expected matches |
| Filter.ScanWorking | src/main/main.js:275-283 | the category loop's working text is the redaction by the accumulated matches |
| Filter.PlaceholderText | src/main/main.js:280 | the placeholder is `[` + upper-cased category key + `_FILTERED]` |
| AiRequest.InitializeClient | src/main/main.js:210-215 | a client is created from a stored non-empty key; otherwise the previous client stays |
| AiRequest.SetApiKey | src/main/main.js:222-231 | the key is stored, and a usable key replaces the client |
| AiRequest.ClearingKeyKeepsClient | src/main/main.js:222-231 | storing an empty or missing key leaves an existing client in place |
| AiRequest.SystemPrompt | src/main/main.js:307-315 | base text, then the compose or mailbox addendum for those context types, then the closing sentence |
| AiRequest.OtherContextsShareThePlainPrompt | src/main/main.js:309-313 | any other context type, viewer included, gets the prompt of no context |
| AiRequest.UserMessage | src/main/main.js:322-326 | blank text yields the bare prompt; otherwise the text and task headers frame text and prompt |
| AiRequest.PromptEndsUserMessage | src/main/main.js:322-326 | the prompt is always the end of the user message |
| AiRequest.TextFollowsHeader | src/main/main.js:323 | with non-blank text the message starts with the text header followed by the text |
| AiRequest.BuildRequest | src/main/main.js:304-333 | model defaults to gpt-4; exactly a system and a user message; 1000 tokens, temperature 0.7 |
| AiRequest.MapError | src/main/main.js:340-348 | 401, 429 and 500 map to their fixed failures, anything else to "AI processing failed: " + message |
| AiRequest.MapErrorClassifies | src/main/main.js:340-348 | each failure kind arises exactly from its status |
| AiRequest.ProcessAi | src/main/main.js:295-350 | without client and usable key nothing is sent and the key-missing failure is returned; otherwise the built request is sent and the reply or mapped error returned |
| AiRequest.ExistingClientReused | src/main/main.js:296-301 | with a client present the state is untouched and the request goes out as built |
| Shell.EscapeSingleQuotes | src/main/main.js:174 | a script without `'` is unchanged |
| Shell.EscapedBodyReads | src/main/main.js:174-175 | inside single quotes the escaped script reads back as the script |
| Shell.ShellQuoteRoundTrip | src/main/main.js:174-175 | the shell hands `osascript` exactly the script, whatever quotes it holds |
| Shell.UnescapedQuoteBreaksWord | src/main/main.js:175 | wrapping without escaping loses characters whenever the script holds a `'` |
| Shell.ScriptResult | src/main/main.js:176-192 | exec error, then stderr, reject with their prefixes; otherwise the trimmed output resolves, parsed when it starts with `{` or `[` and parses, raw otherwise |
| Shell.RawResultIsTrimmed | src/main/main.js:183-191 | raw text has no surrounding blanks, and blank output resolves to "" |
| Shell.MailContextResult | src/main/main.js:394-399 | the script's value passes through; a failure gains the mail prefix |
| Native.LoadAddOns | native-modules/index.js:9-24 | text selection loads iff the first failure is after it, the context menu iff after the second, accessibility iff after the third; each loaded add-on implies the earlier ones; all three loaded iff the flag is set |
| Native.StartMonitoring | native-modules/index.js:35-52 | fails without the add-on, without accessibility, or without permission; on success it monitors with the callback |
| Native.StopMonitoring | native-modules/index.js:55-66 | stops only a monitoring native selector, clearing the callback; otherwise nothing changes |
| Native.StartThenStopRestores | native-modules/index.js:35-66 | starting then stopping returns the selector to its idle state |
| Native.FallbackSelection | native-modules/index.js:82-117 | the trimmed script output or "", with app "Unknown" at (0, 0) |
| Native.GetSelectedText | native-modules/index.js:69-79 | without the add-on the fallback is used; with it the native selection or the failure |
| Native.FallbackNeverFails | native-modules/index.js:82-117 | the fallback always succeeds, with the empty selection when its script fails |
| Native.RegisterContextMenu | native-modules/index.js:130-144 | registration happens only with the add-on, storing items and callback |
| Native.StartListening | native-modules/index.js:147-158 | without the add-on it is a no-op; with it, it succeeds iff accessibility and permission |
| Native.StopListening | native-modules/index.js:161-171 | stops only a listening native menu; otherwise nothing changes |
| Native.ShowContextMenu | native-modules/index.js:174-180 | a menu is shown only with the add-on |
| Native.CheckPermissions | native-modules/index.js:190-195 | trusted iff the add-on is loaded and reports permission |
| Native.RequestPermissions | native-modules/index.js:198-203 | fails without the add-on, otherwise returns the grant |
| Native.KeystrokeEscape | native-modules/index.js:314 | a text without `"` or line breaks is unchanged; the escape never shortens |
| Native.KeystrokeEscapeWithoutBackslash | native-modules/index.js:314-315 | for text without backslashes the AppleScript literal denotes the text |
| Native.AppleEscape | native-modules/index.js:314 | text without `"`, line breaks or backslashes is unchanged |
| Native.AppleEscapeRoundTrip | native-modules/index.js:314-315 | the AppleScript literal always denotes exactly the text |
| Native.QuoteInTextBreaksKeyboardWord | native-modules/index.js:314-316 | as written, any text with `'` does not reach `osascript` as the intended script |
| Native.QuoteSurvivesKeystrokeEscape | native-modules/index.js:314 | the keystroke escape keeps every `'` |
| Native.KeystrokeEscapeAddsNoQuote | native-modules/index.js:314 | the keystroke escape adds no `'` of its own |
| Native.KeyboardWordAsWrittenReads | native-modules/index.js:314-316 | for text without `'` the single-quoted word reads back as the keystroke script |
| Native.KeyboardWordDelivers | native-modules/index.js:314-316 | with shell quoting, `osascript` receives the keystroke script whose literal denotes the text |
| Native.SetTextViaKeyboard | native-modules/index.js:308-322 | as written: for text without `'` `osascript` receives the keystroke script, whose literal denotes the text when there is no backslash either; for text with `'` it receives something other than that script |
| Native.SetTextViaKeyboardQuoted | native-modules/index.js:308-322 | with the script shell-quoted and its literal fully escaped, `osascript` receives a keystroke script whose literal denotes the text, for every text |
| Native.PlaceText | native-modules/index.js:253-263 | without the add-on the keyboard path is used; with it the insert needs permission |
| Native.Initialize | native-modules/index.js:335-349 | a second call changes nothing; the first loads the add-ons and creates wrappers that agree with them |
| Native.InitializeIdempotent | native-modules/index.js:336 | initialising twice equals initialising once |
| Native.IsAvailable | native-modules/index.js:352-356 | available iff both wrappers have their add-on and accessibility is loaded |
| Native.AvailableIffAllLoaded | native-modules/index.js:335-356 | initialise reports exactly availability, which holds iff all three add-ons load |
| Native.GetStatus | native-modules/index.js:359-366 | each status flag reflects its add-on, permissions need accessibility and trust |
| Native.SetupForAssistant | native-modules/index.js:369-414 | the status query and the re-checks inside `startListening` and `startMonitoring` each have their own permission answer; setup rejects with the context-menu or the monitoring permission error exactly when a start it makes is refused, and otherwise answers the status taken first; the menu is registered (and listens when permitted) and selection monitored only where that add-on is present and permission was reported; untouched wrappers stay as they were |
| Native.MenuStep | native-modules/index.js:383-400 | when the status calls for the menu it is registered with the assistant items; a refused re-check rejects with the context-menu permission error and leaves the listening flag as it was, otherwise listening follows the add-on |
| Native.SelectionStep | native-modules/index.js:403-411 | when the status calls for monitoring, a refused re-check rejects with the monitoring permission error and changes nothing, otherwise the selector monitors with the setup listener |
| Native.SetupStartsCannotThrow | native-modules/index.js:369-411 | with a permission that stays as it was, neither start raises and setup answers the status of the initialised singleton |
| Native.RevokedPermissionRejectsSetup | native-modules/index.js:369-411 | a permission revoked after the status was taken rejects the setup whenever it sets anything up |
| Native.Cleanup | native-modules/index.js:417-427 | stops monitoring and listening of existing wrappers, nothing else |
| Native.CleanupQuiesces | native-modules/index.js:417-427 | after cleanup nothing monitors or listens |
| Catalog.Keys | src/main/modelManager.js:88 | the provider ids in insertion order |
| Catalog.Lookup | src/main/modelManager.js:112 | a provider is found iff its id is a key, and it is that key's entry |
| Catalog.Read | src/main/modelManager.js:182-198 | `providers[id]` finds an own entry first, else an inherited member exactly for the built-in member names, else nothing |
| Catalog.Upsert | src/main/modelManager.js:56-62 | the id now maps to the provider, other ids unchanged, a new id appended |
| Catalog.UpsertKeepsUnique | src/main/modelManager.js:53-65 | setting an entry keeps keys unique |
| Catalog.Override | src/main/modelManager.js:58 | a user field present replaces the default one |
| Catalog.MergeProvider | src/main/modelManager.js:56-59 | each provider field is the user's if present, the default's otherwise |
| Catalog.MergeProviderLaws | src/main/modelManager.js:56-59 | the shallow merge is idempotent, an empty override is neutral, and the merge equals the override iff the override sets every field the default sets |
| Catalog.MergeProvidersLookup | src/main/modelManager.js:53-65 | each provider of the merge is the user entry merged over the default, or whichever exists |
| Catalog.MergeProvidersKeepsOrder | src/main/modelManager.js:53-65 | default providers keep their order, user-only ones follow |
| Catalog.MergeConfigs | src/main/modelManager.js:49-76 | absent user sections leave defaults; user preferences override key by key |
| Catalog.MergeConfigsSpec | src/main/modelManager.js:49-76 | per provider id and per preference key, the merge is the user value over the default |
| Catalog.ParseModelId | src/main/modelManager.js:152-158 | provider part has no `:`; an id with `:` is provider + ":" + rest; without `:` the id is the provider and the model is empty |
| Catalog.ParseFullIdRoundTrip | src/main/modelManager.js:152-158 | parsing a full id built from a `:`-free provider gives back both parts |
| Catalog.Tag | src/main/modelManager.js:90-97 | each listed entry carries its model, provider id, provider name and full id |
| Catalog.EntryModels | src/main/modelManager.js:89-98 | a disabled provider lists nothing; an enabled one without models throws; otherwise its models tagged |
| Catalog.AvailableModels | src/main/modelManager.js:81-102 | every listed model comes from an enabled provider |
| Catalog.CollectAvailableModels | src/main/modelManager.js:86-101 | the forEach loop computes the listing |
| Catalog.ProviderModels | src/main/modelManager.js:107-123 | an unknown id lists nothing, a known one lists as in the full listing |
| Catalog.AvailableIsPerProvider | src/main/modelManager.js:86-123 | the full listing is the per-provider listings concatenated in key order |
| Catalog.FirstDefault | src/main/modelManager.js:140 | the first model marked default, or none is marked |
| Catalog.DefaultModel | src/main/modelManager.js:128-147 | the given or preferred provider's first default model, tagged; none when the provider is missing or disabled or no model is marked; an enabled provider without a model list throws |
| Catalog.TargetProvider | src/main/modelManager.js:129-133 | a given non-empty provider id is used; otherwise the configured default provider, or the key "undefined" when none is configured |
| Catalog.DefaultModelIsListed | src/main/modelManager.js:128-147 | the default model is one of its provider's models, with its full id |
| Catalog.DefaultModelOfPreferred | src/main/modelManager.js:128-147 | without a provider id, the default model is the one of the preferred provider, flagged default and among its models |
| Catalog.SetProviderEnabled | src/main/modelManager.js:163-172 | only the named provider's flag changes; unknown ids change nothing |
| Catalog.AddModel | src/main/modelManager.js:177-188 | an unknown provider fails with "not found"; a built-in member name or a provider without a list fails reading `models`; otherwise the model is appended and nothing else changes |
| Catalog.WithoutModel | src/main/modelManager.js:203 | keeps exactly the models with another id |
| Catalog.WithoutModelKeepsOrder | src/main/modelManager.js:203 | the filter distributes over concatenation, so order is kept |
| Catalog.RemoveModel | src/main/modelManager.js:193-205 | an unknown provider changes nothing; a built-in member name or a missing list throws; otherwise the id's models are removed |
| Catalog.AddThenRemove | src/main/modelManager.js:177-205 | after adding a model, removing its id succeeds and leaves that provider with no model of that id |
| Catalog.EnabledProviders | src/main/modelManager.js:250-262 | fails iff some enabled provider has no model list; otherwise exactly one summary (id, name, model count) per enabled provider, in key order |
| Catalog.EnabledEntries | src/main/modelManager.js:255-256 | the entries kept are exactly the enabled ones |
| Catalog.Summaries | src/main/modelManager.js:257-261 | one summary per entry with its id, name and model count |
| Catalog.EnabledProvidersCountListing | src/main/modelManager.js:81-102 | the summaries and the full listing fail together, and the model counts add up to the number of listed models |
| Catalog.DisabledProviderNotListed | src/main/modelManager.js:88-89 | no model of a disabled provider is listed |
| Catalog.FallbackDefaultModel | src/main/modelManager.js:225-245 | the fallback's default model is OpenAI's gpt-4o |
| Catalog.LoadConfigAsWritten | src/main/modelManager.js:19-44 | loads are stored and returned, except on failure, when only the fallback is returned |
| Catalog.ListModelsAsWritten | src/main/modelManager.js:81-88 | with nothing stored after a failed load, listing throws |
| Catalog.FallbackNeverReachesListing | src/main/modelManager.js:39-43 | a missing model file makes listing throw though the fallback lists fine |
| Catalog.LoadConfig | src/main/modelManager.js:19-44 | merge of both files, defaults alone without a user file, fallback when a file is unreadable |
| Catalog.CurrentConfig | src/main/modelManager.js:82-84 | the stored configuration, else a fresh load |
| Catalog.ListModels | src/main/modelManager.js:81-102 | listing fails only on a provider without a model list |
| Catalog.FallbackIsListed | src/main/modelManager.js:225-245 | a failed load lists exactly the fallback's gpt-4o entry |
| Panel.Or | src/renderer/js/assistant.js:499 | `a \|\| b` on strings |
| Panel.ShowError | src/renderer/js/assistant.js:548-555 | the result area reads "Error: " + message; nothing else changes |
| Panel.StartProcessing | src/renderer/js/assistant.js:514-525 | raises the busy flag and changes nothing else |
| Panel.StopProcessing | src/renderer/js/assistant.js:527-535 | lowers the busy flag and changes nothing else |
| Panel.ReplyEnabled | src/renderer/js/assistant.js:299-313 | the reply button is enabled iff the context is mailbox or viewer |
| Panel.HideMailContext | src/renderer/js/assistant.js:292-297 | the context is cleared |
| Panel.UpdateMailContext | src/renderer/js/assistant.js:260-290 | a missing or typeless context hides; otherwise it is stored and the reply button follows its kind |
| Panel.DecimalRoundTrip | src/renderer/js/assistant.js:386 | the message number printed reads back as the number |
| Panel.EmailBlocks | src/renderer/js/assistant.js:385-392 | one block per message, numbered from 1 |
| Panel.FormatEmailThread | src/renderer/js/assistant.js:382-393 | "" iff no messages; one message gives its block alone |
| Panel.ThreadGrowsByOneBlock | src/renderer/js/assistant.js:385-392 | one more message appends a line break and its block |
| Panel.MailText | src/renderer/js/assistant.js:464 | the content when non-empty, else the formatted thread |
| Panel.ReadSystemText | src/renderer/js/assistant.js:466-467 | selection first; the clipboard only when the selection is empty or missing |
| Panel.RequestText | src/renderer/js/assistant.js:457-468 | staged text first, then compose content, then viewer/mailbox text, then selection or clipboard |
| Panel.EffectivePrompt | src/renderer/js/assistant.js:482 | a non-empty custom prompt, else the trimmed input |
| Panel.ProcessWithText | src/renderer/js/assistant.js:479-512 | busy is a no-op; otherwise busy while running, errors without the API, blocks when the filter blocks, else the AI gets the safe text |
| Panel.ProcessRequest | src/renderer/js/assistant.js:445-477 | a blank prompt shows an error; otherwise text is acquired, processed and the staged text cleared |
| Panel.QuickPlan | src/renderer/js/assistant.js:339-361 | each action's prompt; reply in mailbox or viewer replaces the text with the mail text |
| Panel.QuickRead | src/renderer/js/assistant.js:325-334 | compose and viewer take the content; otherwise selection then clipboard |
| Panel.HandleQuickAction | src/renderer/js/assistant.js:315-380 | never calls the filter or the model; stages text and prompt, or shows an error for blank text or failed reads |
| Panel.UpdatePrivacyStatus | src/renderer/js/assistant.js:416-428 | safe shows the lock badge and no warning; otherwise the filtered badge with the count, 1 if zero |
| Panel.HandleInputChange | src/renderer/js/assistant.js:395-414 | blank input hides the warning; a filter failure keeps the view; otherwise the view follows the verdict |
| Panel.SingleFlight | src/renderer/js/assistant.js:479-484 | once the busy flag is up, a second request does nothing at all |
| Panel.BlockedTextNeverReachesModel | src/renderer/js/assistant.js:494-502 | the model is called iff at most 3 matches, and then with the redacted text |
| Panel.QuickActionThenProcess | src/renderer/js/assistant.js:369-476 | a staged quick action's text is what the next request filters, and the stage is cleared |
| Panel.QuickActionStages | src/renderer/js/assistant.js:369-374 | a non-blank quick-action text is staged with its prompt in the input |
| Panel.StagedRequest | src/renderer/js/assistant.js:457-476 | a request with staged text filters that text, sends the trimmed prompt, and clears the stage |
| Panel.AttemptCalls | src/renderer/js/assistant.js:491-502 | the filter is always called first, the model at most once after it |
| Panel.ReplyButtonMatchesReplyText | src/renderer/js/assistant.js:353-356 | where the reply button is enabled, reply uses the mail text |
| Panel.MailboxReplyNeedsSelection | src/renderer/js/assistant.js:330-333 | in a mailbox, a failed selection read makes reply show the quick-action error |
| Panel.FailedQuickActionKeepsStaged | src/renderer/js/assistant.js:363-379 | the staged text changes only when a quick action stages a non-blank text; every failure leaves it as it was |
| Panel.WarningCountsMatches | src/renderer/js/assistant.js:401-428 | the warning shows the number of filter matches |
| Wizard.AskApiKey | scripts/setup_wizard.js:40-56 | the first answer that is accepted, all earlier ones rejected; none when all are rejected |
| Wizard.AcceptedKeysStartWithPrefix | scripts/setup_wizard.js:49 | a key is accepted iff it begins with `sk-` |
| Wizard.AnswerIsLetter | scripts/setup_wizard.js:69 | a lower-cased answer equals a letter iff it is that letter in either case |
| Wizard.PrivacyEnabled | scripts/setup_wizard.js:69 | privacy is off iff the answer is `n` or `N`; empty keeps it on |
| Wizard.SkipTest | scripts/setup_wizard.js:104 | the test is skipped iff the answer is `n` or `N` |
| Wizard.RetryAfterFailure | scripts/setup_wizard.js:128-131 | a retry happens iff the answer is `y` or `Y` |
| Wizard.Choice | scripts/setup_wizard.js:87 | an empty answer counts as `1` |
| Wizard.OwnModel | scripts/setup_wizard.js:89-93 | the literal's own keys are exactly `1`, `2`, `3` |
| Wizard.ModelSettingAsWritten | scripts/setup_wizard.js:87-95 | own keys pick their model; inherited names pick the inherited member; anything else gpt-4 |
| Wizard.PrototypeAnswerSelectsNoModel | scripts/setup_wizard.js:95 | the answer `constructor` selects no model name |
| Wizard.ModelChoice | scripts/setup_wizard.js:87-95 | always one of the three models; 1/empty, 2 and 3 pick theirs, anything else gpt-4 |
| Wizard.ModelChoiceAgreesOffPrototype | scripts/setup_wizard.js:87-95 | off the inherited names, the corrected choice equals the code's |
| Wizard.SaveConfiguration | scripts/setup_wizard.js:146-154 | key and model saved as given; the three filter flags all equal the privacy answer; setup completed |
| Wizard.SavedFromAnswers | scripts/setup_wizard.js:146-154 | the record saved from the answers has an accepted key, all three filter flags off iff privacy was declined, and one of the three offered models |

## Left out

- File reads and writes, `electron-store`, the OpenAI client, Electron IPC, DOM updates, timers and logging are not modelled. Their results are inputs: `Option`/`UserFile` values, the `upstream` reply, the panel's `Env` oracles.
- The regular expressions are not modelled as an engine. `Matcher` gives each category's matches, and `pattern.test` is "at least one match". A global pattern's `lastIndex` is back at 0 between calls, because a failed test or `String.prototype.match` resets it.
- The bodies of the AppleScript programs (mail context, selection fallback, front-app query) run inside `osascript` and are opaque. Only their quoting and the handling of their outcome are modelled.
- Interleavings of concurrent asynchronous handlers are not modelled. Each operation runs to completion, and the busy flag is checked at entry.
- `Object.entries` puts integer-like keys first. Provider ids are taken in insertion order, which agrees for non-numeric ids.
- Configuration field values are taken to be strings and booleans as the files intend. A number or object where a string is expected is outside the model.
- Catalog.DefaultModel: a configuration without a `preferences` object is read as one with no preferences, so without a provider id the model looks up the key "undefined" where the code throws a TypeError reading `defaultProvider` of undefined.
- Catalog.ModelsUndefined: the error text leaves out the name of the member read (`forEach`, `map`, `find`, `push`, `filter`, `length`), which differs from one accessor to the next.
- Catalog.Lookup: finds own entries only. `DefaultModel`, `ProviderModels` and `SetProviderEnabled` read a built-in member name (such as `toString`) as missing; the code finds the inherited member, but as it has no truthy `enabled` the answers agree, except that `setProviderEnabled` then sets `enabled` on the shared built-in function, which the model does not represent.
- Catalog.MergeProviders: a user provider id `__proto__` replaces the providers object's prototype instead of adding an entry; the model adds an entry.
- Native.SetupForAssistant: the add-ons' own `startListening` and `startMonitoring` calls are taken to answer a boolean and never throw; the native code behind them is not part of this model.
- Strings are sequences of Unicode scalar values, while JavaScript strings are UTF-16 code units: lengths and `indexOf` positions differ for characters outside the Basic Multilingual Plane, and lone surrogates cannot be represented.
- The wizard writes its record to `config/config.json` next to the scripts, while the application reads its settings (the filter toggles, the API key) from `electron-store`'s own file; nothing in the code carries one into the other, so the saved record is modelled on its own.
- Text.ToUpperAscii: ASCII case mapping only, which is all the category keys and the wizard's `n`/`y` comparisons need.
- The panel assumes the prompt input element exists. The branch where `userInput` is missing is not modelled.
- The earlier definition of `handleQuickAction` in the same class is overridden by the later one, so only the later one is modelled.
- The reply extraction `choices[0].message.content` is part of the `upstream` result.
- The preload bridge, the window and tray management in `main.js`, the build and permission scripts, and the wizard's readline prompting loop are not modelled.

## Findings

| source | as written | input that shows it | evidently intended | confidence | as-written member | corrected member |
|---|---|---|---|---|---|---|
| native-modules/index.js:314-316 | the keystroke script is pasted between single quotes on the shell line without escaping its own `'` | the text `it's` | shell-quote the script as `executeAppleScript` does | high, not executed | Native.SetTextViaKeyboard | Native.SetTextViaKeyboardQuoted |
| native-modules/index.js:314 | only `"` and line breaks are escaped, so a backslash in the text starts an AppleScript escape | the two characters `\n` | escape backslashes first, so the literal denotes the text | high, not executed | Native.BackslashIsReinterpreted | Native.AppleEscapeRoundTrip |
| src/main/modelManager.js:39-43 | a failed load returns the fallback without storing it, so accessors read `providers` of null and throw | a missing models file | the fallback configuration serves the accessors | high, not executed | Catalog.FallbackNeverReachesListing | Catalog.FallbackIsListed |
| scripts/setup_wizard.js:95 | `models[choice]` on an object literal finds inherited members, which are truthy, so `\|\| 'gpt-4'` does not apply | the answer `constructor` | any answer other than 1-3 selects gpt-4 | medium, not executed | Wizard.PrototypeAnswerSelectsNoModel | Wizard.ModelChoice |
