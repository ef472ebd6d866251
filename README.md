# Ollama selection translator: a Dafny model

The extension translates the text a user selects on a web page with a
language model served by a local Ollama instance. It then offers a chat
panel for discussing the translation. It has three scripts:

- **background.js** is the service worker.
  - On install or update it writes default settings into
    `chrome.storage.local` and injects the content script into open web pages.
  - It answers `translate` and `chat` runtime messages. Before every
    translation it checks the service: first `GET /api/tags`, then the
    stored `modelInitialized` flag. Only then does it call `POST /api/generate`.
- **content.js** runs in every page.
  - It sends the selection as a `translate` message. The sending is a loop
    of at most three iterations.
  - It places the result next to the selection.
  - It keeps the chat panel: a history of records, the translation being
    discussed (the "context"), a minimised flag and the input controls.
  - It exports the history as text.
- **popup.js** is the settings page.
  - It lists the installed models in a select and restores the stored
    settings into the form.
  - It saves the form, which also sets `modelInitialized` to `true`, and
    tells web pages about a colour change.
  - It toggles the history panel and relabels the `Ctrl` shortcut key on a Mac.

The model is split into six Dafny modules:

| module | file | contents |
|---|---|---|
| `Js` | `js.dfy` | The JavaScript values the scripts test: truthiness, `=== true`, `a \|\| b` on a setting that may be missing, default parameters, and normal versus throwing completion. |
| `Text` | `text.dfy` | The built-ins used on strings: `trim` (with the ECMAScript white-space set), ASCII `toUpperCase`, `indexOf(...) >= 0`, and the decimal rendering of a status code. |
| `Browser` | `browser.dfy` | Tabs, the storage keys, and the `tabs.forEach(if eligible ...)` loop that both the installer and the popup run. |
| `Background` | `background.dfy` | The service worker as pure functions. Each call's inputs are parameters: the storage snapshot, the tags reply and the generate reply. |
| `Content` | `content.dfy` | The retry loop as a method, proved against a recursive specification. The selection walk is a method. The chat panel is a class whose fields its handlers update in place. |
| `Popup` | `popup.dfy` | The settings form as a class whose fields are its controls, together with the pure rules for restoring and saving settings. |

Three things in the code are easy to misread:

- A translation makes two HTTP requests: the tags request of the service check, then the generate request.
- The three-iteration retry wraps the runtime message in the content script, not an HTTP request.
- Chat messages are not retried.

## Model

| member | source | states |
|---|---|---|
| Js.StrictlyTrueIsStrongerThanTruthy | background.js:193-196 | `=== true` is stricter than truthiness: the number 1 is truthy and is not `true`. |
| Js.OrElseDiffersFromArgOrOnlyOnEmpty | background.js:88-92 | A default parameter (`sourceLang = 'auto'`) and `x \|\| 'auto'` give the same value except on the empty string, which only `\|\|` replaces. |
| Text.Trim | popup.js:46 | `trim` returns the infix of the input that starts after the leading white space. Everything around it is white space, its ends are not, and it is empty exactly when the input is all white space. |
| Text.TrimIdempotent | content.js:126 | Trimming a trimmed string changes nothing. |
| Text.Decimal | background.js:126 | The status in `HTTP error! status: ...` is a non-empty string of digits without a leading zero. |
| Text.DecimalRoundTrip | background.js:126 | Reading that numeral back gives the status. |
| Browser.EligibleIds | background.js:27-32 | At most one id per tab is selected. |
| Browser.EligibleIdsMembership | popup.js:72-74 | An id is selected exactly when some tab with that id passes the url test. |
| Browser.SelectTabs | background.js:26-57 | The `forEach` loop selects exactly `EligibleIds` of the tabs, in tab order. |
| Background.ShouldInject | background.js:29-32 | Only a url that starts with `http` is injected, and never one on `https://chrome.google.com/`. |
| Background.InstallDefaults | background.js:5-17 | Installing writes `qwen:7b`, `http://localhost:11434`, the parameters 0.7/0.7/4000, `auto` and `zh`. It leaves the colour and the initialisation flag as they were. |
| Background.ChromeSchemeTestIsRedundant | background.js:29-32 | A tab is injected exactly when its url is present, starts with `http` and is not on `https://chrome.google.com/`. The `chrome://` test never decides anything. |
| Background.OnInstalled | background.js:2-58 | On `install` or `update` the storage becomes `InstallDefaults` of it and exactly the eligible tabs are injected. Any other reason changes nothing. Every injected id belongs to an eligible tab. |
| Background.LanguageName | background.js:247-256 | The five codes get their table names. The result equals the code exactly when the code is not in the table. This is the intended reading; see Findings. |
| Background.LanguageNameAsWritten | background.js:255 | As written, `languages[code] \|\| code` returns the template-string text of an inherited `Object.prototype` member for such a name, and agrees with `LanguageName` otherwise. |
| Background.InheritedMemberCounterexample | background.js:255 | For `toString`, the written code puts `function toString() { [native code] }` into the prompt instead of `toString`. |
| Background.AsWrittenDiffersExactlyOnInheritedMembers | background.js:255 | The written code and the intended one differ exactly on the inherited member names. |
| Background.CheckService | background.js:142-196 | The five outcomes, each with its exact condition. Ready iff the model is listed and the flag is exactly `true`. Not running iff the tags response is not OK. Connection error iff the fetch or its JSON fails. Model not found iff the list was read and lacks the model. Needs initialisation iff the model is listed and the flag is not `true`. |
| Background.MissingModelsIsEmptyList | background.js:162 | A body without `models` is treated like an empty list: the model is not found. |
| Background.FlagReadOnlyForListedModel | background.js:165-180 | The initialisation flag changes the outcome only once the model is listed. |
| Background.TruthyFlagIsNotEnough | background.js:193-196 | A stored `"true"` or `1` still yields `need_initialization`. |
| Background.FreshInstallNeedsInitialization | background.js:5-17 | After a first install, which never writes the flag, no translation can run: the check is never ready. |
| Background.Resolve | background.js:90-97 | Model and host fall back to their defaults exactly when they are missing or empty. Parameters fall back exactly when missing. Model and host are never empty. |
| Background.ResolveIsIdempotent | background.js:91-97 | Storing the resolved settings and resolving again changes nothing. |
| Background.Generate | background.js:109-130 | The generated text is returned exactly for an OK reply with a readable body. A non-OK reply raises `HTTP error! status: <status>`. A rejected fetch raises its own error, and so does an unreadable body. |
| Background.PromptWith | background.js:117 | Whatever the language names, the prompt opens with `请将以下` followed by the source name, and ends with the text followed by the fixed closing instruction. |
| Background.TranslationPrompt | background.js:117 | The prompt with the corrected language names opens with `请将以下` and ends with the fixed closing instruction, after the text. |
| Background.TranslationPromptAsWritten | background.js:117 | The prompt the code builds, with the lookup as written. It equals `TranslationPrompt` whenever neither language code is an inherited member name. |
| Background.PromptDiffersForInheritedSource | background.js:117 | With source language `toString`, the code's prompt differs from the corrected one. |
| Background.TranslationPromptShape | background.js:117 | The prompt opens with the fixed introduction and the source language name. It ends with the selected text followed by the fixed closing instruction. |
| Background.ChatPrompt | background.js:211-213 | The chat prompt always ends with `用户：<text>` and the fixed instruction, and without a non-empty context it is exactly that. |
| Background.ChatPromptShape | background.js:211-213 | Both chat prompts end with `用户：<text>` and the same instruction. The `上下文：` prefix is present exactly when the context is non-empty, and then carries the context. |
| Background.HandleTranslation | background.js:88-139 | A generate request is sent iff the check is ready. It carries the resolved host, model and parameters and the prompt with defaulted languages, named by the corrected lookup (see Left out). A failed check is returned with its code and message. The translation is returned iff generation succeeds. A generation error is returned with the fixed apology. |
| Background.HandleChat | background.js:199-244 | The request always goes out with the resolved settings and the chat prompt. A reply is returned iff generation succeeds. Otherwise the error comes back with the fixed chat apology. |
| Background.HandlersShareSettings | background.js:200-208 | When both handlers send a request, they address the same host and model with the same parameters. |
| Background.GenerateFailureIsAnswered | background.js:230-242 | The chat handler answers a non-OK generate reply, and does not throw, with `HTTP error! status: ...` and the fixed message. |
| Background.Answer | background.js:62-85 | Exactly `translate` and `chat` messages get a response, computed by the corresponding handler from the message fields. |
| Background.KeepsChannelOpen | background.js:62-85 | The listener returns `true` exactly for `translate` and `chat`, and never `false`. |
| Background.HistoryMessagesAreUnanswered | background.js:62-85 | The `getHistory` and `clearHistory` messages that popup.js sends get no response. |
| Background.OpenChannelIsAnswered | background.js:62-85 | The channel is kept open exactly for the messages that are answered. |
| Content.TranslateMessage | content.js:101-110 | The message sent is a `translate` of the text. Missing or empty stored languages become `auto` and `zh`. |
| Content.RetryFrom | content.js:89-121 | From iteration `k`, at most `3 - k` iterations run, at least one if any is left, and at most one message is sent per iteration. Every message sent is a well-formed `translate` message of the text. |
| Content.SendTranslationRequest | content.js:89-121 | The loop ends as `RetryFrom` from iteration 0, with the same completion, messages and iteration count. It runs between one and three iterations. |
| Content.ResumesAfter | content.js:93-119 | An iteration that goes on to the next keeps "messages sent so far plus the rest of the run is the whole run". |
| Content.RetryContinues | content.js:113-118 | An iteration without a runtime id, or one that throws before the last, continues with the next iteration after its own message, if any. |
| Content.ResumesEnd | content.js:105-116 | An iteration that returns or throws ends the whole call with its outcome. |
| Content.RetryRaisesOnlyOnThirdIteration | content.js:113-116 | The call throws iff neither of the first two iterations got a response and the third threw. The thrown error is the third iteration's. |
| Content.RetryReturnsFirstResponse | content.js:105-112 | The call returns the response of the first iteration that got one, after `k + 1` iterations. |
| Content.RuntimeNeverAvailable | content.js:95-99 | Without a runtime id on all three iterations, nothing is sent and the call resolves to `undefined` after three iterations. |
| Content.InsideTranslation | content.js:131-140 | The walk up from the selection stops exactly when the chain holds an element with the `inline-translation` class. |
| Content.Presentation | content.js:149-198 | Every request that went out leaves something on the page. An inserted translation keeps the selected text as its original. Popup text is never empty. |
| Content.PresentationCases | content.js:149-191 | The translation is inserted exactly when the background answered with one. A failure reply with a message shows that message. |
| Content.PerformTranslation | content.js:124-201 | A blank selection, or one inside an earlier translation, sends nothing and changes nothing. Otherwise the trimmed text goes through the retry loop and the page shows the matching presentation. |
| Content.MissingRuntimeEndsInCatch | content.js:149-198 | Without a runtime id, the `undefined` response makes `response.success` throw, and the page shows the reload message. |
| Content.PanelContextReachesPrompt | content.js:811-817 | The panel's context reaches the chat prompt, whose context prefix is present exactly when the context is non-empty. |
| Content.ReplyText | content.js:819-826 | A thrown send shows the send failure. A missing or failed reply shows the apology. A successful reply shows its text. |
| Content.BlocksAppend | content.js:788-792 | The export of two histories in sequence is the export of the first followed by that of the second. |
| Content.ExportKeepsHistoryOrder | content.js:787-792 | Record `i` is exported after the records before it and before those after it. Its speaker is `用户` exactly for user records. |
| Content.ChatPanel.constructor | content.js:26-28 | The panel starts with an empty history and context, not minimised and not shown. |
| Content.ChatPanel.LoadHistory | content.js:703-707 | A stored history replaces the current one. Nothing else changes. |
| Content.ChatPanel.AddMessage | content.js:31-49 | Exactly one record, with the speaker kind and the timestamp, is appended. Nothing else changes. |
| Content.ChatPanel.DiscussClick | content.js:683-692 | The panel is shown and the translation becomes the context. The original, the translation and the greeting are appended, in that order. |
| Content.ChatPanel.SendToAI | content.js:811-828 | The message goes out with the current context. Exactly one record follows: the reply, the apology when the reply is missing or failed, or the send failure when sending threw. |
| Content.ChatPanel.SendClick | content.js:710-725 | Blank input changes nothing. Otherwise the trimmed message and then the answer are appended, the input is cleared, and the controls end up enabled. |
| Content.ChatPanel.MinimizeClick | content.js:755-776 | The minimised state toggles. Nothing else changes. |
| Content.ChatPanel.HeaderClick | content.js:736-752 | A click outside the controls restores a minimised panel. A header click never minimises. |
| Content.ChatPanel.CloseClick | content.js:779-782 | The panel is hidden and the context forgotten. The history stays. |
| Content.ChatPanel.ExportText | content.js:785-792 | The loop produces the header followed by one block per record, in history order. |
| Popup.FetchLocalModels | popup.js:2-17 | The names in `models`, or an empty list when the request or JSON fails or `models` is missing. The response status is ignored. |
| Popup.PopupIgnoresResponseStatus | popup.js:6-10 | A non-OK reply that lists models fills the popup's list, while the background check reports `service_not_running` for the same reply. |
| Popup.ModelOptions | popup.js:24-41 | No models give one placeholder option with an empty value. Otherwise there is one option per model, in order. |
| Popup.ListedModelIsOffered | popup.js:35-40 | A model that the background check finds listed is an option in the popup built from the same reply. |
| Popup.RestoreText | popup.js:102-120 | A truthy stored value replaces the field. Otherwise the field keeps its value, so a non-empty field never becomes empty. |
| Popup.RestoreNumber | popup.js:123-139 | A slider takes the stored value exactly when that value is truthy, and otherwise keeps its own. |
| Popup.FalsyNumbersAreIgnored | popup.js:125-135 | A stored 0, NaN or null leaves the slider unchanged. |
| Popup.RestoreModel | popup.js:105-111 | The stored model is selected only if an option carries it, and then always. |
| Popup.RestoreModelKeepsSelectionOffered | popup.js:105-111 | Restoring never selects a value that has no option. |
| Popup.Restored | popup.js:103-139 | Restoring leaves the options, the disabled state and the history panel alone, keeps the selection offered, and keeps the sliders when no parameters are stored. |
| Popup.SavedHost | popup.js:46 | The saved host is never empty. |
| Popup.SavedHostIsTrimmed | popup.js:46 | The saved host is the trimmed input, or the default host when that is empty. Either way trimming it again changes nothing. |
| Popup.SavedStorage | popup.js:59-67 | Saving writes every form value, the trimmed host, and `modelInitialized: true`. |
| Popup.SavingPassesInitialization | popup.js:59-67 | After a save, the background check is ready exactly when the service lists the resolved model. It addresses the saved host, and an empty selection resolves to the default model. |
| Popup.ReceivesColor | popup.js:74 | Only http and https pages are told the colour. Those urls start with `http`, and a `chrome://` page never is. |
| Popup.SavedSettingsAreRestored | popup.js:45-139 | Reopening the popup over the same model list restores every saved setting, with the host trimmed, when the settings are non-empty and the parameters truthy. |
| Popup.ShortcutLabelChanges | popup.js:235-241 | Only a `Ctrl` label changes, and only when the platform contains `MAC` in any case. |
| Popup.ShortcutLabel | popup.js:235-241 | A key label stays as it is or becomes `Command`. On a Mac no label reads `Ctrl`, and elsewhere no label changes. |
| Popup.RelabelShortcuts | popup.js:237-241 | Every key label becomes its shortcut label. |
| Popup.SettingsForm.constructor | popup.js:194-196 | The form starts as the page loads it, with an empty select. |
| Popup.SettingsForm.UpdateModelSelect | popup.js:20-42 | The options are rebuilt from the models. The select is disabled iff there are none. The first option is selected and offered. Nothing else changes. |
| Popup.SettingsForm.LoadSettings | popup.js:89-144 | The form becomes `Restored` of the rebuilt select and the stored settings. The selection stays an offered option. |
| Popup.SettingsForm.SaveSettings | popup.js:45-86 | The storage written is `SavedStorage` of the form. Exactly the http and https tabs are told the colour. |
| Popup.SettingsForm.ResetColor | popup.js:211-215 | The colour becomes `#1a73e8` and is saved with the rest of the form. Nothing else changes. |
| Popup.SettingsForm.ToggleHistory | popup.js:178-185 | A panel with any display other than `none` is hidden. A hidden one is shown and asks for a refresh. Nothing else changes. |

## Left out

- The network, `chrome.storage`, `chrome.runtime.sendMessage`, `chrome.tabs` and `chrome.scripting` are not called. What they return is a parameter of each operation: a tags reply, a generate reply, a storage snapshot, a list of tabs, or a per-iteration probe for the retry loop.
- The timers are not modelled: the 500 ms retry waits, the 3 s popup hide, the 300 ms panel hide and the debounce. The model keeps the order of steps, not their timing.
- Asynchronous interleaving is not modelled. Each handler runs to completion before the next event.
- DOM layout and styles are not modelled: positions, heights, button glyphs and `scrollTop`. The chat panel keeps only what its handlers decide: shown, minimised, context, input value and disabled state.
- `translateFullPage`, the full-page button, the mouseup and keyboard-shortcut listeners, and `chrome.commands` are outside this model. So are the Enter key handler, which only clicks the send button, and the restore button of an inserted translation.
- `updateHistory` and `clearHistory` in popup.js are not modelled. They send `getHistory` and `clearHistory`, which background.js does not answer (`Background.HistoryMessagesAreUnanswered`).
- Mirroring `chatHistory` into storage after each message is not modelled. Neither is the Blob download with its file name.
- Background.HandleTranslation: the prompt names the languages with the corrected `LanguageName`. The code's prompt is `TranslationPromptAsWritten`, which differs only when a language code is an inherited `Object.prototype` member name (see Findings).
- Background.Answer: the router's `.catch` branches are left out. Both handlers catch every error themselves, so their promises never reject.
- Background.HandleTranslation, Background.HandleChat: a failing `chrome.storage.local.get` inside the handlers is not modelled.
- Content.ChatPanel.LoadHistory: a failed storage read at panel start-up is not modelled.
- Model parameters are mathematical reals, or NaN, or another JavaScript value. `parseFloat`/`parseInt` rounding and floating-point arithmetic are not modelled.
- Timestamps are opaque strings. `toLocaleString` is a `render` parameter of the export.
- Text.AsciiUpper: `toUpperCase` is modelled for ASCII letters only. This is enough for the `MAC` test.
- Stored string settings are assumed to be strings or missing. A non-string `response` field in the generate body is treated as unreadable.
- Popup.FetchLocalModels: the popup always queries `http://localhost:11434`, whatever host is stored. The model takes the reply as given, so it does not capture that the popup and the background may talk to different hosts.
- The status check that `onInstalled` runs only logs a warning, so it is left out of `Background.OnInstalled`.

## Findings

| source | as written | input that shows it | evidently intended | confidence | as-written member | corrected member |
|---|---|---|---|---|---|---|
| background.js:255 | `languages[code] \|\| code` looks the code up through the object literal's prototype chain | stored `sourceLang` `toString` (or `constructor`, `valueOf`, ...): the prompt names the language `function toString() { [native code] }` | return any code that is not one of the five table keys unchanged | not executed; follows from JavaScript property lookup on an object literal | Background.LanguageNameAsWritten, Background.InheritedMemberCounterexample, Background.TranslationPromptAsWritten, Background.PromptDiffersForInheritedSource | Background.LanguageName, Background.AsWrittenDiffersExactlyOnInheritedMembers |
