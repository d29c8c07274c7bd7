# AI Translation App: a verified model of its coordination logic

The AI Translation App detects the language of typed text, translates it into
a chosen target language and reads either text aloud. The detection,
translation and speech engines are third-party libraries. Around them the
repository writes its own logic, and this project models that logic in Dafny
and proves properties about it:

- **Detection post-processing** (`utils/language_detector.py`, module
  `LanguageDetector`). Short input is refused. Chinese variants are folded onto
  `zh-cn`/`zh-tw`. A display name is looked up, with `English` as the fallback.
  The library's verdict (a code, or the exception it raised) is a parameter.
- **Translation result building** (`utils/translator.py`, module `Translator`).
  This covers the fixed catalogue of 104 languages, the blank-input guard, the
  `'auto'` source sentinel, the `Unknown` display-name fallback, and the result
  record in its success, failure and blank-input forms. What the library
  does (a translation or an exception) is a parameter.
- **Three coordinators**, each a class whose methods are the event handlers:
  - `DesktopApp.TranslatorApp`, the Tk window of `desktop/app.py`;
  - `WebClient.TranslatorPage`, the browser page of `web/static/js/main.js`;
  - `Prototype.AITranslatorApp`, the stubbed window of `test.py`.

  Worker threads, `root.after` callbacks, `setTimeout` and `await`ed `fetch`
  replies become events that the caller delivers as method calls. The
  debounce timer is a single slot holding the id of the pending timer, and
  a timer whose id is no longer in the slot does nothing when it fires.
  Every request a coordinator hands to a collaborator (detect, translate,
  speak, stop audio) is appended to a ghost log. The prototype logs the
  simulated jobs it starts instead. The contracts can therefore say exactly
  which calls a handler makes, including "no call at all".
- **Text trimming** (module `Text`). Python's `str.strip()` and JavaScript's
  `String.prototype.trim()` disagree on what counts as whitespace, so each
  has its own character set. Python treats U+001C–U+001F and U+0085 as
  whitespace and JavaScript does not. JavaScript treats U+FEFF as whitespace
  and Python does not.
- **Scenarios** (module `Scenarios`). Whole sessions are run through the
  coordinators with fixed collaborator answers. They show, among other
  things, how the versions differ: the error prefixes, trimmed versus
  untrimmed emptiness, and speech without a known language.

Files:

- `common.dfy`: Option, the request log entries, `list.index` and `dict.get`
  on ordered lists.
- `text.dfy`: trimming.
- `language_detector.dfy`: detection post-processing.
- `translator.dfy`: translation result building.
- `desktop_app.dfy`, `web_client.dfy`, `prototype_app.dfy`: the three
  coordinators.
- `scenarios.dfy`: whole sessions.

Where the source and its design description disagree, the model follows the
source:

- The web page schedules detection for any non-empty value, including
  spaces only (`main.js:35`). The check is not on trimmed text.
- The web page speaks when no language is known, in English (`main.js:155`).
  The desktop window does nothing in that case.
- The web page sends the untrimmed text to the services.
- When the desktop source text becomes blank, the label is reset and the
  translation cleared. The last detected code is kept.
- Neither the desktop window nor the web page keeps the last detected code
  among the catalogue's codes. Any code the detector reports is stored
  (`desktop/app.py:249`, `main.js:69`), and the swap handles a code that is not
  listed by leaving the selection alone (`desktop/app.py:317-319`,
  `main.js:126-131`). The model's invariants therefore do not include it.
- The translator's automatic-source sentinel is `'auto'`.
- A failed detection shows "Unknown" on the desktop. On the web page, a
  failed detect request shows "Error detecting" and keeps the last code.

## Model

| member | source | states |
|---|---|---|
| `Common.IndexOf` | desktop/app.py:315 | `list.index`: None exactly when the element is absent; otherwise a position holding it with no earlier occurrence |
| `Common.LookupFindsFirst` | utils/translator.py:77 | `dict.get` on the ordered catalogue returns the default for an absent key, otherwise the entry of the key's position |
| `Text.StripIsTrimmedSlice` | utils/language_detector.py:57 | `strip()` returns the slice between a whitespace-only prefix and a whitespace-only suffix, and the slice neither starts nor ends with whitespace |
| `Text.StripBlankIffAllWhitespace` | utils/translator.py:57 | `not text.strip()` holds exactly when every character is whitespace |
| `Text.StripAppendWhitespace` | desktop/app.py:220 | a whitespace character appended at the end (Tk's final newline) is invisible after `strip()` |
| `Text.StripIdempotent` | desktop/app.py:228 | stripping already stripped text changes nothing |
| `Text.StripKeepsTrimmed` | utils/language_detector.py:57 | non-empty text with non-whitespace ends is its own stripped form |
| `Text.BlanknessDiffers` | web/static/js/main.js:49 | Python and JavaScript disagree on blankness: U+001C is blank only to Python, U+FEFF only to JavaScript |
| `LanguageDetector.NormaliseCode` | utils/language_detector.py:65-66 | a code not starting with `zh` is unchanged; `zh-tw` stays, any other `zh*` becomes `zh-cn`, and the result has a table name other than `English` |
| `LanguageDetector.NameOf` | utils/language_detector.py:69 | the table's name for a known code, `English` for any other |
| `LanguageDetector.DetectLanguage` | utils/language_detector.py:57-77 | None exactly when the stripped text is shorter than 3 or the library raised; otherwise the normalised code with its name |
| `LanguageDetector.ShortTextIgnoresVerdict` | utils/language_detector.py:57-58 | for short text the result is None whatever the library would say, so the library is not consulted |
| `LanguageDetector.ChineseResultsAreNamed` | utils/language_detector.py:15-40 | every Chinese result carries `zh-cn` or `zh-tw`, named from the table and never by the `English` fallback |
| `Translator.GetLanguages` | utils/translator.py:11-43 | the fixed catalogue: 104 entries from `af` to `zu`, English at position 21 and nowhere earlier |
| `Translator.EnglishInCatalogue` | utils/translator.py:17 | the first occurrence of `en` in the catalogue's codes is at position 21 |
| `Translator.NameOf` | utils/translator.py:77 | the catalogue's name for a listed code, `Unknown` for any other |
| `Translator.SourceArgument` | utils/translator.py:71 | a None or empty source becomes `'auto'`, any other is passed unchanged, and the argument is never empty |
| `Translator.LibraryCallFor` | utils/translator.py:57-72 | no library call for blank text; otherwise exactly `translate(text, dest=target, src=SourceArgument(source))` |
| `Translator.TranslateText` | utils/translator.py:45-93 | the original text is echoed in every branch; when `LibraryCallFor` makes no call (blank text) the result is the `Empty text` failure; success exactly when the text is not blank and the library translated, with its text, its source code, both names, the target and no error; a library exception gives its message with an empty translation |
| `Translator.BlankTextIgnoresOutcome` | utils/translator.py:57-64 | for blank text the result does not depend on the library, which is not called, and is a failure |
| `DesktopApp.TkGet` | desktop/app.py:303-304 | reading a Tk text widget adds a final newline, which stripping removes again |
| `DesktopApp.ReadStripped` | desktop/app.py:228 | a handler's reading of a widget is the stripped content |
| `DesktopApp.DefaultTargetIndex` | desktop/app.py:176-182 | the first position of `en` when listed, else 0 |
| `DesktopApp.DefaultTargetIsEnglish` | desktop/app.py:181-182 | with the service's catalogue the target list starts on position 21, which is `en` |
| `DesktopApp.DetectRequestPassesDetectorStrip` | utils/language_detector.py:57 | the stripped text of a desktop detect request is unchanged by the detector's own `strip()`, so the detector's length guard decides on the same text |
| `DesktopApp.TranslatorApp.constructor` | desktop/app.py:79-85 | the initial window: empty buffers, "Detecting language..." label, "Ready" status, no code, no timer, no request, target on English when listed |
| `DesktopApp.TranslatorApp.OnSourceTextChange` | desktop/app.py:213-224 | the pending timer is cancelled; non-blank text gets exactly one fresh timer; blank text resets the label and clears the translation; no request either way |
| `DesktopApp.TranslatorApp.OnTimerFired` | desktop/app.py:221 | a cancelled timer does nothing; the pending one runs detection once and empties the slot |
| `DesktopApp.TranslatorApp.DetectLanguage` | desktop/app.py:226-243 | blank source resets the label and requests nothing; otherwise exactly one detect request for the stripped text |
| `DesktopApp.TranslatorApp.UpdateDetectedLanguage` | desktop/app.py:245-257 | a result sets the label and code and triggers exactly one translate request with that code as source; no result gives "Unknown", no code and "Could not detect language" |
| `DesktopApp.TranslatorApp.HandleTranslation` | desktop/app.py:259-284 | blank source clears the translation with no request; otherwise one request for the stripped text, the selected target code and the last detected code |
| `DesktopApp.TranslatorApp.UpdateTranslation` | desktop/app.py:286-295 | success shows the translation; failure shows `Error: ` and the message (`None` when there is none); no request |
| `DesktopApp.TranslatorApp.SelectTargetLanguage` | desktop/app.py:183 | choosing a target moves the selection and translates the source into it |
| `DesktopApp.TranslatorApp.SwapIndex` | desktop/app.py:313-319 | the target position after a swap: the first position of the detected code when listed, else unchanged |
| `DesktopApp.TranslatorApp.ExchangeBuffers` | desktop/app.py:302-319 | the buffers are exchanged, each with Tk's final newline, so their stripped contents are exchanged exactly; the target moves to the detected code when listed |
| `DesktopApp.TranslatorApp.HandleSwapLanguages` | desktop/app.py:297-322 | without a detected code nothing changes; otherwise the exchange, then detection of the new source (one detect request unless it is blank) |
| `DesktopApp.TranslatorApp.HandleSpeakText` | desktop/app.py:324-351 | blank text or no language: nothing changes and nothing is requested; otherwise "Playing audio..." and one speak request for the stripped text |
| `DesktopApp.TranslatorApp.ListenSource` | desktop/app.py:121-122 | speaks the source in the last detected language, or does nothing without one |
| `DesktopApp.TranslatorApp.ListenTarget` | desktop/app.py:186-188 | speaks the translation in the selected target language |
| `DesktopApp.TranslatorApp.SpeakFinished` | desktop/app.py:333-349 | the worker's report sets "Audio playing..." or "Audio playback failed" and nothing else |
| `WebClient.TranslationDisplay` | web/static/js/main.js:103-113 | the translation on success; `Translation error: ` and the message, or `Unknown error`, on failure; `Translation service error` when the request threw |
| `WebClient.FindOption` | web/static/js/main.js:126-131 | the loop with `break` finds the first option whose value is the code, or none |
| `WebClient.TranslatorPage.TargetValue` | web/static/js/main.js:98 | the selected option's value |
| `WebClient.TranslatorPage.constructor` | web/static/js/main.js:17-29 | empty boxes, "Detecting language..." label, no code, no timer, no request |
| `WebClient.TranslatorPage.OnSourceInput` | web/static/js/main.js:32-45 | the timer is always cleared; any non-empty value, even spaces only, schedules one detection; the empty value clears the translation and resets the label |
| `WebClient.TranslatorPage.OnTimerFired` | web/static/js/main.js:37-39 | a cleared timer does nothing; the pending one runs detection |
| `WebClient.TranslatorPage.DetectLanguage` | web/static/js/main.js:48-63 | blank text only resets the label; otherwise one detect request for the untrimmed text |
| `WebClient.TranslatorPage.DetectReplied` | web/static/js/main.js:65-80 | a reply with a language sets the label and code and translates; any other reply gives "Unknown" and no code; an exception gives "Error detecting" and keeps the code |
| `WebClient.TranslatorPage.HandleTranslation` | web/static/js/main.js:84-101 | blank text clears the translation with no request; otherwise one request for the untrimmed text, the selected value and the last code |
| `WebClient.TranslatorPage.TranslateReplied` | web/static/js/main.js:103-113 | only the translation box changes, to the reply's display text |
| `WebClient.TranslatorPage.SelectTargetLanguage` | web/static/js/main.js:25 | the `change` listener translates into the chosen option |
| `WebClient.TranslatorPage.HandleSwapLanguages` | web/static/js/main.js:117-135 | without a code nothing changes; otherwise the values are exchanged exactly, the first matching option is selected (else the selection stays) and the new source is detected |
| `WebClient.TranslatorPage.HandleSpeakText` | web/static/js/main.js:138-157 | blank text requests nothing; otherwise a stop request first, then (unless it threw) a speak request for the text in the given language or `en`; the page does not change |
| `WebClient.TranslatorPage.ListenSource` | web/static/js/main.js:27 | speaks the source in the last detected language or `en` |
| `WebClient.TranslatorPage.ListenTarget` | web/static/js/main.js:28 | speaks the translation in the selected value or `en` |
| `Prototype.PlaceholderTranslation` | test.py:154 | the simulated translation is bracketed and quotes the text at a fixed offset |
| `Prototype.AITranslatorApp.constructor` | test.py:20-31 | source Auto-detect, target English, empty texts, "Ready", no job |
| `Prototype.AITranslatorApp.OnSourceTextChange` | test.py:87-92 | detection starts only when the stripped text is longer than 5 |
| `Prototype.AITranslatorApp.DetectLanguage` | test.py:94-107 | "Detecting language..." and one detection job |
| `Prototype.AITranslatorApp.DetectionFinished` | test.py:99-105 | a started detection job finishing makes the source English, and the label follows, whatever was typed |
| `Prototype.AITranslatorApp.OnTargetLanguageChange` | test.py:109-113 | the target becomes the choice; translation runs only for non-blank source |
| `Prototype.AITranslatorApp.SwapLanguages` | test.py:115-139 | refused while the source is Auto-detect; otherwise the languages are exchanged (label and combobox follow), the source gets the old translation, the translation is emptied and the new source is translated |
| `Prototype.AITranslatorApp.Translate` | test.py:141-163 | blank source does nothing; otherwise the status names both languages and one job translates the stripped text |
| `Prototype.AITranslatorApp.TranslationFinished` | test.py:150-161 | a started job on the stripped text finishes: the placeholder quoting that text and naming the languages current at completion fills the translation |
| `Prototype.AITranslatorApp.ListenSource` | test.py:165-177 | blank source does nothing; otherwise one speech job |
| `Prototype.AITranslatorApp.ListenTarget` | test.py:179-191 | blank translation does nothing; otherwise one speech job |
| `Prototype.AITranslatorApp.SpeechFinished` | test.py:173-175 | a started speech job finishing sets "Audio playback complete" and nothing else |
| `Scenarios.BonjourIsFrench` | utils/language_detector.py:57-74 | "Bonjour le monde" with verdict `fr` is French, and its translation succeeds |
| `Scenarios.DesktopTranslatesAfterDetection` | desktop/app.py:213-295 | typing, the timer, detection and translation lead to the label French, the text "Hello world" and exactly one detect and one translate request |
| `Scenarios.TranslationErrorsDiffer` | web/static/js/main.js:108 | the same failure reads `Error: network error` on the desktop and `Translation error: network error` on the web |
| `Scenarios.DesktopClearedInputSendsNothing` | desktop/app.py:213-232 | text typed and then deleted before the pause sends no request at all |
| `Scenarios.SpeakWithoutLanguage` | web/static/js/main.js:138-157 | without a language the desktop sends nothing while the web stops the audio and speaks in English |
| `Scenarios.BlankInputDebounceDiffers` | web/static/js/main.js:32-52 | spaces schedule nothing on the desktop, while the web page schedules a detection that only resets the label |
| `Scenarios.PrototypeTranslateToFrench` | test.py:87-163 | a detected and translated prototype session ends with English to French, the placeholder quoting the stripped text, and two jobs |
| `Scenarios.PrototypeSwapReplacesTypedText` | test.py:115-139 | after a swap the typed text survives only quoted inside the placeholder that replaces it; the translation box is empty and the placeholder is itself translated |

## Left out

- `utils/text_to_speech.py` (speech synthesis, audio playback, temporary files, the playing flag) is not part of this model. Speech is a logged request, and its outcome is the `success` argument of `DesktopApp.TranslatorApp.SpeakFinished`.
- The audio polling loop (`desktop/app.py:341-347`) that sets "Ready" once playback ends is left out. It reads a flag written by another thread.
- `web/app.py` (the Flask routes), `utils/__init__.py` (the shared instances) and the page template are not part of this model. The web page's option values and initial selection are constructor parameters of `WebClient.TranslatorPage`.
- The language-identification and translation algorithms are left out. Their answers are parameters (`LanguageDetector.Verdict`, `Translator.LibraryOutcome`, `WebClient.DetectReply`, `WebClient.TranslateReply`).
- Threads, real-time delays (the 500 ms quiet period of the debounce timers included) and the last-write-wins race between overlapping callbacks are left out. A callback is an event the caller delivers, in whatever order it chooses. Detection and translation results are delivered already computed.
- `DesktopApp.TranslatorApp.HandleTranslation`: the translate request records `last_detected_code` as it is when the request is dispatched. The source's worker thread reads `self.last_detected_code` only when it runs (`desktop/app.py:278`), so a detection delivered in between could change the source it uses.
- Widget layout, styles and the prototype's `time.sleep` durations are left out.
- Unicode is modelled only as far as the two whitespace sets go. There is no normalisation or encoding.
- `DesktopApp.TranslatorApp.constructor`: requires a non-empty catalogue. The service's catalogue has 104 entries, and an empty one would make the source's initial selection fail.
- `DesktopApp.TranslatorApp.OnSourceTextChange`: after `after_cancel`, the source keeps the cancelled id in `typing_timer`. The model empties the slot instead. No behaviour depends on the difference. The same holds for a timer that has fired, and for `WebClient.TranslatorPage.OnSourceInput` with `clearTimeout`.
- `WebClient.TranslatorPage.HandleSpeakText`: the speak reply and a failure of the speak request only write to the console, so they are not modelled. Only a failure of the stop request (`stopFailed`) is, because it prevents the speak request.
