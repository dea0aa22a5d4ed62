# FanonForge state logic in Dafny

FanonForge is a browser page that sends a description of a piece of
"source IP" to a remote text-generation service and shows the structured
answers: an analysis, a list of fandom tropes, four transformative twists,
narrative text, and a copyright-risk assessment. Almost all of the code is
markup, prompt text and network calls. This project models the small layer
of sequential state logic underneath, as immutable datatypes and pure
transition functions, and proves properties of it:

- **Project list** (`ProjectStore`): save, load and delete of named
  snapshots of the working session, the optimistic in-memory update before
  the durable write, and the degraded initial load.
- **Call orchestrator** (`Orchestrator`, `Tracker`): `handleGeminiCall` as
  three discrete events per call (`Begin`, `Succeed`, `Fail`) over a
  `map<string, bool>` of loading flags, one error slot and five result
  slots, plus the wiring of the six call sites to their keys and slots.
- **Voice adapter** (`Voice`): the listening/idle flag and the append rule
  of the recognizer's `onresult` callback.
- **Response cleanup and validation** (`GeminiService`, `JsText`): the
  regular-expression fence stripping and `trim` applied to a raw response,
  and the null checks of the five service operations.
- **Call sites** (`CallSites`): each click handler's service operation
  applied to the raw response, and what its settlement does to the page,
  so the parse of a response is followed all the way to the slot it fills
  or the message it shows.
- **Records** (`Types`, `AppState`): the three answer records, the session,
  a project, and the page state the events act on.
- **The page** (`Page`): all of the above as one event system, with the
  invariants (unique project names; never listening without the capability)
  proved over every interleaving.

Inputs the browser supplies are parameters: the answers to `prompt` and
`confirm`, the ISO timestamp, whether a `localStorage` write succeeds, what
`localStorage.getItem` returns, the raw response text of each service call,
and `JSON.parse` itself as an abstract function `string -> Option<T>`.

Behaviour of the code worth knowing, all of it modelled as written:

- Saving with an empty or cancelled name returns silently; there is no
  validation error.
- Loading a name that is not in the list does nothing; there is no
  not-found error.
- The click handlers do not check for an empty input. Only the disabled
  buttons stop such a click. `assessRisk` is the one handler that checks
  its own input (the narrative).
- A call first sets its loading flag and then clears the error slot.
- Each `onresult` appends one space and then the transcripts of all results
  in the event joined with no separator. So "hello" and "world" give
  " hello world" when each event carries only its new result, and
  " helloworld" when they arrive together. The recognizer runs in
  continuous mode, where each event's result list holds every result of
  the session so far; since the handler reads all of them, a second event
  repeats the earlier transcripts (" hello helloworld").
- Delete removes every entry with the name, not just one.
- A response is rejected only when the parse fails (or, for tropes, when
  the `tropes` field is missing). The fields of a parsed object are not
  checked.
- The narrative operation hands the raw response text to the page: no
  fence stripping, no trimming, no check.

## Model

| member | source | states |
|---|---|---|
| Types.Snapshot | App.tsx:221-230 | the saved project carries the given name and timestamp, and its six session fields give back exactly the session it was taken from |
| Types.SnapshotOfSessionOf | App.tsx:221-230 | a project is determined by its name, its timestamp and its six session fields, so taking a snapshot of what `SessionOf` gives back rebuilds the same project |
| AppState.Fresh | App.tsx:86-142 | the page starts with an empty session, no loading flags, no error, no projects and the adapter idle |
| JsText.TrimStart | services/geminiService.ts:14 | the result is what is left of the string after its longest all-white-space prefix; it does not start with white space |
| JsText.TrimEnd | services/geminiService.ts:14 | the result is what is left of the string before its longest all-white-space suffix; it does not end with white space |
| JsText.Trim | services/geminiService.ts:14 | the result is a contiguous piece of the input with only white space around it, and has no white space at either end |
| JsText.TrimIdentity | services/geminiService.ts:14 | a string with no white space at either end is left unchanged by trimming |
| JsText.TrimPadding | services/geminiService.ts:14 | white space added on either side does not change the trimmed result |
| GeminiService.AfterOpenFence | services/geminiService.ts:14 | a leading "```json" and the whole white-space run after it are cut off; the rest is a suffix of the text; text without that opening is left alone |
| GeminiService.DropClosingFenceFrom | services/geminiService.ts:14 | the scan cuts the text at the first offset where "```" is followed only by white space to the end, or keeps it whole when there is no such offset |
| GeminiService.DropClosingFence | services/geminiService.ts:14 | the result is a prefix of the text; either a closing fence starts right after it, or the text has no closing fence anywhere |
| GeminiService.StripFences | services/geminiService.ts:14 | the stripped text is what is left after the opening fence, cut exactly where the closing-fence pattern first matches; when it is not cut, the pattern matches nowhere |
| GeminiService.Clean | services/geminiService.ts:14 | the text handed to the parser has no white space at either end |
| GeminiService.CleanTrimsStripped | services/geminiService.ts:14 | the text handed to the parser is a piece of the stripped text with only white space around it |
| GeminiService.ParseJsonResponse | services/geminiService.ts:12-22 | the abstract parser applied to the cleaned text; `None` stands for a parse that threw (caught here) or gave a falsy value |
| GeminiService.FenceAtUnique | services/geminiService.ts:14 | the closing-fence pattern can match at one offset at most, so the global replace removes one closing fence at most |
| GeminiService.NoFenceAfter | services/geminiService.ts:14 | after an offset where the closing fence matches, no later offset starts another one |
| GeminiService.OpenFenceRemoved | services/geminiService.ts:14 | "```json" followed by any white space and then a body gives exactly the body |
| GeminiService.ClosingFenceRemoved | services/geminiService.ts:14 | a body followed by "```" and only white space gives exactly the body, with nothing earlier removed |
| GeminiService.FencedResponse | services/geminiService.ts:12-15 | a response wrapped in a json fence gives exactly the body between the fences, and the parser receives the trimmed body |
| GeminiService.FencedAnalysis | services/geminiService.ts:12-48 | a fenced analysis response fails exactly when the parser rejects its trimmed body |
| GeminiService.UnfencedResponse | services/geminiService.ts:12-15 | a response with neither fence is only trimmed before parsing |
| GeminiService.CleanIgnoresTrailingSpace | services/geminiService.ts:14 | a closing fence with trailing white space is removed and the parser receives the trimmed body |
| GeminiService.AnalyzeIP | services/geminiService.ts:46-48 | fails exactly when the parse of the cleaned text fails, with the fixed analysis message; otherwise returns the parsed value unchanged |
| GeminiService.ExploreTropes | services/geminiService.ts:72-74 | fails exactly when the parse fails or has no tropes field, with the fixed trope message; otherwise returns only that array |
| GeminiService.GenerateTwists | services/geminiService.ts:98-100 | fails exactly when the parse fails, with the fixed twist message; otherwise returns the parsed value unchanged |
| GeminiService.AssessRisk | services/geminiService.ts:146-148 | fails exactly when the parse fails, with the fixed risk message; otherwise returns the parsed value unchanged |
| GeminiService.GenerateNarrative | services/geminiService.ts:103-109 | never fails, and returns the response text without cleaning or validating it |
| Tracker.Set | App.tsx:284 | sets one key to the given flag and leaves every other key exactly as it was |
| Tracker.Begin | App.tsx:284 | the key reads as loading and no other key changes |
| Tracker.End | App.tsx:292 | the key reads as not loading, even if it was never begun, and no other key changes |
| Orchestrator.Message | App.tsx:290 | an Error's message is shown as it is; any other thrown value shows the fixed unknown-error text |
| Orchestrator.Write | App.tsx:298-336 | each call site's writer fills its own slot with the response and touches no other slot or the input |
| Orchestrator.Key | App.tsx:299-336 | the loading key each call site passes: "analyze", "tropes", "twists", "divergence", "deviation-" with the level, and "risk" |
| Orchestrator.Starts | App.tsx:334-336 | a click reaches `handleGeminiCall` unless it is the risk button with an empty narrative |
| Orchestrator.Enabled | App.tsx:391-513 | a button is enabled when its input is non-empty and its key is not loading, and an enabled button always reaches `handleGeminiCall` |
| Orchestrator.Step | App.tsx:279-294 | a started call marks its key loading, clears the error and keeps the session; a success hands the response to its call site's writer, so exactly that slot takes the value, and keeps the error; a failure stores the message and keeps every slot; both settling events leave the key not loading; no other key, the projects or the adapter change |
| Orchestrator.KeyInjective | App.tsx:299-336 | the six call sites, including the three deviation levels, use pairwise distinct loading keys |
| Orchestrator.UntouchedKey | App.tsx:284-292 | a key that no event of a run mentions keeps its loading flag however other calls interleave |
| Orchestrator.SettledKeyIdle | App.tsx:286-293 | after the event that settles a call, with only other keys' events after it, the call's key is not loading |
| Orchestrator.BegunKeyPending | App.tsx:284 | after a started call whose key no later event mentions, the key is loading |
| Orchestrator.NarrativeSlotIsLastNarration | App.tsx:318-330 | the narrative text after any run is the text of the last narrative response to settle, from whichever of the four narrative keys |
| Orchestrator.FailureDoesNotLeak | App.tsx:284-293 | a failed analysis followed by a successful trope listing ends with no error, the tropes stored, the analysis untouched and neither key loading |
| Orchestrator.EmptyInputOnlyGuardedByButton | App.tsx:298-330 | with an empty input the button is disabled, yet the handler itself still starts the call |
| Orchestrator.RiskHandlerChecksNarrative | App.tsx:334-337 | with an empty narrative the risk handler changes nothing |
| CallSites.Settle | App.tsx:286-336 | each call site awaits its own service operation on the response (analyzeIP, exploreTropes, generateTwists, generateNarrative for all four narrative keys, assessRisk); a resolved value goes to that site's writer, a thrown Error to the `catch` |
| CallSites.AwaitsSettleTheirCalls | App.tsx:299-336 | whatever its service operation resolves to or throws, each call site's `try` / `catch` settles that same call and clears its own loading flag |
| CallSites.SettleConcernsItsCall | App.tsx:279-336 | the settlement of a call site's service operation is a success or a failure of that same call, and concerns that call's loading key |
| CallSites.SettleFailureMessage | services/geminiService.ts:46-148 | a failed settlement carries its own call site's fixed message, and a narrative call never fails |
| CallSites.AnalysisSettles | App.tsx:298-300 | a rejected analysis parse shows the analysis message and keeps every slot; an accepted one fills the analysis slot with exactly the parsed value and keeps the error; the key ends idle |
| CallSites.TropesSettle | App.tsx:305-307 | a rejected parse or a missing `tropes` field shows the trope message and keeps every slot; otherwise the trope slot holds exactly the parsed array |
| CallSites.TwistsSettle | App.tsx:311-313 | a rejected twist parse shows the twist message and keeps every slot; an accepted one fills the twist slot with exactly the parsed value |
| CallSites.RiskSettles | App.tsx:334-337 | a rejected risk parse shows the risk message and keeps every slot; an accepted one fills the risk slot with exactly the parsed value |
| CallSites.NarrativeSettles | App.tsx:318-330 | every narrative key stores the raw response text, uncleaned, and leaves the error as it was |
| CallSites.CompleteCall | App.tsx:279-336 | a started call followed by its settlement leaves its key idle and every other key as it was, and the error slot empty or showing that call site's own message |
| CallSites.FencedAnalysisShown | App.tsx:298-300 | a fenced analysis response fills the analysis slot with the parse of its trimmed body, or shows the analysis message and leaves the slot alone |
| Voice.Toggle | App.tsx:189-198 | without the capability nothing changes; with it the listening flag flips and nothing else changes |
| Voice.OnResult | App.tsx:165-171 | the old input is kept as a prefix, followed by one space and the joined transcripts; nothing else changes |
| Voice.OnError | App.tsx:173-176 | the adapter is idle and the error slot shows the recognizer's error code after the fixed prefix; nothing else changes |
| Voice.OnEnd | App.tsx:178-180 | the adapter is idle and nothing else changes |
| Voice.JoinTranscripts | App.tsx:166-169 | the first transcript of every result of one event, in order, with no separator |
| Voice.VoiceRunKeepsSupportInvariant | App.tsx:158-198 | along any run of voice events, the adapter never listens on a host without the capability |
| Voice.VoiceRunOnlyAppends | App.tsx:170 | along any run of voice events the input only grows, keeping what was there as a prefix |
| Voice.ToggleTwice | App.tsx:189-198 | toggling twice restores the state |
| Voice.JoinAppend | App.tsx:166-169 | the join of results arriving together is the concatenation of their transcripts, in order, with no separator |
| Voice.JoinSingle | App.tsx:166-169 | one result contributes exactly its first transcript |
| Voice.TwoResultEvents | App.tsx:165-171 | two result events append a space and the first join, then a space and the second join |
| Voice.SeparateEventsAreSpaced | App.tsx:165-171 | two words arriving in two events are appended each after its own space, so "hello" and "world" turn an empty input into " hello world" |
| Voice.OneEventIsNotSpaced | App.tsx:165-171 | two words arriving as two results of one event are appended after one space and run together, so "hello" and "world" give " helloworld" |
| Voice.AccumulatedResultsRepeat | App.tsx:162-170 | when the second event's result list still holds the first event's result, as in continuous mode, the first word is appended twice: " hello helloworld" |
| ProjectStore.FindIndex | App.tsx:232 | returns the first index holding the name, or nothing exactly when no entry has it |
| ProjectStore.FindIndexIsFirst | App.tsx:232 | the first index holding the name is the one found |
| ProjectStore.RemoveNamed | App.tsx:265 | keeps exactly the entries whose name differs |
| ProjectStore.UpdateProjects | App.tsx:205-213 | the in-memory list becomes the new list whether or not the write succeeds; a failed write only sets the save error, a successful one leaves the error as it was |
| ProjectStore.Save | App.tsx:217-242 | a cancelled or empty name changes nothing; otherwise only the list and the error slot can change, and the error only to the save error |
| ProjectStore.Load | App.tsx:247-258 | an absent name changes nothing; otherwise the session becomes the six fields of the first project with that name, and nothing else changes |
| ProjectStore.Delete | App.tsx:263-268 | without confirmation nothing changes; with it the list holds exactly the old entries of other names |
| ProjectStore.InitialLoad | App.tsx:145-155 | a missing or empty blob changes nothing; a failed read or parse keeps the list and sets the load error; a parsed list replaces the list |
| ProjectStore.MountDegradesToEmpty | App.tsx:147-155 | on a fresh page an unparsable blob gives an empty list and the load error |
| ProjectStore.SaveNewAppends | App.tsx:240 | saving a new name appends exactly one project at the end and keeps the rest |
| ProjectStore.SaveExistingReplaces | App.tsx:232-238 | saving an existing name with the overwrite confirmed replaces that entry at the same index, keeping the length and every other entry; declining changes nothing |
| ProjectStore.SavePreservesUnique | App.tsx:232-241 | every save keeps project names unique |
| ProjectStore.ReplaceKeepsUnique | App.tsx:235-236 | replacing an entry by a project of the same name keeps names unique |
| ProjectStore.AppendKeepsUnique | App.tsx:240 | appending a project whose name no entry has keeps names unique |
| ProjectStore.SaveThenLoad | App.tsx:217-255 | after a save that goes through, loading the same name restores all six session fields exactly |
| ProjectStore.OverwriteKeepsOneEntry | App.tsx:232-238 | saving twice under one name with the overwrite confirmed leaves exactly one entry of that name, holding the second session and timestamp |
| ProjectStore.RemoveNamedAppend | App.tsx:265 | removing a name keeps the relative order of the remaining entries |
| ProjectStore.RemoveAbsent | App.tsx:265 | removing a name no entry has leaves the list unchanged |
| ProjectStore.RemoveNamedUnique | App.tsx:265 | removing a name keeps names unique |
| ProjectStore.RemoveNamedKeepsAbsent | App.tsx:265 | a name absent from the list stays absent after another name is removed |
| ProjectStore.DeleteIdempotent | App.tsx:263-268 | deleting a name twice gives the same list as deleting it once |
| ProjectStore.DeleteAbsentKeepsList | App.tsx:263-268 | deleting an absent name leaves the list unchanged |
| ProjectStore.DeletePreservesUnique | App.tsx:263-268 | deleting keeps project names unique |
| Page.PageStep | App.tsx:158-510 | one page event: a call event, a voice event, a save, load or delete, or an edit of the input (App.tsx:387) or of the narrative (App.tsx:510) |
| Page.PageStepKeepsInvariant | App.tsx:158-268 | every page event keeps project names unique and never leaves the adapter listening without the capability |
| Page.PageRunKeepsInvariant | App.tsx:158-268 | any interleaving of page events keeps both invariants |
| Page.MountedInvariant | App.tsx:145-160 | the mounted page satisfies both invariants when the stored list has unique names or could not be read |

## Left out

- Rendering: all JSX, icons, the section, loader and disclaimer components and styling are markup.
- Network: the service client, model name, schema configuration and API-key check are calls into a library that is not part of this model. Each operation receives the raw response text as a parameter.
- Prompt text: the prompt templates, and the narrative length and tone fields that only feed them, are content. Only the keys `deviation-Low`, `deviation-Medium` and `deviation-High` are kept.
- Storage and JSON: `localStorage`, `JSON.stringify` and `JSON.parse` are abstract. A write is a success flag, a read is a `Result`, and the parser is a function parameter.
- Dialogs and clock: `prompt`, `confirm`, `alert` and `new Date().toISOString()` are inputs. The alert shown after a load has no state effect.
- Recognizer: when the recognizer fires its callbacks, which results each event's list holds, and `start()` throwing when already started are browser behaviour. The result list is a parameter of `onresult`; only the adapter's flag and append rule are modelled.
- Asynchrony: there are no threads or timeouts in the code. Settlement is an event in a sequence.
- Narrative edits: the narrative text area is read-only while the risk assessment is loading (App.tsx:511). The model lets `EditNarrative` happen at any time, which admits more runs than the page allows; every invariant is proved over all of them.
- Stale closures: the React handlers read the state of the render that created them. The model reads the current state, which is the same whenever a render happens between events.
- GeminiService.AnalyzeIP: the parser parameter is typed, so a parsed value whose fields have the wrong JSON type cannot be represented. The source casts without checking, so such a value would pass unnoticed there.
- GeminiService.ExploreTropes: for the same reason, a `tropes` field that is truthy but not an array is outside the model.
- GeminiService.AssessRisk: a risk score other than Low, Medium or High cannot be represented, although the unchecked cast would let one through.
- Falsy parses: `None` from the parser covers both a parse that threw and a parse to a falsy value (`null`, `false`, `0`, `""`). Every call site rejects both alike, so the model does not tell them apart.
- ProjectStore.InitialLoad: a blob that parses to something other than an array of projects (for example `null`) is outside the typed parser.
- Characters: JavaScript strings are UTF-16 code units, while Dafny characters are Unicode scalar values. The white-space set is the same for both.
