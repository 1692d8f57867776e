# Cognitive Knobs: a verified model of the knob store, the generation endpoint and the saved-configuration list

Cognitive Knobs lets a user set named "knobs" on a 0-100 scale that describe
the qualities of a text transformation (abstraction, accessibility, ...), plus
the language model's sampling parameters. It then sends the source text and an
instruction prompt built from the knobs to a chat-completion provider. This
project models the three parts of the program that are plain sequential logic:

- **The knob store** (`knobs.dfy`, module `Knobs`). Class `KnobStore` holds the
  cognitive and LLM knob lists and `stored`, the value of the browser storage
  key `cognitive-knobs`. Its methods add, remove and update knobs, reset a list
  to its defaults, and call `SaveKnobs` after each change. Their postconditions
  give the whole new state. The pure parts are functions: loading the lists
  with a fallback to the defaults, the list operations, and the derivation of
  the five sampling parameters by first match.
- **The generation endpoint** (`generate.dfy`, module `Generate`). It covers
  prompt construction, the blank-text check (with JavaScript's `trim`), the
  provider payload, and the mapping of the provider's answer to what the caller
  receives. The request is a pure function of the request body and of what the
  provider call returned (`Upstream`), so the network call is an input.
- **The saved-configuration list** (`configurations.dfy`, module
  `Configurations`). Class `ConfigurationStore` holds the value of the storage
  key `cognitive-knobs-configs`. Saving reads the list, appends and writes it
  back. Deleting reads the list, filters it and writes it back. Loading is a
  first-match lookup.

`types.dfy` holds the records of `src/lib/types/index.ts`. `seqs.dfy` states
once the array operations the program relies on: `find`/`findIndex`, `filter`,
update-the-first-match and `join`, plus a line splitter used to read joined
text back. `wrappers.dfy` holds `Option`.

Conventions:
- A JavaScript `number` is a `real`. Knob values are only stored, copied and
  printed.
- A `Date` is an `Instant`, its time value in milliseconds.
- Functions that the program gets from its platform are parameters: `show` for
  number-to-string, `toIso`/`fromIso` for `Date.prototype.toISOString` and
  `new Date(string)`.
- The `browser` flag is a constant field of each store. Whether a storage write
  succeeds is the argument `writeOk`.
- JSON is abstracted. Each storage key is read as `Absent` (missing or the
  empty string), `Corrupt` (does not parse), or the parsed value.

Error behaviour, as the code has it:
- A failed write in `saveKnobs` is not caught
  (src/lib/stores/knobs.svelte.ts:182-189). So `KnobStore.SaveKnobs` and every
  mutation return `threw`, and the in-memory change has already happened when
  that is true.
- In the configuration list only `saveConfiguration` catches a failed write
  (src/lib/utils/localStorage.ts:22-26). `deleteConfiguration` does not
  (line 47), so `ConfigurationStore.DeleteConfiguration` returns `threw`.
- The comment "Re-throw SvelteKit errors" on the endpoint's catch block
  (src/routes/api/generate/+server.ts:126) says HTTP errors should keep their
  status. The test guarding it does not let them through; see "## Findings".
  The endpoint is therefore modelled twice. `Generate.Post` is the handler as
  written. `Generate.PostTagged` is the corrected handler, in which an HTTP
  error keeps its status. Rows below that name `PostTagged` state the
  corrected behaviour.

## Model

| member | source | states |
|---|---|---|
| Seqs.FindFirst | src/lib/stores/knobs.svelte.ts:227 | `find`: the index returned holds the first element satisfying the predicate; `None` exactly when no element does |
| Seqs.Filter | src/lib/stores/knobs.svelte.ts:222 | `filter`: every element kept satisfies the predicate and comes from the input; every input element satisfying it is kept |
| Seqs.FilterAppend | src/lib/stores/knobs.svelte.ts:222 | filtering distributes over concatenation, so the kept elements keep their relative order |
| Seqs.FilterIdempotent | src/lib/utils/localStorage.ts:46 | filtering twice by a predicate is filtering once |
| Seqs.FindFirstFilter | src/lib/utils/localStorage.ts:46-52 | a filter that keeps every match of a search does not change the element the search finds |
| Seqs.UpdateFirst | src/lib/stores/knobs.svelte.ts:227-229 | find-then-assign: same length; only the first match is replaced (by `f` of itself); no match leaves the list unchanged |
| Seqs.Join | src/routes/api/generate/+server.ts:18-20 | `join`; its laws are `Seqs.JoinConcat` and, read back by lines, `Seqs.SplitJoin` |
| Seqs.JoinConcat | src/routes/api/generate/+server.ts:18-20 | joining two non-empty runs is joining each with one separator between them |
| Seqs.SplitJoin | src/routes/api/generate/+server.ts:18-20 | splitting a `join` of separator-free parts gives back exactly the parts: one piece per part, in order, no trailing empty piece |
| Seqs.SplitJoinThen | src/routes/api/generate/+server.ts:22-30 | splitting joined parts followed by a separator and more text gives the parts, then the pieces of that text |
| Knobs.LoadCognitiveKnobs | src/lib/stores/knobs.svelte.ts:142-155 | in a browser, the stored cognitive list whenever storage parses and has the field (an empty list included); the defaults when not in a browser, absent, unparseable or field missing |
| Knobs.LoadLLMKnobs | src/lib/stores/knobs.svelte.ts:157-170 | the same fallback for the LLM list |
| Knobs.Snapshot | src/lib/stores/knobs.svelte.ts:184-187 | the object `saveKnobs` writes; loading it back (lines 142-170) gives both lists, the empty list included |
| Knobs.WithoutKnob | src/lib/stores/knobs.svelte.ts:221-224 | after removal no knob has the id, every remaining knob was in the list, and every knob with another id remains |
| Knobs.WithoutKnobAppend | src/lib/stores/knobs.svelte.ts:222 | removal keeps the other knobs in their relative order |
| Knobs.WithoutKnobIdempotent | src/lib/stores/knobs.svelte.ts:221-224 | removing the same id twice is removing it once |
| Knobs.WithoutAbsentKnob | src/lib/stores/knobs.svelte.ts:222 | removing an id no knob has leaves the list unchanged |
| Knobs.WithCognitiveValue | src/lib/stores/knobs.svelte.ts:226-232 | same length; the first knob with the id gets the new value and keeps all other fields; all other knobs are unchanged; no knob with the id leaves the list unchanged |
| Knobs.WithLLMValue | src/lib/stores/knobs.svelte.ts:234-240 | the same for LLM knobs (min, max, step and parameter are kept) |
| Knobs.Parameters | src/lib/stores/knobs.svelte.ts:192-198 | the derived `parameters`: each field is `ParameterValue` with its default; its behaviour is stated by `DefaultParameters`, `ThreeKnobParameters`, `EmptyParameters` and `UpdateReachesParameter` |
| Knobs.ParameterValue | src/lib/stores/knobs.svelte.ts:192-198 | the value of the first LLM knob bound to the parameter; the fallback when no knob is |
| Knobs.DefaultParameters | src/lib/stores/knobs.svelte.ts:192-198 | with the default LLM knobs (lines 108-139) the parameters are 0.7, 1000, 0.9 and both penalties 0, since no default knob names a penalty |
| Knobs.ThreeKnobParameters | src/lib/stores/knobs.svelte.ts:192-198 | any three knobs driving temperature, max tokens and top-p, in that order, supply those three values, and both penalties fall back to 0 |
| Knobs.EmptyParameters | src/lib/stores/knobs.svelte.ts:192-198 | with no LLM knobs every field is its default 0.7 / 1000 / 0.9 / 0 / 0 |
| Knobs.UpdateReachesParameter | src/lib/stores/knobs.svelte.ts:234-240 | updating the first knob bound to a parameter makes that parameter equal the new value |
| Knobs.KnobStore.constructor | src/lib/stores/knobs.svelte.ts:172-179 | both lists are loaded with the fallback; system prompt, source text, response, busy flag and error start at their initial values |
| Knobs.KnobStore.SaveKnobs | src/lib/stores/knobs.svelte.ts:182-189 | in a browser writes the snapshot of both lists; a failed write leaves storage as it was and raises; outside a browser nothing happens |
| Knobs.KnobStore.AddCognitiveKnob | src/lib/stores/knobs.svelte.ts:216-219 | the old list with the knob appended at the end; LLM list unchanged; storage holds the new state unless the write failed |
| Knobs.KnobStore.RemoveCognitiveKnob | src/lib/stores/knobs.svelte.ts:221-224 | the list without the id; no knob with the id remains; unchanged when none had it; LLM list unchanged; snapshot saved |
| Knobs.KnobStore.UpdateCognitiveKnob | src/lib/stores/knobs.svelte.ts:226-232 | the list as `WithCognitiveValue`; with no knob under the id, lists and storage are unchanged and nothing is saved |
| Knobs.KnobStore.UpdateLLMKnob | src/lib/stores/knobs.svelte.ts:234-240 | the same on the LLM list, cognitive list unchanged |
| Knobs.KnobStore.ResetCognitiveKnobs | src/lib/stores/knobs.svelte.ts:242-245 | the cognitive list equals the defaults, LLM list unchanged, snapshot saved |
| Knobs.KnobStore.ResetLLMKnobs | src/lib/stores/knobs.svelte.ts:247-250 | the LLM list equals the defaults, cognitive list unchanged, snapshot saved |
| Generate.KnobLine | src/routes/api/generate/+server.ts:19 | one knob's `- name: value/100 (description)` line; see `Generate.KnobDescriptionLines` and `Generate.OneKnobPrompt` |
| Generate.KnobDescriptions | src/routes/api/generate/+server.ts:18-20 | the knob lines joined by newlines; `Generate.KnobDescriptionLines` reads them back |
| Generate.KnobDescriptionLines | src/routes/api/generate/+server.ts:18-20 | read back by lines, the knob section has exactly one `- name: value/100 (description)` line per knob, in input order, with no trailing newline |
| Generate.ConstructPrompt | src/routes/api/generate/+server.ts:13-31 | no knobs: the source text unchanged; otherwise the header lines, one line per knob and the footer lines, joined by single newlines |
| Generate.PromptLines | src/routes/api/generate/+server.ts:22-30 | read back by lines, a prompt is: system prompt, blank, `SOURCE TEXT:`, source text, blank, `COGNITIVE PARAMETERS:`, one line per knob, blank, closing instruction |
| Generate.OneKnobPrompt | src/routes/api/generate/+server.ts:13-31 | the worked example: one knob "Abstraction" at 80 gives the fixed lines around `- Abstraction: 80/100 (...)` |
| Generate.Trim | src/routes/api/generate/+server.ts:38 | `trim` is empty exactly when every character is JavaScript white space or a line terminator; otherwise it neither starts nor ends with one |
| Generate.IsBlank | src/routes/api/generate/+server.ts:38 | the blank test (no text, or an empty `trim`) holds exactly when the text is missing or all white space |
| Generate.BuildPayload | src/routes/api/generate/+server.ts:46-66 | model `z-ai/glm-4.6`; routing only `cerebras` with no fallback; one user message holding the constructed prompt; temperature, max tokens and top-p copied; penalties copied or 0 when absent; reasoning off; no streaming |
| Generate.StoreParametersReachPayload | src/routes/api/generate/+server.ts:56-60 | parameters derived by the knob store reach the payload unchanged, all five fields |
| Generate.UpstreamError | src/routes/api/generate/+server.ts:94-106 | a non-ok status keeps its status: 429 with the rate-limit message, 401 with "Invalid API key", any other with "API request failed: " and the provider's body |
| Generate.CatchTagged | src/routes/api/generate/+server.ts:122-130 | an HTTP error keeps its status and message; any other exception becomes 500 "Failed to generate response" |
| Generate.Handle | src/routes/api/generate/+server.ts:34-120 | the `try` block: a request goes out exactly when the body parses and the text is not blank, and it is the payload built from it; only an ok answer that parses to a value other than `null` is returned, unchanged (a `null` body makes the log read of `data.model` at line 112 throw); the only HTTP errors raised are the 400 for a blank text, with nothing sent, and the error a non-ok status maps to |
| Generate.CatchAsWritten | src/routes/api/generate/+server.ts:122-130 | the catch as written always fails: as `CatchTagged` when the HTTP error passes the `instanceof Error` test, otherwise 500 "Failed to generate response" |
| Generate.Post | src/routes/api/generate/+server.ts:33-131 | `POST` as written; stated by `AsWrittenSendsAsIntended`, `AsWrittenCollapsesErrors`, `AsWrittenAgreesWhenHttpErrorIsError` and `BlankSourceAsWritten` |
| Generate.AsWrittenSendsAsIntended | src/routes/api/generate/+server.ts:33-131 | whatever the `instanceof` test decides, `POST` as written sends the same request as the corrected handler (nothing for a blank text) and relays the same successful answers unmodified |
| Generate.PostTagged | src/routes/api/generate/+server.ts:33-131 | the corrected handler: every error status the caller sees is 400, 500 or the provider's own non-ok status |
| Generate.SentOnlyWhenValid | src/routes/api/generate/+server.ts:35-92 | in the corrected handler `PostTagged` (and, by `AsWrittenSendsAsIntended`, as written): a request goes out exactly when the body parses and the source text is not blank, and it is the payload built from that body |
| Generate.BlankSourceRejected | src/routes/api/generate/+server.ts:38-40 | in the corrected handler `PostTagged`: a blank source text gives 400 "Source text is required" and nothing is sent |
| Generate.UpstreamStatusRelayed | src/routes/api/generate/+server.ts:94-106 | in the corrected handler `PostTagged`: a non-ok provider answer reaches the caller with the provider's status and the mapped message |
| Generate.SuccessRelayed | src/routes/api/generate/+server.ts:108-120 | in the corrected handler `PostTagged` (and, by `AsWrittenSendsAsIntended`, as written): an ok answer that parses to a value other than `null` is relayed unmodified |
| Generate.NullAnswerIs500 | src/routes/api/generate/+server.ts:108-129 | an ok answer whose body is `null` is not relayed: reading `data.model` for the log (line 112) throws, and the caller gets 500 "Failed to generate response", as written and in the corrected handler |
| Generate.UnexpectedFailuresAre500 | src/routes/api/generate/+server.ts:122-130 | in the corrected handler `PostTagged`, and equally as written, where every failure is 500: an unparseable request body, a call that does not complete, or an ok answer that does not parse or parses to `null` gives 500 "Failed to generate response" |
| Generate.AsWrittenAgreesWhenHttpErrorIsError | src/routes/api/generate/+server.ts:122-130 | if the framework's HTTP error passed the `instanceof Error && 'status' in err` test, the code as written would behave as intended |
| Generate.AsWrittenCollapsesErrors | src/routes/api/generate/+server.ts:122-130 | if it does not pass, every failure the caller sees is 500 "Failed to generate response" |
| Generate.BlankSourceAsWritten | src/routes/api/generate/+server.ts:38-40 | concrete input: an empty source text gets 500 from the code as written and 400 as intended |
| Configurations.ToStored | src/lib/utils/localStorage.ts:15-18 | the saved entry equals the configuration field by field, except that `createdAt` is its ISO string |
| Configurations.FromStored | src/lib/utils/localStorage.ts:57-60 | the loaded configuration equals the entry field by field, except that `createdAt` is parsed back |
| Configurations.StoredRoundTrip | src/lib/utils/localStorage.ts:15-60 | given an ISO round trip that returns the date, storing and rebuilding gives the configuration back |
| Configurations.LoadAllConfigurations | src/lib/utils/localStorage.ts:29-41 | the stored list in a browser when the key holds one; otherwise (not a browser, absent, unparseable) the empty list |
| Configurations.WithoutConfiguration | src/lib/utils/localStorage.ts:46 | no remaining entry has the id; every remaining entry was in the list; every entry with another id remains |
| Configurations.WithoutConfigurationAppend | src/lib/utils/localStorage.ts:46 | deletion keeps the other entries in their relative order |
| Configurations.WithoutConfigurationIdempotent | src/lib/utils/localStorage.ts:43-48 | deleting the same id twice is deleting it once |
| Configurations.FindConfiguration | src/lib/utils/localStorage.ts:52 | the position of the first entry with the id; `None` exactly when no entry has it |
| Configurations.LoadConfiguration | src/lib/utils/localStorage.ts:50-61 | null exactly when no loaded entry has the id; otherwise the first such entry with its date converted back |
| Configurations.FindAfterAppend | src/lib/utils/localStorage.ts:20 | appending does not change an existing match; with no earlier match, an appended entry with the id is found at the end |
| Configurations.SaveThenLoad | src/lib/utils/localStorage.ts:9-61 | with no earlier entry under the id and an ISO round trip that returns the date, loading the id after a save returns the saved configuration |
| Configurations.SaveKeepsEarlierEntry | src/lib/utils/localStorage.ts:12-20 | saving does not de-duplicate: with an earlier entry under the id, loading keeps returning that earlier entry |
| Configurations.DeleteThenLoad | src/lib/utils/localStorage.ts:43-61 | after a delete, loading the id gives null and loading any other id gives what it gave before |
| Configurations.ConfigurationStore.SaveConfiguration | src/lib/utils/localStorage.ts:9-27 | in a browser the loaded list (empty when absent or corrupt) with the entry appended at the end is written; a failed write is swallowed and leaves storage unchanged; outside a browser nothing happens |
| Configurations.ConfigurationStore.DeleteConfiguration | src/lib/utils/localStorage.ts:43-48 | in a browser the loaded list without the id is written; a failed write leaves storage unchanged and raises |

## Left out

- The provider call (`fetch`), its headers, the API-key secret and all console logging (src/routes/api/generate/+server.ts:68-92, 110-117). These are network I/O and logging. The call's result is the input `Upstream`. The one way the logging can fail is modelled: the answer `null` makes line 112 throw (`Generate.NullAnswerIs500`). The other log reads use optional chaining. A `content` field that is present but not a string would make `substring` throw at line 116; that is not modelled.
- `Relayed(json)` stands for the JSON value of the provider's answer. `json(data)` (line 120) sends that value re-serialised, so whitespace and number spelling may differ from the provider's text. The model states the relayed text as the provider's body.
- Knobs.LoadCognitiveKnobs: reads `localStorage.getItem` outside its `try` (src/lib/stores/knobs.svelte.ts:145). A browser that blocks site storage throws a `SecurityError` there, and it escapes during module initialisation (lines 173-174). The model has no unreadable storage state and does not capture this path; it covers only the fallbacks the code catches.
- Knobs.LoadLLMKnobs: the same for the read at src/lib/stores/knobs.svelte.ts:160.
- Knobs.KnobStore.constructor: since the loaders have no unreadable state, the store here always initialises; a storage read that throws, which would stop the module from loading, is not modelled.
- Svelte's runes (`$state`, `$derived`) are plain fields and a pure function; `parameters` is `Knobs.Parameters(store.llmKnobs)`. The getters and setters of `systemPrompt`, `sourceText`, `response`, `isGenerating` and `error`, and the legacy aliases `knobs` and `userPrompt`, are direct field access.
- JSON parsing and printing are abstracted into the storage datatypes. A value that parses but has the wrong shape is not modelled. Examples: `null` or `{}` under `cognitive-knobs-configs`, or a non-array truthy `cognitiveKnobs` field. JSON dropping `undefined` fields such as `lowLabel` is not modelled either.
- A request body whose `parameters` fields are `null` is not represented: `RequestParameters` has only present (`Some`) or absent (`None`). The penalties' `?? 0` treats `null` like absent. `temperature`, `max_tokens` and `top_p` would be sent as `null`, whereas an absent field is dropped from the payload.
- Number-to-string (`show`) and the ISO conversions (`toIso`, `fromIso`) are parameters, not definitions. The save/load round trip takes "the ISO round trip returns the date" as a hypothesis. `toISOString` throwing on an invalid date is not modelled.
- Floating point: knob values are exact reals. They are never combined arithmetically.
- Aliasing: the knob lists are values. The model does not capture that `addCognitiveKnob` stores the caller's own object, or that `updateCognitiveKnob` assigns into an object that others may share.
- Request bodies that lack `cognitiveKnobs`, `parameters` or `systemPrompt` are not modelled. Neither is a `sourceText` that is present but not a string. The code would raise a `TypeError` (leading to 500) or print `undefined` into the prompt.
- The framework's own check in `error(status, …)` that the status lies in 400-599 is not modelled. The check is in SvelteKit, which is not part of this model.
- `exampleTexts` (src/lib/stores/knobs.svelte.ts:34-105): static data.
- `vite.config.ts`: build configuration.
- Generate.ConstructPrompt: the flat one-string form of the template (system prompt + "\n\nSOURCE TEXT:\n" + …) is stated as the nine template lines joined by newlines. The two are the same text, but the solver cannot compare long string literals cheaply. For the same reason Generate.PromptLines leaves the closing instruction as `Split(ClosingInstruction, '\n')` and does not reduce it to one line.
- Knobs.KnobStore.RemoveCognitiveKnob: "repeating the call changes nothing" is stated for the list (`WithoutKnobIdempotent`, and an unchanged list when no knob has the id). A repeated call still saves the snapshot again.

## Findings

| source | as written | input that shows it | evidently intended | confidence | as-written member | corrected member |
|---|---|---|---|---|---|---|
| src/routes/api/generate/+server.ts:125-129 | The catch block re-raises an error only if it is an `Error` instance with a `status`. SvelteKit's `error(...)` throws an `HttpError`, a plain class that does not extend `Error`. So the 400 for a blank source and the 401, 429 and upstream-status errors raised inside the `try` are all replaced by 500 "Failed to generate response". | `{"sourceText": ""}` (or a provider answer with status 429) | the HTTP error reaches the caller with its own status and message, as the comment "Re-throw SvelteKit errors" says | medium: not executed; rests on SvelteKit's `HttpError` class, which is not part of this model | Generate.BlankSourceAsWritten | Generate.CatchTagged |
