# GTM-Wizard front end, modelled in Dafny

GTM-Wizard is a browser front end with two pages.

The **setup wizard** (`frontend/script.js`) walks through four steps:

1. pick a tracking goal;
2. pick ad-platform destinations;
3. type each destination's IDs;
4. submit to a backend.

The **CSV upload page** (`frontend/csvScript.js`) reads a CSV of GA4 events and their parameters. Through the Google Tag Manager (GTM) API it then creates:

- a workspace;
- a GA4 configuration tag;
- one data-layer variable per distinct parameter;
- for each distinct event, a custom-event trigger and a GA4 event tag.

The page collects what was created and what failed into `processedData`, and can download a JSON report of it.

The model has these modules:

- `Csv` models `parseCSV`: the header guard, row selection and parameter tokenising. It is a loop (`ParseCsv`, `CollectRecords`) proved against a specification function (`ParseSpec`).
- `GtmPayloads` holds the request bodies the `create*` methods post, and the fields the report reads back out of them.
- `GtmApi` models `GTMManager`.
  - Its token state is a class.
  - Each `create*` call is answered by an API *oracle*: a function from the call to its reply. The oracle stands for the real HTTP exchange.
  - `Outcome` is the value a `create*` method resolves to, or the message it throws.
- `Orchestrator` models `createGTMConfiguration`.
  - `Configure` is the specification: a fold over the deduplicated parameters and events.
  - The imperative loops (`CreateGtmConfiguration`, `CreateVariables`, `ProcessEvents`) are proved equal to it.
  - Lemmas state the call sequence, the counts, the error order and the bookkeeping maps.
- `CsvUpload` models the page's globals (`csvData`, `processedData`, `gtmConfig`, the Create button) as a class whose methods are the event handlers. It also models the `downloadProcessed` report.
- `Wizard` models the wizard.
  - The destination table, the field ids, the ID inputs and how they are collected into `pixels`, and `validateFormData` are functions.
  - The step machine is the class `WizardPage`.
- `Text`, `Seqs` and `Wrappers` are support modules. They model the JavaScript built-ins the core uses (`trim`, `split`, `replace`, `toLowerCase`, `Set`, `Map`, `filter`) and `Option`/`Result`.

Where the code behaves differently from what its names and comments suggest, the model follows the code:

- **Repeated event names.** A repeated event gets one trigger and one tag, at the position where its name first appears. The tag carries the parameters of the *last* row with that name, because `new Map(...)` keeps the last value set for a key. `UniqueEventsLastWins` and `ConfigureTags` state this.
- **`uniqueEvents` in the report** is `processedData.triggers.length`. It counts the triggers that were actually created, not the distinct names in the CSV.
- **A failed workspace.** The `Configuration failed: …` error is pushed into `processedData.errors` and the error is rethrown. The caller then runs `resetUpload`, which throws that data away (`ConfigureFatal`, `ProcessGtmConfiguration`).
- **`validateFormData` reads `pixels[dest][field]`**, a nested map. `collectIdData` builds a flat map from each destination to one string. `validateFormData` is never called in this file. It is modelled on its own nested shape (`FormError`), and `PixelsOf` models the flat map `collectIdData` builds.
- **An unknown destination** makes `generateIdInputs` throw when it reads `config.icon` (script.js line 134), before that destination's section is appended. No inputs are produced for it or for any destination after it (`GeneratedInputs`, `GeneratedInputsStop`). The exception escapes `nextStep` after `currentStep` has become 3, so the `input` listeners that run `validateStep3` are never attached. `WizardPage` records this in `inputsValidate`: when it is false, `TypeInput` leaves step 3's Next button as it was.
- **The initial state of the Next buttons** comes from the page's HTML, which is not part of this model. `WizardPage.constructor` assumes all three start disabled.

## Model

| member | source | states |
|---|---|---|
| Csv.ParseCsv | frontend/csvScript.js:427-458 | the parse equals `ParseSpec`: the header error, or the records of the selected data lines |
| Csv.CollectRecords | frontend/csvScript.js:440-457 | the record loop over `lines[1..]` collects exactly the records of the selected lines, in line order |
| Csv.HeaderValidation | frontend/csvScript.js:428-434 | the parse fails exactly when the trimmed header cells have fewer than two columns or lack either label; the error is then the fixed header message |
| Csv.RowSelection | frontend/csvScript.js:441-455 | a line contributes a record exactly when it has at least two cells and a non-blank name cell; the record is the trimmed name and the tokens of the trimmed parameter cell (none when that cell is missing) |
| Csv.RowsAppend | frontend/csvScript.js:440-457 | the records of two blocks of lines are the records of each block, concatenated |
| Csv.RowsSnoc | frontend/csvScript.js:440-457 | one more line adds at most its own record, at the end |
| Csv.Headers | frontend/csvScript.js:429 | there is one header per comma-separated cell |
| Csv.TokensWellFormed | frontend/csvScript.js:447-450 | every parameter token is non-empty and contains no whitespace or comma |
| Csv.TokensSeparated | frontend/csvScript.js:447-450 | a separator character splits the tokens: the tokens of `a + [c] + b` are the tokens of `a` followed by those of `b` |
| Csv.SeparatorRun | frontend/csvScript.js:447-450 | a run of two separators splits like one, so no empty token appears between them |
| Csv.TokensOfWord | frontend/csvScript.js:447-450 | a non-empty cell without separators is a single token |
| Csv.TokensOfEmpty | frontend/csvScript.js:446-450 | a missing or empty parameter cell gives no parameters |
| Csv.TokensOfJoin | frontend/csvScript.js:447-450 | round trip: joining well-formed tokens with commas and tokenising gives them back |
| Csv.LineRecordWellFormed | frontend/csvScript.js:442-455 | a selected line's record has a non-empty trimmed name and well-formed parameters |
| Csv.RecordsWellFormed | frontend/csvScript.js:440-457 | every parsed record is well formed |
| GtmPayloads.FindByKey | frontend/csvScript.js:837 | a found parameter is the FIRST in the list that carries the key; `None` means no parameter carries it |
| GtmPayloads.Unwrap | frontend/csvScript.js:321 | an unwrapped value is exactly what `{{` and `}}` enclosed |
| GtmPayloads.WorkspacePayloadShape | frontend/csvScript.js:144-147 | `WorkspacePayload`: the workspace name is `CSV Import - ` followed by the date, which strips back off; the description is the fixed text |
| GtmPayloads.VariableRoundTrip | frontend/csvScript.js:167-177 | `VariablePayload`: a `v` variable named `DLV - ` plus the parameter, whose single `name` TEMPLATE reads back as the parameter |
| GtmPayloads.TriggerRoundTrip | frontend/csvScript.js:206-226 | `TriggerPayload`: a `customEvent` trigger whose name minus `CE - ` is the event name, with one `equals` filter comparing `arg0` `{{_event}}` with `arg1` the event name |
| GtmPayloads.ConfigTagPayloadShape | frontend/csvScript.js:255-266 | `ConfigTagPayload`: a `gaawc` tag named `GA4 - Config` whose only parameter is the measurement id, with no event parameters, fired on the All Pages trigger `2147479553`, and whose name never reads as an event tag's |
| GtmPayloads.EventTagRoundTrip | frontend/csvScript.js:334 | the tag's name minus `GA4 - Event - ` is the event name |
| GtmPayloads.EventTagShape | frontend/csvScript.js:295-338 | `EventTagPayload`: a `gaawe` tag that posts `measurementId` and `eventName` first; the `eventParameters` list is present exactly when there are parameters; it fires on the given trigger only |
| GtmPayloads.UnwrapReference | frontend/csvScript.js:321 | a parameter's `{{DLV - p}}` reference names the variable created for `p` |
| GtmPayloads.EntryNamesOf | frontend/csvScript.js:310-323 | the `name` of each entry reads back as the parameter list |
| GtmPayloads.EntryValue | frontend/csvScript.js:318-322 | each entry's `value` is the reference to that parameter's variable |
| GtmPayloads.EntryReferencesOf | frontend/csvScript.js:310-323 | the entries reference exactly the variables `DLV - p` of the parameters, in order |
| GtmPayloads.EventTagParameters | frontend/csvScript.js:295-338 | the tag's parameter list reads back as the record's parameters and references their variables |
| GtmPayloads.FindEventParameters | frontend/csvScript.js:309-329 | the `eventParameters` entry is absent exactly when the parameter list is empty |
| GtmApi.Outcome | frontend/csvScript.js:135-363 | a `create*` call resolves exactly on a 2xx reply, to the new id and the posted body; a non-2xx message opens with the call's prefix and reads back the status code and text; a rejection rethrows its own message unchanged |
| GtmApi.StatusMessageStatus | frontend/csvScript.js:153 | a non-2xx message reads back: after the prefix and `": "` come exactly the decimal digits of the status, then a space and the status text |
| GtmApi.GtmManager.constructor | frontend/csvScript.js:19-23 | a new manager holds no token and is not authenticated |
| GtmApi.GtmManager.HandleAuthSuccess | frontend/csvScript.js:57-60 | after the OAuth callback the manager is authenticated and holds the token |
| GtmApi.GtmManager.LoadAccounts | frontend/csvScript.js:77-104 | refused with `Not authenticated with GTM` unless authenticated; succeeds exactly on a 2xx reply, with a missing list read as empty; the status or rejection message otherwise |
| GtmApi.GtmManager.LoadContainers | frontend/csvScript.js:106-133 | the same guard and reply handling for containers |
| Orchestrator.CreateGtmConfiguration | frontend/csvScript.js:629-718 | the run's data, calls and rethrown error equal `Configure` |
| Orchestrator.CreateVariables | frontend/csvScript.js:664-677 | the variable loop equals the fold of one variable step per distinct parameter |
| Orchestrator.ProcessEvents | frontend/csvScript.js:682-709 | the event loop equals the fold of one event step per distinct event |
| Orchestrator.ProcessEvent | frontend/csvScript.js:683-708 | one event: the trigger, then the tag only if the trigger was created; either failure records one event error |
| Orchestrator.UniqueEventsLastWins | frontend/csvScript.js:680 | the distinct events are the distinct names in first-seen order, each carried by the LAST record with that name |
| Orchestrator.UniqueEventsNoDup | frontend/csvScript.js:680 | no two distinct events share a name |
| Orchestrator.EventMapEntries | frontend/csvScript.js:680 | each entry of the events map is keyed by its record's name and holds the last such record |
| Orchestrator.AllParametersOf | frontend/csvScript.js:661 | a name is among the distinct parameters exactly when some record lists it |
| Orchestrator.ConfigureFatal | frontend/csvScript.js:642-645 | the run throws exactly when the workspace fails; it then rethrows that message after one call, and holds only the `Configuration failed: ` error |
| Orchestrator.ConfigureStart | frontend/csvScript.js:642-658 | otherwise the workspace is kept and the config tag is the second call, posted under the new workspace id |
| Orchestrator.ConfigureVariables | frontend/csvScript.js:661-677 | `createVariable` is called once per distinct parameter in first-seen order; created variables plus variable errors number the distinct parameters; `createdVariables` holds each variable under its parameter |
| Orchestrator.ConfigureEvents | frontend/csvScript.js:680-709 | `createTrigger` is called once per distinct event name in first-seen order; tags ≤ triggers ≤ names; tags plus event errors number the names; `createdTriggers` holds each trigger under its name |
| Orchestrator.ConfigureTags | frontend/csvScript.js:684-703 | every `createEventTag` call comes straight after the successful trigger for the same event, is fired by that trigger's id, and carries the last record of that name |
| Orchestrator.ConfigureErrorOrder | frontend/csvScript.js:648-709 | errors come in program order: at most one config-tag error, present exactly when the tag is missing, then variable errors, then event errors |
| Orchestrator.ConfigTagErrors | frontend/csvScript.js:648-658 | the config-tag step records one error exactly when the tag was not created |
| Orchestrator.VariablesPhaseFrame | frontend/csvScript.js:664-677 | the variable loop only appends `createVariable` calls and touches no trigger, tag or workspace |
| Orchestrator.VariablesPhaseParams | frontend/csvScript.js:664-677 | the variable loop calls `createVariable` for exactly its parameters, in order |
| Orchestrator.VariablesPhaseCount | frontend/csvScript.js:664-677 | each parameter adds one variable or one `Failed to create variable for ` error, and the old errors stay in front |
| Orchestrator.VariablesPhaseTracked | frontend/csvScript.js:672-673 | on distinct new parameters `createdVariables` stays in step with `variables` |
| Orchestrator.EventsPhaseFrame | frontend/csvScript.js:682-709 | the event loop keeps the workspace, config tag and variables, and only appends calls |
| Orchestrator.EventsPhaseTriggers | frontend/csvScript.js:682-709 | the event loop calls `createTrigger` for exactly its events' names, in order |
| Orchestrator.EventsPhaseVariables | frontend/csvScript.js:682-709 | the event loop makes no `createVariable` call |
| Orchestrator.EventsPhaseCount | frontend/csvScript.js:682-709 | each event adds one tag or one `Failed to process event ` error; new tags never outnumber new triggers |
| Orchestrator.EventsPhaseTracked | frontend/csvScript.js:691-692 | on distinct new names `createdTriggers` stays in step with `triggers` |
| Orchestrator.EventsPhaseTags | frontend/csvScript.js:684-703 | the event loop adds tag calls only right after their trigger call |
| CsvUpload.BuildReport | frontend/csvScript.js:805-852 | a report exists exactly when a workspace does; it has one row per variable, trigger and tag, and the errors unchanged |
| CsvUpload.ReportReadsBack | frontend/csvScript.js:834-848 | each variable row's `parameter` is the parameter it was created for; each trigger row's event name is its event; trigger rows name distinct events |
| CsvUpload.ReportOfData | frontend/csvScript.js:824-848 | the summary counts match the data: total events, variables plus variable errors, tags ≤ triggers ≤ names |
| CsvUpload.ReportOfRun | frontend/csvScript.js:629-718 | after a completed run the report exists, links the created workspace, and its variable rows name only CSV parameters, and its trigger and tag rows only CSV event names |
| Orchestrator.ConfigureTagNames | frontend/csvScript.js:694-704 | every tag a completed run created is named `GA4 - Event - ` plus one of the CSV's event names |
| Orchestrator.EventsPhaseTagNames | frontend/csvScript.js:683-708 | the event loop creates tags only for the names of its own events |
| CsvUpload.Page.constructor | frontend/csvScript.js:793-802 | a new page starts in the reset state |
| CsvUpload.Page.ResetUpload | frontend/csvScript.js:779-803 | the globals are cleared and the configuration form is gone |
| CsvUpload.Page.HandleFile | frontend/csvScript.js:401-425 | the file is accepted exactly when its type is `text/csv` or its name ends in `.csv`; a non-CSV file changes nothing; a CSV file that parses sets `csvData` and shows a disabled Create button; a header error resets the page |
| CsvUpload.Page.ApplyParsed | frontend/csvScript.js:416-422 | the hand-over of the parse result to the page state |
| CsvUpload.Page.ToggleCreateButton | frontend/csvScript.js:533-541 | the button is enabled when the form is shown, an account and container are chosen and the trimmed measurement id is non-empty; it is never disabled again |
| CsvUpload.Page.LoadGtmAccounts | frontend/csvScript.js:463-479 | a loaded account list replaces `gtmConfig.accounts`; a failure changes nothing |
| CsvUpload.Page.HandleAccountChange | frontend/csvScript.js:494-515 | an empty choice changes nothing; otherwise the account is stored even when loading its containers fails |
| CsvUpload.Page.HandleContainerChange | frontend/csvScript.js:526-529 | the container is stored and the button is re-evaluated |
| CsvUpload.Page.ProcessGtmConfiguration | frontend/csvScript.js:604-627 | the trimmed measurement id is stored; the run starts exactly when account, container, id and authentication are all present; a completed run's data becomes `processedData`; a thrown run resets the page |
| CsvUpload.Page.ApplyRun | frontend/csvScript.js:619-626 | the hand-over of the run result to the page state |
| CsvUpload.Page.DownloadProcessed | frontend/csvScript.js:805-852 | the download is the report of the current state, absent without a workspace |
| Wizard.RequirementOf | frontend/script.js:14-45 | exactly the five known destinations have requirements, each with at least one field and a description per field |
| Wizard.IconBackground | frontend/script.js:161-170 | the fixed colour of each known destination; the fallback exactly for unknown ones |
| Wizard.FieldIdShape | frontend/script.js:140 | a field id is the destination, `_`, then the field with whitespace runs as `_`, lower-cased; the suffix has no whitespace and no capitals |
| Wizard.FieldIdOfPlainField | frontend/script.js:140 | a field without whitespace or capitals is kept as it is |
| Wizard.InputsFor | frontend/script.js:139-148 | one empty input per field of a destination, with its derived id |
| Wizard.GeneratedInputs | frontend/script.js:123-152 | every generated input belongs to a chosen destination and starts empty |
| Wizard.GeneratedInputsCons | frontend/script.js:126-152 | a known destination contributes one empty input per required field, in field order, ahead of the destinations after it |
| Wizard.GeneratedInputsAppend | frontend/script.js:126-152 | after known destinations, the inputs of a list split at any point are those of each part, concatenated |
| Wizard.GeneratedInputsOfAllKnown | frontend/script.js:123-152 | on known destinations the inputs are exactly the inputs of each destination's fields, concatenated in list order |
| Wizard.GeneratedInputsStop | frontend/script.js:127-134 | the first unknown destination ends the inputs: the result is the inputs of the known destinations before it |
| Wizard.GeneratedInputsOfKnown | frontend/script.js:123-152 | for known destinations each input is a field of its destination, with that field's id |
| Wizard.AllFilledIff | frontend/script.js:172-178 | step 3 is complete exactly when every input's trimmed value is non-empty |
| Wizard.PixelsOfDomain | frontend/script.js:180-192 | a destination is in `pixels` exactly when it has a `Pixel ID` or `Measurement ID` input |
| Wizard.PixelsOfValue | frontend/script.js:180-192 | its value is the trimmed value of the LAST such input |
| Wizard.FirstMissingField | frontend/script.js:340-349 | the first field without a value, or none when all have values |
| Wizard.MissingMessage | frontend/script.js:336-351 | a destination yields a message exactly when one of its required fields is missing |
| Wizard.FirstMissingNoneIff | frontend/script.js:336-351 | no destination message exactly when every chosen destination is complete |
| Wizard.FormErrorNoneIff | frontend/script.js:330-352 | the form passes exactly when a goal is set, a destination is chosen and all are complete |
| Wizard.FirstMissingNames | frontend/script.js:336-351 | the message reported is that of the FIRST incomplete destination |
| Wizard.ValidateFormData | frontend/script.js:330-352 | the loops throw exactly the message `FormError` gives, or none |
| Wizard.CheckDestination | frontend/script.js:337-350 | the inner loop finds exactly the destination's missing-field message |
| Wizard.MissingFieldAt | frontend/script.js:342-349 | the loop's exit index is the first missing field |
| Wizard.WizardPage.constructor | frontend/script.js:3-11 | the wizard starts at step 1 with an empty form and no reply; the Next buttons start disabled (an assumption about the page's HTML) |
| Wizard.WizardPage.NextStep | frontend/script.js:85-102 | the step grows by one up to 4; reaching step 3 regenerates the inputs from the chosen destinations, and they validate on typing exactly when every destination is known |
| Wizard.WizardPage.PrevStep | frontend/script.js:104-121 | the step shrinks by one down to 1; nothing else changes |
| Wizard.WizardPage.SelectTrackingGoal | frontend/script.js:50-54 | the goal is stored, and step 1's Next is disabled exactly when it is empty |
| Wizard.WizardPage.ToggleDestination | frontend/script.js:66-81 | a check appends the destination; an uncheck removes every copy; step 2's Next is disabled exactly when none remain |
| Wizard.WizardPage.ValidateStep3 | frontend/script.js:172-178 | step 3's Next is disabled exactly when some input is blank |
| Wizard.WizardPage.TypeInput | frontend/script.js:155-158 | typing into one input changes only its value, and re-runs the step 3 check when the listeners were attached |
| Wizard.WizardPage.CollectIdData | frontend/script.js:180-192 | `pixels` is replaced by the map collected from the inputs |
| Wizard.WizardPage.SubmitData | frontend/script.js:194-223 | the pixels are collected; a reply stores the response and moves to step 4; an error changes neither |
| Wizard.WizardPage.ResetWizard | frontend/script.js:354-408 | back to step 1 with an empty form, no response, no inputs and step 1's Next disabled |

## Left out

- Network, DOM and browser APIs are not modelled: `fetch`, `FileReader`, alerts, the OAuth popup (`authenticate`), and rendering (`showConfigurationForm`, `showResults`, the dropdowns, icons, loading states). Each reply is a parameter: the GTM oracle, `ListReply`, or the wizard's `Result<ConfigResponse>`.
- `callBackendAPI`, `downloadJSON`, `cleanup` and `applyToGTM` of `script.js` are not modelled. They only talk to the backend or the browser, so their replies are parameters.
- `GtmApi.Outcome`: the created resource is its id plus the body that was posted. This assumes the API echoes the name and parameters it was sent. A `response.json()` that fails is not modelled.
- The list request URLs and the `Authorization` header are not modelled. The list calls' replies are parameters.
- `new Date()` is not modelled. The workspace name's date is a parameter, and the report's `timestamp` is left out.
- Asynchronous interleaving is not modelled. Each handler runs to completion, and the partly built `processedData` seen during the awaits is not observable in the model.
- `GtmApi.GtmManager.HandleAuthSuccess` does not model the copy of the token into `gtmConfig.accessToken` (line 61). The page reads the manager's `isAuthenticated` instead.
- `Text.Lower` lower-cases ASCII letters only. `toLowerCase` maps all of Unicode.
- `Wizard.PixelsOf`, `Wizard.RequirementOf` and `Wizard.IconBackground` do not treat a destination named like an `Object.prototype` member (such as `constructor` or `__proto__`) specially. In the source, `destinationRequirements[dest]` and `backgrounds[dest]` find an inherited, truthy value for such a name. The model treats it as unknown.
- `Wizard.WizardPage.NextStep` does not model the step display. When `generateIdInputs` throws, step 3 is never marked active (script.js lines 99-100), although `currentStep` is 3.
- `CsvUpload.Page.ResetUpload` models `processedData = []` as "no data". Only its effect on `downloadProcessed` is observable, namely that no report is built.
