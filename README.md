# hack-mvp core, modelled in Dafny

hack-mvp is a browser application that turns a hackathon idea into project material. It does this
with an AI chat gateway, in a six-step wizard:

1. idea refiner;
2. prompt builder;
3. pitch deck;
4. video script;
5. MVP kit;
6. checklist.

There are also two stand-alone generators, one for UI components and one for test cases. Further
pages track saved checklists and edit the user profile. Everything the application keeps is
written to the browser's local storage.

This project models:

- **the API service** (`Api`). This covers:
  - the system persona put in front of a conversation;
  - the missing-key failure;
  - the first fenced block as the JSON candidate of a structured reply (`Fences`: the
    regular expression `` ```(?:json)?\s*([\s\S]+?)\s*``` `` is modelled as a scan);
  - the four structured generations with their error prefixes;
  - prompt generation;
  - component generation, whose reply is cleaned of code fences;
  - test generation per test type, with the code cut to 2000 UTF-16 code units.
- **the storage layer** (`LocalStorage`). A `Storage` class holds a key/value map and the error a
  write may raise. It covers the five collections (projects, chat history, components, tests and
  checklists), update-by-id, delete-by-id and the profile entry.
- **the wizard** (`Dashboard`, `Workflow`). This covers the step index with next, previous and
  jump, and the workflow record. The record is restored on mount and merged, then written through
  to storage, on every update.
- **each wizard step as a class** (`IdeaRefinerStep`, `PromptBuilderStep`, `PitchDeckStep`,
  `VideoScriptStep`, `MvpKitStep`, `ChecklistStep`). Each one models:
  - the step's own state;
  - its guards;
  - the auto-generation on mount;
  - what a reply and what a failure leave behind, both on screen and in storage;
  - its download names.
- **the checklist page** (`ChecklistTracking`). It covers toggling one task, the completed and
  total counts, and delete with the selection reset.
- **the two generators** (`ComponentForm`, `TestCaseForm`), with their validation rules and
  download names.
- **the profile page** (`Profile`). It covers load from storage or from the identity provider,
  field edits, save and cancel.

The outside world enters as values:

- The HTTP round trip to the chat gateway is the function `Gateway.transport`.
- Parsing the JSON of a structured reply is one parse function per result type in the
  `Gateway`.
- Clock readings and generated ids are method parameters.
- The signed-in user is an `Option<AuthUser>`.
- A storage write that raises is `Storage.writeError`.

## Model

| member | source | states |
|---|---|---|
| Text.TrimEmptyIff | src/components/dashboard/IdeaRefiner.tsx:24 | an input trims to the empty string exactly when it is all white space, which is what every `!x.trim()` guard tests |
| Text.TrimResult | src/services/api.ts:381 | a trimmed text starts and ends with a non-space character (or is empty), and trimming twice changes nothing |
| Text.ToLower | src/components/dashboard/PitchDeckGenerator.tsx:48 | lower-casing keeps the length and maps every character on its own |
| Text.HyphenateSpaces | src/components/dashboard/PitchDeckGenerator.tsx:48 | replacing white-space runs with a hyphen leaves no white space and never lengthens the text |
| Text.HyphenateAllSpace | src/components/dashboard/PitchDeckGenerator.tsx:48 | a non-empty run of white space on its own becomes exactly one hyphen |
| Text.HyphenateConcat | src/components/dashboard/PitchDeckGenerator.tsx:48 | where a cut does not fall inside a white-space run, the two sides are hyphenated separately and joined |
| Text.HyphenateSplit | src/components/dashboard/PitchDeckGenerator.tsx:48 | each maximal white-space run becomes exactly one hyphen between the hyphenated text before it and after it; with HyphenateSpacesFixed this fixes the result completely |
| Text.SlugSplit | src/components/dashboard/PitchDeckGenerator.tsx:48 | the slug also turns each maximal white-space run into one hyphen, lower-casing the two sides separately |
| Text.HyphenateSpacesFixed | src/components/dashboard/PitchDeckGenerator.tsx:48 | the replacement leaves a text unchanged exactly when the text has no white space |
| Text.SlugProperties | src/components/dashboard/PitchDeckGenerator.tsx:48 | a file-name slug has no white space, is no longer than its input, and slugging it again changes nothing |
| Text.SlugFileNameHasNoSpace | src/components/dashboard/PitchDeckGenerator.tsx:48 | a slug followed by a space-free suffix is a space-free download name |
| Text.Or | src/components/profile/ProfilePage.tsx:41-45 | `a \|\| b` on strings picks one of the two, and is empty only when both are |
| Text.Utf16Length | src/components/generators/ComponentGenerator.tsx:38 | `length` counts UTF-16 code units: between one and two per character, and one per character exactly when no character lies above U+FFFF |
| Text.WideLength | src/components/generators/TestCaseGenerator.tsx:52 | a text of characters above U+FFFF has twice as many code units as characters |
| Fences.CloseAtIff | src/services/api.ts:89 | the closing part `\s*` followed by three backticks matches at a position exactly when a fence follows the white-space run there |
| Fences.LazyEnd | src/services/api.ts:89 | the lazy body ends at the first position where the closing part matches, and nowhere earlier |
| Fences.Search | src/services/api.ts:89 | a match found starts at an opening fence at or after the start, and its capture ends where a closing part matches |
| Fences.SearchSkips | src/services/api.ts:89 | positions with no opening fence are skipped: the search from before them finds what the search from after them finds |
| Fences.BlockIffFencePair | src/services/api.ts:89-90 | a reply has a fenced block exactly when it holds two fences with at least one character between them |
| Fences.NoBlockWholeReply | src/services/api.ts:89-90 | without such a pair of fences the whole reply is the JSON candidate |
| Fences.LeadIsTrimmedBody | src/services/api.ts:89-90 | when the body before the first closing fence is not blank, the capture is exactly that body, trimmed |
| Fences.CandidateIsTrimmedBody | src/services/api.ts:89-90 | for the first opening fence and the first fence after its body, the candidate is the trimmed text between them |
| Fences.WordRun | src/services/api.ts:381 | the language tag after an opening fence is the longest run of word characters and hyphens |
| Fences.RemoveFencesTicks | src/services/api.ts:381 | deleting every triple backtick leaves as many leading backticks as the count modulo three |
| Fences.RemoveFencesLeavesNone | src/services/api.ts:381 | after the last replacement no triple backtick is left |
| Fences.CleanCodeProperties | src/services/api.ts:381 | cleaned code has no fence and no surrounding white space |
| Fences.ReplacementsFixFenceFree | src/services/api.ts:381 | the three replacements change nothing in a text without a fence |
| Fences.CleanCodeOfPlainReply | src/services/api.ts:381 | a fence-free reply is only trimmed |
| Fences.CleanCodeIdempotent | src/services/api.ts:381 | cleaning cleaned code changes nothing |
| Api.WithSystemPrompt | src/services/api.ts:111-116 | the sent conversation starts with a system message. The given messages follow it unchanged. The persona is added exactly when the conversation does not already start with a system message |
| Api.WithSystemPromptIdempotent | src/services/api.ts:111-116 | adding the persona twice is the same as adding it once |
| Api.SendMessage | src/services/api.ts:106-109 | without an API key the call fails with the missing-key error |
| Api.NoRequestWithoutKey | src/services/api.ts:107-109 | without an API key the transport is never consulted: any other transport gives the same result |
| Api.RequestSent | src/services/api.ts:111-131 | with a key, the result is the transport's answer to the conversation with the persona in front |
| Api.ExtractFromBlock | src/services/api.ts:87-99 | with a fenced block present, the parser sees the block's trimmed body |
| Api.ExtractWithoutBlock | src/services/api.ts:87-99 | without a fenced block, the parser sees the whole reply |
| Api.Structured | src/services/api.ts:177-190 | a structured generation succeeds exactly when the request succeeds and the candidate parses, and the value is the parse. A failure carries the generation's prefix and either the request's message or the parse error |
| Api.GenerateMvpKit | src/services/api.ts:154-191 | every failure is a thrown error whose message starts with the MVP-kit prefix; without a key it is the prefixed missing-key message |
| Api.GeneratePitchDeck | src/services/api.ts:199-238 | every failure is a thrown error with the pitch-deck prefix; without a key it is the prefixed missing-key message |
| Api.GenerateVideoScript | src/services/api.ts:246-282 | every failure is a thrown error with the video-script prefix; without a key it is the prefixed missing-key message |
| Api.GenerateChecklist | src/services/api.ts:289-327 | every failure is a thrown error with the checklist prefix; without a key it is the prefixed missing-key message |
| Api.MvpKitParseFailure | src/services/api.ts:181-189 | a reply whose candidate does not parse fails with the prefixed parse-error message |
| Api.GeneratePrompt | src/services/api.ts:335-349 | the prompt is the transport's answer to the request as built, which already opens with a system message; without a key it fails with the missing-key error |
| Api.FrameworkName | src/services/api.ts:358-365 | the framework named in the request is one of the table's names. An unknown id gets the default |
| Api.GenerateComponent | src/services/api.ts:357-386 | a component succeeds exactly when the request succeeds, and its code is the reply cleaned of fences; a failure carries the component prefix and the request's message |
| Api.ComponentCodeIsClean | src/services/api.ts:378-381 | generated component code holds no fence and no surrounding white space |
| Api.Prefix | src/services/api.ts:407-409 | the code sent is a prefix of the input of at most the limit in UTF-16 code units, and the whole input when that fits |
| Api.PrefixMaximal | src/services/api.ts:407-409 | a cut that stops short of the whole input stops only where the next character would not fit |
| Api.TestEntryShape | src/services/api.ts:419-426 | a test type's entry is the cleaned reply when the request succeeds. On a failure it is a comment naming the type and the error |
| Api.TestEntryUsesPrefix | src/services/api.ts:406-410 | inputs whose cut prefixes agree get the same entries |
| Api.TestRequestSentAsIs | src/services/api.ts:414-417 | test requests already open with their own system message, so no persona is added |
| Api.GenerateTests | src/services/api.ts:394-430 | the result has an entry for exactly the requested types that are known test types, each the entry for that type; unknown types are skipped |
| Workflow.Merge | src/components/dashboard/Dashboard.tsx:69 | merging a partial record takes each field the partial carries and keeps every other field |
| Workflow.MergeIdempotent | src/components/dashboard/Dashboard.tsx:69 | merging the same partial twice is merging it once |
| Workflow.MergeThen | src/components/dashboard/Dashboard.tsx:67-78 | two successive updates are one update with the later fields winning |
| Workflow.MergeDisjointCommute | src/components/dashboard/Dashboard.tsx:69 | updates that set different fields can be applied in either order |
| Records.PatchProject | src/utils/localStorage.ts:91 | an updated project takes each field the update carries, keeps the rest, and is stamped with the update time |
| Records.PatchChecklist | src/utils/localStorage.ts:211 | an updated checklist record takes each field the update carries, keeps the rest, and is stamped with the update time |
| Records.PatchWithWholeChecklist | src/utils/localStorage.ts:211 | updating with a whole record gives that record with a fresh update time |
| LocalStorage.Lookup | src/utils/localStorage.ts:9-17 | a read gives null for a missing key, an empty entry, one that does not parse, and a stored `null`; otherwise it gives the stored value |
| LocalStorage.FirstIndex | src/utils/localStorage.ts:89 | `findIndex` gives the first position with the id, or none exactly when no element has it |
| LocalStorage.WithoutId | src/utils/localStorage.ts:100 | filtering out an id never lengthens the list, and keeps its length exactly when no element has the id |
| LocalStorage.WithoutIdMembers | src/utils/localStorage.ts:100 | the filtered list holds exactly the elements whose id differs |
| LocalStorage.WithoutIdConcat | src/utils/localStorage.ts:100 | filtering distributes over concatenation, so the order of the kept elements is preserved |
| LocalStorage.WithoutAbsentId | src/utils/localStorage.ts:98-106 | filtering out an id nobody has gives the same list back |
| LocalStorage.DeleteShrinks | src/utils/localStorage.ts:98-106 | the filter shortens the list exactly when some element has the id; otherwise the list is unchanged |
| LocalStorage.ChecklistUpdatedContents | src/utils/localStorage.ts:207-216 | an update replaces the first record with the id by its patch and keeps every other record and the length |
| LocalStorage.CollectionsIndependent | src/utils/localStorage.ts:1-6 | a write under any key other than a collection's own key leaves that collection as it reads, for each of the five collections |
| LocalStorage.KeysDistinct | src/utils/localStorage.ts:1-6 | the five collection keys, the workflow key and every user's profile key are pairwise different, so a write to any one of them leaves every collection but its own as it reads |
| LocalStorage.Storage.TrySet | src/utils/localStorage.ts:21 | a write stores the value unless the store raises, in which case nothing changes and the error is reported |
| LocalStorage.Storage.Set | src/utils/localStorage.ts:19-25 | a write stores the value, or changes nothing when the store raises |
| LocalStorage.Storage.Remove | src/utils/localStorage.ts:27-33 | the key is gone unless the store raises |
| LocalStorage.Storage.Clear | src/utils/localStorage.ts:35-41 | the store is empty unless it raises |
| LocalStorage.Storage.AddProject | src/utils/localStorage.ts:74-85 | the new project carries the draft's fields, the id and the times, and the list becomes the old list with it appended |
| LocalStorage.Storage.UpdateProject | src/utils/localStorage.ts:87-96 | no result and no write exactly when no project has the id; otherwise the result is the first such project patched |
| LocalStorage.Storage.DeleteProject | src/utils/localStorage.ts:98-106 | deletion happens exactly when some project has the id, and writes the list without it; otherwise nothing is written |
| LocalStorage.Storage.AddMessage | src/utils/localStorage.ts:112-121 | the chat history becomes the old history with the message appended |
| LocalStorage.Storage.ClearHistory | src/utils/localStorage.ts:123-125 | the history entry is removed and the history reads as empty |
| LocalStorage.Storage.AddComponent | src/utils/localStorage.ts:150-154 | the component list gets the component appended |
| LocalStorage.Storage.AddTest | src/utils/localStorage.ts:160-164 | the test list gets the suite appended |
| LocalStorage.Storage.DeleteComponent | src/utils/localStorage.ts:170-178 | deletion happens exactly when some component has the id, and writes the list without it |
| LocalStorage.Storage.DeleteTest | src/utils/localStorage.ts:180-188 | deletion happens exactly when some suite has the id, and writes the list without it |
| LocalStorage.Storage.AddChecklist | src/utils/localStorage.ts:194-205 | the new record carries the draft, the id and the times, and the list becomes the old list with it appended |
| LocalStorage.Storage.UpdateChecklist | src/utils/localStorage.ts:207-216 | no result and no write exactly when no record has the id; otherwise the result is the first such record patched |
| LocalStorage.Storage.DeleteChecklist | src/utils/localStorage.ts:218-226 | deletion happens exactly when some record has the id, and writes the list without it |
| Dashboard.NextStep | src/components/dashboard/Dashboard.tsx:55-59 | next moves one step on and stays within the table; it is a no-op exactly at the last step |
| Dashboard.PreviousStep | src/components/dashboard/Dashboard.tsx:61-65 | previous moves one step back; it is a no-op exactly at the first step |
| Dashboard.NextThenPrevious | src/components/dashboard/Dashboard.tsx:55-65 | next then previous returns to any step before the last |
| Dashboard.PreviousThenNext | src/components/dashboard/Dashboard.tsx:55-65 | previous then next returns to any step after the first |
| Dashboard.Restored | src/components/dashboard/Dashboard.tsx:32-51 | the wizard starts from the stored workflow record when one parses, and from the empty record otherwise |
| Dashboard.RestoreAfterWrite | src/components/dashboard/Dashboard.tsx:67-78 | a record written by an update is the one the next mount restores |
| Dashboard.Wizard.constructor | src/components/dashboard/Dashboard.tsx:31-51 | the wizard opens on the first step with the restored record |
| Dashboard.Wizard.CanGoNext | src/components/dashboard/Dashboard.tsx:135 | the next flag is set exactly when next would move |
| Dashboard.Wizard.CanGoPrevious | src/components/dashboard/Dashboard.tsx:136 | the previous flag is set exactly when previous would move |
| Dashboard.Wizard.Next | src/components/dashboard/Dashboard.tsx:55-59 | the step index moves as next says and stays within the table |
| Dashboard.Wizard.Previous | src/components/dashboard/Dashboard.tsx:61-65 | the step index moves as previous says |
| Dashboard.Wizard.GoTo | src/components/dashboard/Dashboard.tsx:80-82 | a jump lands on the requested step |
| Dashboard.Wizard.UpdateWorkflowData | src/components/dashboard/Dashboard.tsx:67-78 | the record becomes the merge, and the merged record is what storage holds under the workflow key |
| IdeaRefinerStep.ConversationGetsPersona | src/components/dashboard/IdeaRefiner.tsx:26-33 | the refiner's conversation never opens with a system message, so the persona always goes in front |
| IdeaRefinerStep.TwoAppends | src/components/dashboard/IdeaRefiner.tsx:38-39 | saving the user message and then the reply extends the history by both, in order |
| IdeaRefinerStep.IdeaRefiner.constructor | src/components/dashboard/IdeaRefiner.tsx:17-20 | the input starts with the workflow's idea and an empty, unrefined conversation |
| IdeaRefinerStep.IdeaRefiner.CanSubmit | src/components/dashboard/IdeaRefiner.tsx:24 | a submission goes ahead exactly when the idea is not blank and no request is pending |
| IdeaRefinerStep.IdeaRefiner.Submit | src/components/dashboard/IdeaRefiner.tsx:22-57 | a blocked submission changes nothing. After a reply, the conversation has both messages, both are in the history, and the workflow has the idea and the refinement. After a failure, only an apology is added. The input is cleared either way |
| IdeaRefinerStep.IdeaRefiner.Replied | src/components/dashboard/IdeaRefiner.tsx:33-47 | the reply closes the conversation, is saved after the user message, and becomes the refined description |
| IdeaRefinerStep.IdeaRefiner.Failed | src/components/dashboard/IdeaRefiner.tsx:48-53 | a failure adds the apology and keeps the conversation free of system messages |
| IdeaRefinerStep.IdeaRefiner.HandleNext | src/components/dashboard/IdeaRefiner.tsx:59-63 | the wizard moves on only after a refinement |
| PromptBuilderStep.PromptBuilder.constructor | src/components/dashboard/PromptBuilder.tsx:26-28 | the first project type is selected and the prompt shown is the workflow's |
| PromptBuilderStep.PromptBuilder.SelectProjectType | src/components/dashboard/PromptBuilder.tsx:90 | the selected project type is the one picked |
| PromptBuilderStep.PromptBuilder.Generate | src/components/dashboard/PromptBuilder.tsx:40-54 | without a refined description nothing happens. A reply becomes the prompt shown and the workflow's prompt. A failure shows the error text and leaves the workflow alone |
| PromptBuilderStep.PromptBuilder.Mount | src/components/dashboard/PromptBuilder.tsx:66-70 | mounting generates exactly when there is a refined description and no prompt yet |
| PromptBuilderStep.PromptBuilder.NextOffered | src/components/dashboard/PromptBuilder.tsx:171 | next is offered exactly when a prompt is on screen and a later step exists |
| PromptBuilderStep.PromptBuilder.ClickNext | src/components/dashboard/PromptBuilder.tsx:171-173 | clicking next advances exactly one step |
| PitchDeckStep.DownloadName | src/components/dashboard/PitchDeckGenerator.tsx:48 | the deck's download name is the slugged idea (each white-space run one hyphen, lower-cased) followed by the pitch-deck suffix, and has no white space |
| PitchDeckStep.PitchDeckGenerator.constructor | src/components/dashboard/PitchDeckGenerator.tsx:26-27 | the deck shown is the workflow's |
| PitchDeckStep.PitchDeckGenerator.Generate | src/components/dashboard/PitchDeckGenerator.tsx:29-42 | without a refined description nothing happens. A deck becomes the deck shown and the workflow's deck. A failure changes neither |
| PitchDeckStep.PitchDeckGenerator.Mount | src/components/dashboard/PitchDeckGenerator.tsx:56-60 | mounting generates exactly when there is a refined description and no deck yet |
| PitchDeckStep.PitchDeckGenerator.NextOffered | src/components/dashboard/PitchDeckGenerator.tsx:143 | next is offered exactly when a deck exists and a later step exists |
| PitchDeckStep.PitchDeckGenerator.ClickNext | src/components/dashboard/PitchDeckGenerator.tsx:143-145 | clicking next advances exactly one step |
| VideoScriptStep.DownloadName | src/components/dashboard/VideoScriptGenerator.tsx:48 | the script's download name is the slugged idea followed by the video-script suffix, and has no white space |
| VideoScriptStep.VideoScriptGenerator.constructor | src/components/dashboard/VideoScriptGenerator.tsx:26-27 | the script shown is the workflow's |
| VideoScriptStep.VideoScriptGenerator.Generate | src/components/dashboard/VideoScriptGenerator.tsx:29-42 | without a refined description nothing happens. A script becomes the script shown and the workflow's script. A failure changes neither |
| VideoScriptStep.VideoScriptGenerator.Mount | src/components/dashboard/VideoScriptGenerator.tsx:56-60 | mounting generates exactly when there is a refined description and no script yet |
| VideoScriptStep.VideoScriptGenerator.NextOffered | src/components/dashboard/VideoScriptGenerator.tsx:163 | next is offered exactly when a script exists and a later step exists |
| VideoScriptStep.VideoScriptGenerator.ClickNext | src/components/dashboard/VideoScriptGenerator.tsx:163-165 | clicking next advances exactly one step |
| MvpKitStep.ErrorText | src/components/dashboard/MVPKit.tsx:61 | a thrown error shows its own message; anything else shows the generic failure text |
| MvpKitStep.KitProject | src/components/dashboard/MVPKit.tsx:48-53 | the saved project takes the kit's title, description and stack, with the generated status |
| MvpKitStep.KitSavedContents | src/components/dashboard/MVPKit.tsx:44-53 | after a kit is saved, the project list has the new project at the end and the workflow reads back as written |
| MvpKitStep.DownloadName | src/components/dashboard/MVPKit.tsx:88 | the kit's download name is the slugged kit title followed by the MVP-kit suffix, and has no white space |
| MvpKitStep.MvpKitGenerator.constructor | src/components/dashboard/MVPKit.tsx:25-27 | the kit shown is the workflow's, with no error |
| MvpKitStep.MvpKitGenerator.Generate | src/components/dashboard/MVPKit.tsx:29-65 | without an idea and a refinement only the incomplete-data error is shown. A kit is shown, merged into the workflow and saved as a project. A failure shows its error text |
| MvpKitStep.MvpKitGenerator.Save | src/components/dashboard/MVPKit.tsx:43-57 | the kit is shown, merged into the workflow, and saved as a new generated project after the workflow write |
| MvpKitStep.MvpKitGenerator.Mount | src/components/dashboard/MVPKit.tsx:68-73 | mounting generates exactly when there is a refined description, no kit and no generation running; otherwise nothing changes. With the idea or the refinement missing it only sets the incomplete-data error: the kit, the workflow, the store and the generating flag stay as they were |
| MvpKitStep.MvpKitGenerator.Retry | src/components/dashboard/MVPKit.tsx:115-119 | retry runs the same generation, with the same guard. With the idea or the refinement missing it only sets the incomplete-data error: the kit, the workflow, the store and the generating flag stay as they were |
| MvpKitStep.MvpKitGenerator.FileName | src/components/dashboard/MVPKit.tsx:80-98 | a download name exists exactly when a kit does; it is the slugged kit title followed by the MVP-kit suffix and has no white space |
| MvpKitStep.MvpKitGenerator.HandleNext | src/components/dashboard/MVPKit.tsx:100-106 | the wizard moves on only once a kit exists |
| MvpKitStep.MvpKitGenerator.HandlePrevious | src/components/dashboard/MVPKit.tsx:108-113 | back always moves as previous says |
| ChecklistStep.SavedDraft | src/components/dashboard/ChecklistGenerator.tsx:35-40 | the saved record is titled by the idea and described by the refinement. It carries the workflow as it stood before the checklist was merged in |
| ChecklistStep.ChecklistSavedContents | src/components/dashboard/ChecklistGenerator.tsx:31-40 | after a checklist is saved, the list has the new record at the end and the workflow reads back as written |
| ChecklistStep.DownloadName | src/components/dashboard/ChecklistGenerator.tsx:52 | the checklist's download name is the slugged idea followed by the checklist suffix, and has no white space |
| ChecklistStep.ChecklistGenerator.constructor | src/components/dashboard/ChecklistGenerator.tsx:22-23 | the checklist shown is the workflow's |
| ChecklistStep.ChecklistGenerator.Generate | src/components/dashboard/ChecklistGenerator.tsx:25-46 | without a refined description nothing happens. A checklist is shown, merged into the workflow and saved with the workflow. A failure changes nothing |
| ChecklistStep.ChecklistGenerator.Save | src/components/dashboard/ChecklistGenerator.tsx:30-40 | the checklist is shown, merged, and appended to the saved list after the workflow write |
| ChecklistStep.ChecklistGenerator.Mount | src/components/dashboard/ChecklistGenerator.tsx:60-65 | mounting generates exactly when there is a refined description and an MVP kit, no checklist yet and no generation running |
| ChecklistStep.ChecklistGenerator.FileName | src/components/dashboard/ChecklistGenerator.tsx:48-58 | the download name is the slugged idea followed by the checklist suffix and has no white space |
| ChecklistStep.ChecklistGenerator.HandlePrevious | src/components/dashboard/ChecklistGenerator.tsx:148-150 | back always moves as previous says |
| ChecklistTracking.ToggleTask | src/pages/ChecklistPage.tsx:24-25 | toggling flips whether a task counts as done, sets the flag, and keeps the task's text |
| ChecklistTracking.ToggleTaskTwice | src/pages/ChecklistPage.tsx:24-25 | toggling twice restores whether the task is done |
| ChecklistTracking.ToggleAt | src/pages/ChecklistPage.tsx:23-25 | only the addressed item of the addressed category changes; every other category and item, and the shape, stay |
| ChecklistTracking.ToggleAtTwice | src/pages/ChecklistPage.tsx:24-25 | toggling the same item twice restores every item's done state |
| ChecklistTracking.CompletedIn | src/pages/ChecklistPage.tsx:91 | the completed count never exceeds the item count, and is zero exactly when no item is done |
| ChecklistTracking.CompletedAtMostTotal | src/pages/ChecklistPage.tsx:87-92 | the completed total never exceeds the item total, so progress stays within 100% |
| ChecklistTracking.CompletedInUpdate | src/pages/ChecklistPage.tsx:90-92 | replacing one item moves the completed count by that item's change alone |
| ChecklistTracking.ItemsUpdate | src/pages/ChecklistPage.tsx:87-92 | replacing one category moves both totals by that category's change alone |
| ChecklistTracking.ToggleMovesCount | src/pages/ChecklistPage.tsx:87-92 | a toggle keeps the item total and moves the completed total by exactly one, down for a done item and up otherwise |
| ChecklistTracking.ToggledElements | src/pages/ChecklistPage.tsx:21-30 | the mapped list keeps its length. Each record with the id is toggled and each other record is unchanged |
| ChecklistTracking.ToggleStep | src/pages/ChecklistPage.tsx:21-30 | the map and its writes grow one record at a time |
| ChecklistTracking.SingleToggleWrite | src/pages/ChecklistPage.tsx:20-32 | with one record carrying the id, the toggle is one storage update of that record, whole |
| ChecklistTracking.NoToggleWrite | src/pages/ChecklistPage.tsx:21-30 | with no record carrying the id, storage is untouched |
| ChecklistTracking.ChecklistPage.constructor | src/pages/ChecklistPage.tsx:7-8 | the page shows the stored checklists with nothing selected |
| ChecklistTracking.ChecklistPage.Select | src/pages/ChecklistPage.tsx:103 | the clicked record becomes the selection |
| ChecklistTracking.ChecklistPage.SelectedData | src/pages/ChecklistPage.tsx:56 | the detail record is the first listed record with the selected id, as `find` returns; there is none exactly when nothing is selected or no record has the id |
| ChecklistTracking.ChecklistPage.Toggle | src/pages/ChecklistPage.tsx:20-32 | the list becomes the mapped list, with the length kept, and storage receives one whole-record update per matching record |
| ChecklistTracking.ChecklistPage.Delete | src/pages/ChecklistPage.tsx:10-18 | without confirmation nothing changes. With it, the store holds the filtered checklist list under the checklist key when some record had the id, every other key untouched, and is unchanged otherwise or when the write raises. The list is re-read from storage: it no longer holds the id after a write, and stays as it was after a raise. A selection of that id is dropped while any other selection is kept |
| ChecklistTracking.ChecklistPage.FileName | src/pages/ChecklistPage.tsx:34-44 | a checklist's download name is its slugged title followed by the checklist suffix and has no white space |
| ComponentForm.Validate | src/components/generators/ComponentGenerator.tsx:32-41 | a blank description gets the empty-description error. A non-blank one over 500 UTF-16 code units gets the too-long error. Otherwise the description passes |
| ComponentForm.WideDescriptionTooLong | src/components/generators/ComponentGenerator.tsx:38-41 | a description of more than 250 characters above U+FFFF is rejected as too long |
| ComponentForm.LabelInFirstMatch | src/components/generators/ComponentGenerator.tsx:47-54 | the label is the name of the first framework with the id, or the id itself when none has it |
| ComponentForm.FrameworkLabelFallback | src/components/generators/ComponentGenerator.tsx:47-54 | a known framework id is labelled with its table name; an unknown one with the id |
| ComponentForm.Extension | src/components/generators/ComponentGenerator.tsx:87-88 | the extension is `dart` exactly for Flutter and `tsx` for everything else |
| ComponentForm.ComponentGenerator.constructor | src/components/generators/ComponentGenerator.tsx:24-30 | the form starts empty on the first framework, with nothing generated and no error |
| ComponentForm.ComponentGenerator.SetDescription | src/components/generators/ComponentGenerator.tsx:155 | the description is the text typed |
| ComponentForm.ComponentGenerator.SelectFramework | src/components/generators/ComponentGenerator.tsx:134 | the selected framework is the one clicked |
| ComponentForm.ComponentGenerator.Generate | src/components/generators/ComponentGenerator.tsx:32-70 | a description that fails validation shows its error and changes nothing else. Otherwise the reply is applied |
| ComponentForm.ComponentGenerator.Apply | src/components/generators/ComponentGenerator.tsx:43-69 | a reply becomes a component that is shown and appended to storage. A failure shows the generic error. Generation ends either way |
| ComponentForm.ComponentGenerator.Save | src/components/generators/ComponentGenerator.tsx:59-62 | the component is shown and appended to the stored list |
| ComponentForm.ComponentGenerator.FileName | src/components/generators/ComponentGenerator.tsx:84-89 | there is a download name exactly when there is a component, and it names the component and ends in the extension |
| TestCaseForm.ToggledMembership | src/components/generators/TestCaseGenerator.tsx:33-39 | toggling a type flips its membership and leaves every other type's membership alone |
| TestCaseForm.ToggledKeepsOthers | src/components/generators/TestCaseGenerator.tsx:33-39 | toggling a type keeps the other types in their order |
| TestCaseForm.ToggleTwice | src/components/generators/TestCaseGenerator.tsx:33-39 | toggling twice gives back the same types, and the same list when the type was absent |
| TestCaseForm.ToggledDistinct | src/components/generators/TestCaseGenerator.tsx:33-39 | toggling keeps a selection free of duplicates |
| TestCaseForm.NothingLeft | src/components/generators/TestCaseGenerator.tsx:36 | unselecting removes every copy of the type |
| TestCaseForm.UnselectDistinct | src/components/generators/TestCaseGenerator.tsx:36 | unselecting keeps a selection free of duplicates |
| TestCaseForm.Validate | src/components/generators/TestCaseGenerator.tsx:41-55 | the checks run in order: blank code first, then no type selected, then code over 2000 UTF-16 code units; code that passes all three is accepted |
| TestCaseForm.Extension | src/components/generators/TestCaseGenerator.tsx:95-101 | a known type gets its table extension; any other type gets the text `undefined` |
| TestCaseForm.ExtensionsCoverTestTypes | src/components/generators/TestCaseGenerator.tsx:95-99 | the extension table covers exactly the test types the service generates |
| TestCaseForm.TestCaseGenerator.constructor | src/components/generators/TestCaseGenerator.tsx:26-31 | the form starts with no code, unit tests selected, nothing generated and no error |
| TestCaseForm.TestCaseGenerator.SetCode | src/components/generators/TestCaseGenerator.tsx:179 | the code is the text typed |
| TestCaseForm.TestCaseGenerator.ToggleTestType | src/components/generators/TestCaseGenerator.tsx:33-39 | the selection is toggled, so the type is selected exactly when it was not |
| TestCaseForm.TestCaseGenerator.Generate | src/components/generators/TestCaseGenerator.tsx:41-82 | input that fails validation shows its error and changes nothing else. Otherwise the suite records the code, the selection and one entry per known selected type, and is shown and appended to storage |
| TestCaseForm.TestCaseGenerator.SuiteId | src/components/generators/TestCaseGenerator.tsx:101 | the file name carries the suite's id, or `undefined` when there is no suite |
| TestCaseForm.TestCaseGenerator.FileName | src/components/generators/TestCaseGenerator.tsx:94-101 | the file name starts with the type and the suite id and ends in the type's extension |
| Profile.WithField | src/components/profile/ProfilePage.tsx:93-95 | an edit sets one field and keeps every other |
| Profile.Initial | src/components/profile/ProfilePage.tsx:17-23 | the form starts from the signed-in user's name and e-mail, with the other fields empty |
| Profile.FromStored | src/components/profile/ProfilePage.tsx:40-46 | a stored profile is used as is, except that an empty name or e-mail falls back to the provider's |
| Profile.FromProvider | src/components/profile/ProfilePage.tsx:47-53 | without a stored profile the name and e-mail come from the provider, and the other fields are kept |
| Profile.SaveThenLoad | src/components/profile/ProfilePage.tsx:37-70 | a saved profile with a name and an e-mail loads back unchanged |
| Profile.SaveThenLoadBlank | src/components/profile/ProfilePage.tsx:37-70 | any saved profile loads back with an empty name or e-mail replaced by the provider's |
| Profile.ProfilePage.constructor | src/components/profile/ProfilePage.tsx:17-27 | the page starts from the initial profile, not editing, with no messages |
| Profile.NullProfileFails | src/components/profile/ProfilePage.tsx:37-57 | a stored `null` profile is not loaded: the field read throws, and the load fails |
| Profile.ProfilePage.Load | src/components/profile/ProfilePage.tsx:33-59 | without a user nothing happens. Otherwise the profile becomes the loaded one, or stays as it is with the load error when the stored text does not parse or is `null` |
| Profile.ProfilePage.Change | src/components/profile/ProfilePage.tsx:93-95 | the edited field takes the new value and every other field stays |
| Profile.ProfilePage.Edit | src/components/profile/ProfilePage.tsx:147 | the form is in editing mode |
| Profile.ProfilePage.Save | src/components/profile/ProfilePage.tsx:61-83 | without a user nothing happens. Otherwise the profile is written under the user's key. A clean write shows the success text and ends editing. A raising write shows a non-empty error and keeps editing |
| Profile.ProfilePage.Cancel | src/components/profile/ProfilePage.tsx:85-91 | editing ends, the messages clear, and the profile is reloaded when a user is signed in |

## Left out

- The HTTP request, its headers and the JSON parse of a reply are the gateway's `transport` and parse functions. The model states what is sent and what is done with the answer, not what the service answers.
- The system prompts are abbreviated. The JSON-structure text that the structured requests spell out is not part of the request strings.
- Asynchrony and React effects are left out, and so are re-renders and the races between overlapping requests. Each handler runs to completion in one step.
- `setTimeout` message clears, clipboard copies, `alert`, the deploy button, the browser download (only its file name is modelled) and `confirm` are left out. `confirm`'s answer is a parameter.
- Clock readings (`Date.now`, `toISOString`) are parameters, so ids are not known to be unique.
- Authentication and sign-in are outside the model. The user is a parameter of the profile page.
- Markdown rendering, landing pages, the history page and styling are not part of this model.
- Api.GenerateTests: the result is a map, so the order of the keys in the source object is not modelled.
- Api.GenerateTests and Api.FrameworkName: the prompt tables are looked up by their own keys only. The source indexes plain object literals, so an inherited property name such as `constructor` or `toString` is found there. It gets a test entry, or a function value as the framework name. No page passes such an id.
- Api.Prefix: when the cut at 2000 code units falls inside a surrogate pair, the source keeps the lone high surrogate. The model drops the whole character, since a Dafny string holds only whole characters.
- Text.ToLower: maps only the ASCII letters A-Z; the source's `toLowerCase` also folds other Unicode letters.
- ChecklistTracking.ChecklistPage.Toggle: requires the category and item indices to exist in every record with the id. An out-of-range index makes the source throw a TypeError.
- ChecklistTracking.ChecklistPage.Toggle: the source flips the flag inside the record it shares with the previous state; the model builds a new record, so that aliasing is not modelled.
- LocalStorage.ProjectsIn: a stored value of the wrong shape reads as the empty list. The same holds for the other collection readers. The source hands such a value on as is, and its later array operations then fail.
- Dashboard.Restored: a stored workflow text that parses to something other than a workflow record (`null`, an array, another object) restores as the empty record. The source hands the parsed value on as is, and a stored `null` then makes the steps fail on their first field read.
- TestCaseForm.TestCaseGenerator.Generate: the `catch` branch at lines 76-78 has no counterpart, because `generateTests` catches each type's failure itself and never throws.
- PitchDeckStep.PitchDeckGenerator.Generate and VideoScriptStep.VideoScriptGenerator.Generate: a failure shows nothing; the source only logs it to the console, and console output is not modelled.
