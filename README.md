# Smart paper analysis: a verified model of the wizard's core

The smart-paper-analysis frontend is a React wizard. It takes a paper through five steps:
- metadata lookup;
- research field identification;
- research problem discovery;
- template selection or generation;
- content analysis against the template.

It keeps the wizard's state in a reducer (and, in an older copy, in an Immer-style store slice). The state is filled from the answers of a backend and of a language model. The answers are post-processed, normalised, compared and edited in place.

This project models, in Dafny, the deterministic core of that wizard:
- **The state machine.** The reducer with its timed transitions, the backward reset, the evaluation log and the older store slice. The step tabs and the auto-transition decide what gets dispatched.
- **The rules around the language model.** Response validation, template enrichment, value simplification and object summaries. Also the bounded retry loops, the one-result-per-property loops and the rate limit.
- **Result normalisation and editing.** Flattening nested answers into properties, change detection between two analyses, and the in-place edits of value lists and of a template.
- **Selection and parsing rules.** DOI and URL input, identifier parsing, the highest-confidence field and problem, template extraction from server replies, and the header's selectors.

JavaScript values are modelled by `JsValue.Val`:
- `undefined`, `null`, booleans, numbers as exact reals, strings, arrays and objects.
- An object keeps its key order (`Object.keys`) next to a map from key to value, because several rules depend on the first key, the first five parts or a single key.
- `JsValue` also defines the JavaScript operators the code relies on: truthiness, `||`, `&&`, `??`, spread, `String(v)`, `typeof`, and `>`/`>=`.

Each source file with state that its code updates in place becomes a class whose methods change its fields:
- the Immer slice;
- the template editor;
- the value editor;
- the property table;
- the RAG service's clock;
- the language-model service's section cache;
- the research field and research problem steps' own state.

The reducer and the selectors are functions. Loops in the source are loops here, proved against a specification function.

The model is parameterised by everything that is not deterministic:
- the clock (`now`) and ISO timestamps (`iso`);
- random identifiers;
- the language model and the HTTP replies, which are values of a reply datatype or functions from a request to a reply.

## Model

| member | source | states |
|---|---|---|
| AnalysisContext.StepIndex | src/app/paper-analysis/automatic-creation/contexts/AnalysisContext.js:8-52 | the position of the first step whose id equals the given one, or -1 when no step has it |
| AnalysisContext.FindStep | src/app/paper-analysis/automatic-creation/contexts/AnalysisContext.js:8-52 | `steps.find` by id: a step is found exactly when some step has that id, and it carries that id |
| AnalysisContext.FindStepAt | src/app/paper-analysis/automatic-creation/contexts/AnalysisContext.js:8-52 | the step ids are distinct, so looking up a step's own id gives back that step and its index |
| AnalysisContext.IsEvaluationComplete | src/app/paper-analysis/automatic-creation/contexts/AnalysisContext.js:157-159 | the evaluation is complete exactly when each of the five required steps is marked in `completedSteps` |
| AnalysisContext.TransformResearchProblemsShape | src/app/paper-analysis/automatic-creation/contexts/AnalysisContext.js:162-187 | the transformed research-problems record has exactly the keys `orkg_problems`, `llm_problem`, `metadata`, `processing_info` |
| AnalysisContext.TransformResearchProblemsDefaults | src/app/paper-analysis/automatic-creation/contexts/AnalysisContext.js:162-187 | problems come from `orkg_problems`, else `problems`, else `[]`; a missing status becomes `'completed'` and a missing progress 100 |
| AnalysisContext.ProblemMetadataDefaults | src/app/paper-analysis/automatic-creation/contexts/AnalysisContext.js:168-177 | a missing threshold becomes 0.5 and a missing count 0, while given values are kept |
| AnalysisContext.TotalDelay | src/app/paper-analysis/automatic-creation/contexts/AnalysisContext.js:208 | the `fromStep`'s transition delay, 0 when no step has that id |
| AnalysisContext.Remaining | src/app/paper-analysis/automatic-creation/contexts/AnalysisContext.js:210-213 | the remaining time is never negative and is 0 exactly when the elapsed time has reached the delay |
| AnalysisContext.ReduceUnknown | src/app/paper-analysis/automatic-creation/contexts/AnalysisContext.js:657-658 | an action type the reducer does not handle returns the state unchanged |
| AnalysisContext.Reduce | src/app/paper-analysis/automatic-creation/contexts/AnalysisContext.js:189-660 | each part of the state is changed only by its own action types: the mode, the error, the loading flag and the paper content by their setters, the progress by `SET_CURRENT_STEP`, the current step by `SET_CURRENT_STEP` or a transition tick, the metadata, templates and evaluation data by their own actions; an unhandled action changes nothing |
| AnalysisContext.CanNavigateNext | src/app/paper-analysis/automatic-creation/contexts/AnalysisContext.js:739-761 | the forward button's rule per step: metadata status success, a selected field, completed problem processing, a template, or the completion flag, and never while loading; its lemmas follow |
| AnalysisContext.CannotNavigateNextWhileLoading | src/app/paper-analysis/automatic-creation/contexts/AnalysisContext.js:739-761 | the wizard never moves forward while loading or when the current step id names no step |
| AnalysisContext.CanNavigateNextFromMetadata | src/app/paper-analysis/automatic-creation/contexts/AnalysisContext.js:744-745 | on the metadata step the way forward is open exactly when the metadata status is success and nothing is loading |
| AnalysisContext.MetadataUnlocksNext | src/app/paper-analysis/automatic-creation/contexts/AnalysisContext.js:744-745 | `SET_METADATA` on the metadata step opens the way forward unless something is loading (also AnalysisContext.js:322-330) |
| AnalysisContext.SelectingFieldUnlocksNext | src/app/paper-analysis/automatic-creation/contexts/AnalysisContext.js:747-748 | on the field step the way forward is open exactly when a field is selected and nothing is loading, and selecting a truthy field opens it |
| AnalysisContext.CompletedProblemsUnlockNext | src/app/paper-analysis/automatic-creation/contexts/AnalysisContext.js:750-751 | on the problem step the way forward is open exactly when the processing status is completed and nothing is loading, and the completed status action opens it |
| AnalysisContext.TemplateUnlocksNext | src/app/paper-analysis/automatic-creation/contexts/AnalysisContext.js:753-756 | on the template step the way forward is open exactly when there is an LLM template or a non-empty set of available templates and nothing is loading, and storing a truthy LLM template opens it |
| AnalysisContext.CompletedStepUnlocksNext | src/app/paper-analysis/automatic-creation/contexts/AnalysisContext.js:758-759 | on the content and closing steps the way forward is open exactly when the step's completion flag is set and nothing is loading, and `COMPLETE_STEP` for the step opens it |
| AnalysisContext.Navigate | src/app/paper-analysis/automatic-creation/contexts/AnalysisContext.js:763-777 | `navigate` fails exactly when there is no current step; otherwise it dispatches nothing without a neighbouring step in that direction, else `START_NAVIGATION` with the direction and the target, then `SET_CURRENT_STEP` to the target, preceded by `COMPLETE_STEP` 'researchFields' when going forward from the field step |
| AnalysisContext.NavigateNeighbours | src/app/paper-analysis/automatic-creation/contexts/AnalysisContext.js:8-52 | each step's next step is the one after it and its previous step the one before it; the first has no previous and the last no next step, and the closing step's previous step is the template step |
| AnalysisContext.NavigateMoves | src/app/paper-analysis/automatic-creation/contexts/AnalysisContext.js:263-273 | navigating in a direction that has a neighbouring step always lands on it, even during a timed transition (also AnalysisContext.js:284-293, AnalysisContext.js:763-777) |
| AnalysisContext.NavigateThenMove | src/app/paper-analysis/automatic-creation/contexts/AnalysisContext.js:263-293 | `START_NAVIGATION` followed by `SET_CURRENT_STEP` always sets the current step to the target |
| AnalysisContext.StartNavigationClearsTransition | src/app/paper-analysis/automatic-creation/contexts/AnalysisContext.js:284-293 | the navigation record written by `START_NAVIGATION` has no `isTransitioning` key |
| AnalysisContext.TrackEvaluation | src/app/paper-analysis/automatic-creation/contexts/AnalysisContext.js:803-818 | `trackEvaluation` dispatches an action exactly when the step is one of the required steps and the data is truthy |
| AnalysisContext.TrackEvaluationMarks | src/app/paper-analysis/automatic-creation/contexts/AnalysisContext.js:612-648 | tracking a required step stores its data, marks it completed and keeps every other step's mark (also AnalysisContext.js:803-818) |
| AnalysisContext.UpdateEvaluationDataMarks | src/app/paper-analysis/automatic-creation/contexts/AnalysisContext.js:612-648 | `UPDATE_EVALUATION_DATA` stores the data under the step, sets its flag and leaves the other flags as they were |
| AnalysisContext.TrackEvaluationKeepsComplete | src/app/paper-analysis/automatic-creation/contexts/AnalysisContext.js:612-648 | tracking never takes a complete evaluation back to incomplete (also AnalysisContext.js:803-818) |
| AnalysisContext.TrackKeepsMarks | src/app/paper-analysis/automatic-creation/contexts/AnalysisContext.js:612-648 | every tracking action, from every state, marks its step and keeps all marks already set (also AnalysisContext.js:803-818) |
| AnalysisContext.MarksAlong | src/app/paper-analysis/automatic-creation/contexts/AnalysisContext.js:612-648 | after any run of such actions each of their steps is marked and the earlier marks remain |
| AnalysisContext.TrackingAllCompletes | src/app/paper-analysis/automatic-creation/contexts/AnalysisContext.js:157-159 | once each required step has been tracked with data, from any state, the evaluation is complete (also AnalysisContext.js:612-648, AnalysisContext.js:803-818) |
| AnalysisContext.SetCurrentStepRule | src/app/paper-analysis/automatic-creation/contexts/AnalysisContext.js:263-273 | `SET_CURRENT_STEP` is ignored while a transition is in flight; otherwise it moves to the payload and sets the progress to index / 6 * 100 |
| AnalysisContext.SetCurrentStepProgress | src/app/paper-analysis/automatic-creation/contexts/AnalysisContext.js:263-273 | moving to a known step puts the overall progress in [0, 100) |
| AnalysisContext.TransitionCompletes | src/app/paper-analysis/automatic-creation/contexts/AnalysisContext.js:206-231 | a tick at or after the `fromStep`'s delay moves to `toStep`, marks `fromStep` complete, resets the navigation and changes nothing else |
| AnalysisContext.TransitionWithoutDelay | src/app/paper-analysis/automatic-creation/contexts/AnalysisContext.js:207-231 | a `fromStep` with no delay completes on the first tick that is not before the start |
| AnalysisContext.TransitionInFlight | src/app/paper-analysis/automatic-creation/contexts/AnalysisContext.js:206-240 | before the delay a tick changes only the navigation: the remaining time is the delay minus the elapsed time, and the progress stays in [0, 100] |
| AnalysisContext.RemainingTimeNonIncreasing | src/app/paper-analysis/automatic-creation/contexts/AnalysisContext.js:206-240 | during a transition the remaining time does not grow as the clock advances |
| AnalysisContext.ProgressNonDecreasing | src/app/paper-analysis/automatic-creation/contexts/AnalysisContext.js:206-240 | during a transition, once the clock is past its start, the progress does not fall as the clock advances |
| AnalysisContext.OnUpdateTransition | src/app/paper-analysis/automatic-creation/contexts/AnalysisContext.js:206-240 | a tick changes only the current step, the completion flags and the navigation record; the step stays or becomes the transition's target, and the only flag it can set is the source step's |
| AnalysisContext.CompleteAndResetStep | src/app/paper-analysis/automatic-creation/contexts/AnalysisContext.js:275-282 | `COMPLETE_STEP` and `RESET_STEP` change only the payload's completion flag, to true and to false (also AnalysisContext.js:341-348) |
| AnalysisContext.ResetStepFlags | src/app/paper-analysis/automatic-creation/contexts/AnalysisContext.js:275-282 | `RESET_STEP` clears the payload's flag and keeps the other flags and the navigation record |
| AnalysisContext.ClearDataTiers | src/app/paper-analysis/automatic-creation/contexts/AnalysisContext.js:554-598 | `CLEAR_DATA_FROM_STEP`: index ≤ 0 blanks the metadata text (keeping url and status) and resets fields and problems; index 1 resets only fields and problems; a larger index changes nothing; templates and paper content are never cleared |
| AnalysisContext.ClearedMetadataKeeps | src/app/paper-analysis/automatic-creation/contexts/AnalysisContext.js:561-567 | the first-tier reset keeps the metadata's url and status |
| AnalysisContext.ClearedMetadataBlanks | src/app/paper-analysis/automatic-creation/contexts/AnalysisContext.js:561-567 | the first-tier reset blanks title, abstract, doi and publication date, and empties the authors |
| AnalysisContext.OnClearDataFromStep | src/app/paper-analysis/automatic-creation/contexts/AnalysisContext.js:554-598 | only the metadata, fields and problems can change; a step index of at most 1 clears the fields and problems, only one of at most 0 touches the metadata, and an index above 1 or not a number clears nothing |
| AnalysisContext.SetResearchProblemsKeepsSelection | src/app/paper-analysis/automatic-creation/contexts/AnalysisContext.js:399-409 | `SET_RESEARCH_PROBLEMS` keeps the selected problem and the original generated problem, and stores the transformed problem list |
| AnalysisContext.TransformResearchProblemsKeys | src/app/paper-analysis/automatic-creation/contexts/AnalysisContext.js:162-187 | the transform never produces `selectedProblem` or `original_llm_problem`, so spreading it keeps them |
| AnalysisContext.TransformResearchProblems | src/app/paper-analysis/automatic-creation/contexts/AnalysisContext.js:162-187 | whatever the server sent, the stored shape has a problem list, a processing status, a progress and a threshold |
| AnalysisContext.UpdateLlmProblemRule | src/app/paper-analysis/automatic-creation/contexts/AnalysisContext.js:446-486 | `UPDATE_LLM_PROBLEM` always runs its first case: it stores and selects the problem as LLM-generated and marks the step complete |
| AnalysisContext.UpdateLlmProblemSelects | src/app/paper-analysis/automatic-creation/contexts/AnalysisContext.js:446-463 | the first `UPDATE_LLM_PROBLEM` case's selected problem carries the payload's title, description and confidence and is flagged as generated |
| StepTabs.ResetStepsBetween | src/app/paper-analysis/common/StepTabs.js:11-31 | nothing unless the target lies before the current step; for a target that is no step it throws; otherwise `RESET_STEP` for every step from the target through the current one, in order, then `CLEAR_DATA_FROM_STEP` with both indices |
| StepTabs.HandleTabClick | src/app/paper-analysis/common/StepTabs.js:33-45 | a tab that is neither completed nor current dispatches nothing; a current or later tab dispatches only `SET_CURRENT_STEP`; an earlier one dispatches the backward resets and then `SET_CURRENT_STEP` |
| StepTabs.ResetStepClearsFlag | src/app/paper-analysis/common/StepTabs.js:19 | each `RESET_STEP`, from any state, clears its step's flag, keeps the navigation record and never sets a cleared flag (also AnalysisContext.js:275-282) |
| StepTabs.ClearsAlong | src/app/paper-analysis/common/StepTabs.js:18-20 | after a run of resets every reset step is not completed and the navigation record is unchanged (also AnalysisContext.js:275-282) |
| StepTabs.ClearThenMove | src/app/paper-analysis/common/StepTabs.js:23-43 | `CLEAR_DATA_FROM_STEP` then `SET_CURRENT_STEP`, with no transition in flight, lands on the target and keeps the flags and the navigation record (also AnalysisContext.js:554-598) |
| StepTabs.ClearThenMoveLands | src/app/paper-analysis/common/StepTabs.js:23-43 | that pair of actions lands on the target from every state with no transition in flight |
| StepTabs.ResetsThenLand | src/app/paper-analysis/common/StepTabs.js:16-43 | resets followed by a landing sequence end on the landing step, with every reset step not completed |
| StepTabs.BackwardClickLands | src/app/paper-analysis/common/StepTabs.js:16-43 | after a backward click with no transition in flight the current step is the target and the target and every step after it up to the old current one are not completed |
| AutoTransition.NextStep | src/app/paper-analysis/common/AutoTransition.js:11-14 | the next step is found only when the current step names it as `nextStep` |
| AutoTransition.AutoTransitionEffect | src/app/paper-analysis/common/AutoTransition.js:32-53 | `START_TRANSITION` fires exactly when the mode is automatic, the current step has a delay and a next step, it is completed and no transition is in flight; the payload is `{fromStep, toStep, delay}` of the current and next step |
| AutoTransition.NoTransitionFromFinalStep | src/app/paper-analysis/common/AutoTransition.js:12-36 | the final step has no next step, so no transition starts from it (also AnalysisContext.js:8-52) |
| AutoTransition.ResearchProblemsUsesFlag | src/app/paper-analysis/common/AutoTransition.js:17-30 | the research-problems step counts as completed exactly when its `completedSteps` flag is set, because the switch's case reads `'research-problem'` |
| AutoTransition.StartedTransitionCompletes | src/app/paper-analysis/common/AutoTransition.js:45-52 | once the effect starts a transition, a tick at least the step's delay later moves to the next step and marks the current one completed (also AnalysisContext.js:192-231) |
| AutoTransition.StartThenTick | src/app/paper-analysis/automatic-creation/contexts/AnalysisContext.js:192-231 | `START_TRANSITION` from a known step followed by a tick after its delay lands on `toStep` and marks `fromStep` |
| AutoTransition.Ceil | src/app/paper-analysis/common/AutoTransition.js:59 | `Math.ceil`: the least integer not below its argument |
| AutoTransition.RemainingSecondsCovers | src/app/paper-analysis/common/AutoTransition.js:59 | the countdown is the least whole number of seconds covering the remaining time, and it never grows as that time shrinks |
| DataEntryCard.ValidateInput | src/app/paper-analysis/automatic-creation/dashboard/MetaData/DataEntryCard.js:22-46 | returns the trimmed input, and accepts it exactly when it starts with `10.` and four digits or with `http://` or `https://` and at least one more character |
| DataEntryCard.PrefixedDoiIsUrl | src/app/paper-analysis/automatic-creation/dashboard/MetaData/DataEntryCard.js:22-54 | a bare DOI with the resolver prefix is an accepted URL |
| DataEntryCard.PrefixedDoiFixed | src/app/paper-analysis/automatic-creation/dashboard/MetaData/DataEntryCard.js:52-54 | the resolver URL built from a trimmed DOI is trimmed, starts with `http` and is accepted |
| DataEntryCard.ProcessedStaysValid | src/app/paper-analysis/automatic-creation/dashboard/MetaData/DataEntryCard.js:42-58 | the processed form of an accepted input is still accepted |
| DataEntryCard.AcceptedIffStoredAsUrl | src/app/paper-analysis/automatic-creation/dashboard/MetaData/DataEntryCard.js:42-58 | an input is accepted exactly when the value stored for it is a URL |
| DataEntryCard.ProcessIdempotent | src/app/paper-analysis/automatic-creation/dashboard/MetaData/DataEntryCard.js:48-58 | processing an already processed input changes nothing |
| DataEntryCard.ProcessInput | src/app/paper-analysis/automatic-creation/dashboard/MetaData/DataEntryCard.js:48-58 | the validated input, prefixed with the DOI resolver when it is a bare DOI; ProcessedStaysValid, AcceptedIffStoredAsUrl and ProcessIdempotent state its properties |
| MetadataSection.FromFirstDoiSuffix | src/app/paper-analysis/automatic-creation/dashboard/MetaData/MetadataSection.js:19 | cutting at the first `10.` leaves a suffix that starts with `10.` with no earlier `10.`, or the whole string when there is none |
| MetadataSection.FromFirstDoiTrimmed | src/app/paper-analysis/automatic-creation/dashboard/MetaData/MetadataSection.js:19 | cutting a trimmed string at its first `10.` leaves a trimmed string that does not start with `http` |
| MetadataSection.ParseIdentifierSuffix | src/app/paper-analysis/automatic-creation/dashboard/MetaData/MetadataSection.js:16-24 | the identifier is a suffix of the trimmed input: from the first `10.` for input starting with `http` that has one, else the whole trimmed input |
| MetadataSection.ParseIdentifier | src/app/paper-analysis/automatic-creation/dashboard/MetaData/MetadataSection.js:16-24 | the trimmed input, cut to its first DOI when the input starts with http; ParseIdentifierSuffix and ParseIdentifierIdempotent state its properties |
| MetadataSection.TrimKeepsHttp | src/app/paper-analysis/automatic-creation/dashboard/MetaData/MetadataSection.js:18-19 | trimming keeps an `http` prefix and adds none, for input without leading white space |
| MetadataSection.ParseIdentifierIdempotent | src/app/paper-analysis/automatic-creation/dashboard/MetaData/MetadataSection.js:16-24 | parsing its own result changes nothing, for input that does not start with white space |
| MetadataSection.LeadingSpaceDefeatsHttpTest | src/app/paper-analysis/automatic-creation/dashboard/MetaData/MetadataSection.js:18-22 | with a leading space the `http` test fails, so the first call only trims and a second call cuts at `10.`: not idempotent |
| MetadataSection.ResolverUrlRoundTrip | src/app/paper-analysis/automatic-creation/dashboard/MetaData/MetadataSection.js:16-24 | the entry card's resolver URL for a bare DOI gives back that DOI when parsed (also DataEntryCard.js:48-58) |
| MetadataSection.StripTags | src/app/paper-analysis/automatic-creation/dashboard/MetaData/MetadataSection.js:48 | removing tags never lengthens the text and keeps only characters of the original |
| MetadataSection.StripTagsTagFree | src/app/paper-analysis/automatic-creation/dashboard/MetaData/MetadataSection.js:48 | the text after removing tags contains no `<` followed later by `>` |
| MetadataSection.StripTagsOfTagFree | src/app/paper-analysis/automatic-creation/dashboard/MetaData/MetadataSection.js:48 | text without tags comes through unchanged |
| MetadataSection.StripTagsIdempotent | src/app/paper-analysis/automatic-creation/dashboard/MetaData/MetadataSection.js:48 | removing tags twice removes nothing more |
| MetadataSection.AbstractOf | src/app/paper-analysis/automatic-creation/dashboard/MetaData/MetadataSection.js:48 | the abstract is `null` or non-empty tag-free text |
| MetadataSection.NamesOf | src/app/paper-analysis/automatic-creation/dashboard/MetaData/MetadataSection.js:47 | the author list maps to one name per author, in order, and throws exactly when some author is `null` or `undefined` |
| MetadataSection.LowerDoi | src/app/paper-analysis/automatic-creation/dashboard/MetaData/MetadataSection.js:49 | a DOI string is lower-cased, a missing DOI stays `undefined` |
| MetadataSection.Record | src/app/paper-analysis/automatic-creation/dashboard/MetaData/MetadataSection.js:45-55 | the metadata record has its eight keys in order, with the parsed title, author names, abstract, DOI, url, date, venue and status `success` |
| MetadataSection.PublicationDate | src/app/paper-analysis/automatic-creation/dashboard/MetaData/MetadataSection.js:51-52 | the publication date is `null` exactly when there is no publication year |
| MetadataSection.MetadataShape | src/app/paper-analysis/automatic-creation/dashboard/MetaData/MetadataSection.js:43-55 | a successful record has status `success`, a tag-free or `null` abstract, a lower-cased DOI, one name per author and a date exactly when a year is given |
| MetadataSection.Track | src/app/paper-analysis/automatic-creation/dashboard/MetaData/MetadataSection.js:62-67 | tracking the metadata step with a record always dispatches `UPDATE_EVALUATION_DATA` (also AnalysisContext.js:803-818) |
| MetadataSection.HandleAnalyze | src/app/paper-analysis/automatic-creation/dashboard/MetaData/MetadataSection.js:26-82 | the dispatch sequence of `handleAnalyze`: only the error for blank input; otherwise status `processing`, error cleared, then the success or the failure sequence |
| MetadataSection.BlankInputOnlySetsError | src/app/paper-analysis/automatic-creation/dashboard/MetaData/MetadataSection.js:27-30 | a blank input dispatches only `SET_ERROR`, leaving the metadata, its status and the completion flags as they were |
| MetadataSection.AnalyzeStartsProcessing | src/app/paper-analysis/automatic-creation/dashboard/MetaData/MetadataSection.js:32 | the first dispatch of a non-blank analysis sets status `processing`, which disables the Analyze button (also MetadataSection.js:88, DataEntryCard.js:144) |
| MetadataSection.AnalyzePrefix | src/app/paper-analysis/automatic-creation/dashboard/MetaData/MetadataSection.js:32-33 | every non-blank analysis starts by setting status `processing` and clearing the error |
| MetadataSection.SuccessRun | src/app/paper-analysis/automatic-creation/dashboard/MetaData/MetadataSection.js:58-67 | the success dispatches are `SET_METADATA`, `COMPLETE_STEP` metadata and the tracking action, in that order |
| MetadataSection.FailureRun | src/app/paper-analysis/automatic-creation/dashboard/MetaData/MetadataSection.js:69-80 | the failure dispatches are `SET_ERROR`, status `error` and the tracking action, in that order |
| MetadataSection.AfterSuccessFacts | src/app/paper-analysis/automatic-creation/dashboard/MetaData/MetadataSection.js:58-67 | after the success sequence the status is `success`, the record's fields are written over the metadata, the step is completed and the record is tracked (also AnalysisContext.js:322-348) |
| MetadataSection.AfterFailureFacts | src/app/paper-analysis/automatic-creation/dashboard/MetaData/MetadataSection.js:69-80 | after the failure sequence the error is set, the status is `error`, the other fields and completion flags are unchanged, and the failure is tracked (also AnalysisContext.js:310-340) |
| MetadataSection.AnalyzeSucceeds | src/app/paper-analysis/automatic-creation/dashboard/MetaData/MetadataSection.js:26-67 | a successful lookup ends with status `success`, no error, the metadata step completed and the success tracked |
| MetadataSection.AnalyzeFails | src/app/paper-analysis/automatic-creation/dashboard/MetaData/MetadataSection.js:26-33 | a failed lookup ends with a non-empty error message, status `error`, the completion flags untouched and the failure tracked (also MetadataSection.js:69-80) |
| MetadataService.DigitRunSpec | src/app/paper-analysis/services/metadataService.js:5 | the digit run from an index is all digits and is followed by a non-digit or the end |
| MetadataService.ClassRunSpec | src/app/paper-analysis/services/metadataService.js:5 | the class run from an index is all DOI-class characters and is followed by another character or the end |
| MetadataService.MatchAtSound | src/app/paper-analysis/services/metadataService.js:5-6 | a match found at a position is matched by the DOI pattern and cannot be extended |
| MetadataService.MatchedStretch | src/app/paper-analysis/services/metadataService.js:5 | the stretch with the digit run and the class run is matched by the pattern |
| MetadataService.MatchAtComplete | src/app/paper-analysis/services/metadataService.js:5-6 | every stretch from a position that the pattern matches lies within the match found there |
| MetadataService.FindDoi | src/app/paper-analysis/services/metadataService.js:6 | the position found is one where a match starts |
| MetadataService.FindDoiSpec | src/app/paper-analysis/services/metadataService.js:6 | no match starts before the position found, or anywhere when none is found |
| MetadataService.DoiIffPatternOccurs | src/app/paper-analysis/services/metadataService.js:5-10 | the input is classified as a DOI exactly when the pattern matches some part of it, and as a title otherwise |
| MetadataService.NoMatchBefore | src/app/paper-analysis/services/metadataService.js:6 | no stretch starting before the first match position is matched |
| MetadataService.MatchAtLongest | src/app/paper-analysis/services/metadataService.js:6 | the match found is the longest from its position |
| MetadataService.IdentifierValue | src/app/paper-analysis/services/metadataService.js:7-11 | a DOI's value is the leftmost, longest matched stretch of the input; a title's value is the input |
| MetadataService.ParseIdentifierStable | src/app/paper-analysis/services/metadataService.js:4-12 | parsing the value found gives the same identifier again |
| MetadataService.ParseIdentifier | src/app/paper-analysis/services/metadataService.js:4-12 | the first DOI in the input, else the whole input as a title; DoiIffPatternOccurs, IdentifierValue and ParseIdentifierStable state its properties |
| MetadataService.Names | src/app/paper-analysis/services/metadataService.js:27 | the author names are always a list |
| MetadataService.RecordOf | src/app/paper-analysis/services/metadataService.js:25-32 | the record has its six fields in order, with missing text fields as `null` |
| MetadataService.FetchMetadataFails | src/app/paper-analysis/services/metadataService.js:14-37 | every failure is the fixed error, and the fetch succeeds exactly when the lookup of the identifier's kind returns data whose authors and year can be read |
| MetadataService.FetchMetadataRecord | src/app/paper-analysis/services/metadataService.js:25-32 | the fetched record maps missing fields to `null`, authors to names or `[]`, and sets a date exactly when a year is given |
| MetadataService.FetchMetadata | src/app/paper-analysis/services/metadataService.js:14-37 | looks the identifier up and builds the record; FetchMetadataFails and FetchMetadataRecord state its outcomes |
| MetadataService.NamesShape | src/app/paper-analysis/services/metadataService.js:27 | one name per author, in order, and a failure exactly when some author is `null` or `undefined` |
| GenericLlmService.FingerprintAppend | src/app/paper-analysis/services/GenericLLMService.js:238-240 | the fingerprint of a concatenation is the sum of the fingerprints of its parts |
| GenericLlmService.FingerprintIgnoresOrder | src/app/paper-analysis/services/GenericLLMService.js:238-240 | the fingerprint does not depend on the order of the text's pieces, so two reorderings of one text collide |
| GenericLlmService.TextFingerprint | src/app/paper-analysis/services/GenericLLMService.js:238-240 | the sum of the character codes; FingerprintAppend and FingerprintIgnoresOrder state its properties |
| GenericLlmService.ErrorResponse | src/app/paper-analysis/services/GenericLLMService.js:336-355 | the error response names the property's label and type, carries the error's message or "Unknown error occurred", and holds one empty value of confidence 0 |
| GenericLlmService.CheckEntries | src/app/paper-analysis/services/GenericLLMService.js:1160-1173 | the entries pass exactly when every one has a value, a confidence between 0 and 1 and an evidence object |
| GenericLlmService.ValidateResponse | src/app/paper-analysis/services/GenericLLMService.js:1152-1176 | a response passes exactly when it is an object with a property and a values array whose every entry is valid |
| GenericLlmService.ErrorResponseValid | src/app/paper-analysis/services/GenericLLMService.js:336-355 | the error response itself passes the response check (also GenericLLMService.js:1152-1176) |
| GenericLlmService.CrossSectionConsistency | src/app/paper-analysis/services/GenericLLMService.js:316-324 | the check succeeds exactly when the provenance (default empty) is an array with no null or undefined entry |
| GenericLlmService.SectionSetSize | src/app/paper-analysis/services/GenericLLMService.js:316-324 | the provenance names more than one section exactly when two of its entries name different sections |
| GenericLlmService.CrossSectionRules | src/app/paper-analysis/services/GenericLLMService.js:316-324 | consistency is "yes" exactly when two provenance entries name different sections, and completeness is "high" exactly when there is one provenance entry per section of the paper |
| GenericLlmService.InferType | src/app/paper-analysis/services/GenericLLMService.js:467-505 | the inferred type is one of the five valid types, is the type of the first rule (resource, number, url, date) whose words occur in the label or description, and is "text" exactly when no rule matches |
| GenericLlmService.NoneMissing | src/app/paper-analysis/services/GenericLLMService.js:460-462 | no required field is reported missing exactly when every one is present (also GenericLLMService.js:508-510) |
| GenericLlmService.RetypeProperty | src/app/paper-analysis/services/GenericLLMService.js:459-505 | a property is accepted exactly when it has the five required fields |
| GenericLlmService.RetypeSpec | src/app/paper-analysis/services/GenericLLMService.js:467-505 | an accepted property keeps every field but its type, keeps a valid type, and gets the inferred type otherwise |
| GenericLlmService.ValidateTemplateStructure | src/app/paper-analysis/services/GenericLLMService.js:458-516 | the template is accepted exactly when every property has its five fields and the metadata its three; the accepted template keeps its keys and every field but the properties, each of which is retyped in place |
| GenericLlmService.EnhanceDefaults | src/app/paper-analysis/services/GenericLLMService.js:433-435 | an enhanced property gets its own id or a generated "prop-" id, `required` defaulting to true only when null or undefined, and type defaulting to "text" |
| GenericLlmService.EnhanceEmptied | src/app/paper-analysis/services/GenericLLMService.js:436-439 | an enhanced property's value, confidence, evidence and source section are null |
| GenericLlmService.EnhanceKeeps | src/app/paper-analysis/services/GenericLLMService.js:431-432 | the label and description of a property are kept, and so is every field other than the seven the enhancement sets (the spread) |
| GenericLlmService.EnhanceAccepted | src/app/paper-analysis/services/GenericLLMService.js:431-465 | an enhanced property passes the property check exactly when its source has a label and a description |
| GenericLlmService.EnhanceMetadataFacts | src/app/paper-analysis/services/GenericLLMService.js:446-452 | the enhanced metadata counts the properties, has version "1.0", and has the research field and category exactly when the original has them |
| GenericLlmService.EnhanceTemplateShape | src/app/paper-analysis/services/GenericLLMService.js:442-453 | the enhanced template holds the enhanced properties in order and the enhanced metadata; its id is the template's or the generated one, and every other field of the template is kept |
| GenericLlmService.EnhancedStructureOk | src/app/paper-analysis/services/GenericLLMService.js:455 | the structure check accepts the enhanced template exactly when every original property is acceptable and the metadata has the research field and category (also GenericLLMService.js:458-516) |
| GenericLlmService.AcceptedAll | src/app/paper-analysis/services/GenericLLMService.js:431-465 | all enhanced properties pass exactly when all original properties are acceptable |
| GenericLlmService.EnhancedResult | src/app/paper-analysis/services/GenericLLMService.js:419-456 | the accepted template keeps every field of the input but `id`, `properties` and `metadata`, has the input's id or the generated one, one property per input property, each enhanced (defaults filled in, label, description and every other field kept, result fields emptied, a valid type) and retyped, and metadata counting them with version "1.0" |
| GenericLlmService.ValidateAndEnhanceTemplate | src/app/paper-analysis/services/GenericLLMService.js:419-456 | the template is accepted exactly when it has its four fields, a non-empty property array and acceptable properties and metadata; the result keeps the input's name, description and every other field but `id`, `properties` and `metadata`, has the input's id or the generated one, one enhanced, retyped property per input property (label, description and every field the enhancement does not set kept) and metadata counting them with version "1.0" |
| GenericLlmService.EnhancedProperties | src/app/paper-analysis/services/GenericLLMService.js:431-440 | every property of the result is its input property enhanced and then retyped: defaults filled in, label, description and every other field not set by the enhancement kept, result fields emptied (also GenericLLMService.js:467-505) |
| GenericLlmService.TemplateFieldsKept | src/app/paper-analysis/services/GenericLLMService.js:442-443 | the name and the description of the template pass through the enhancement unchanged |
| GenericLlmService.NonBlank | src/app/paper-analysis/services/GenericLLMService.js:997-999 | the parts kept are no more than the parts given and none is blank |
| GenericLlmService.SemicolonParts | src/app/paper-analysis/services/GenericLLMService.js:997-999 | the parts of a semicolon-separated string are trimmed and non-empty |
| GenericLlmService.StrItems | src/app/paper-analysis/services/GenericLLMService.js:1001-1002 | one string value per part, in order |
| GenericLlmService.SimplifyString | src/app/paper-analysis/services/GenericLLMService.js:972-1007 | a string simplifies to a string, or to a list of more than one string |
| GenericLlmService.SimplifyValue | src/app/paper-analysis/services/GenericLLMService.js:962-1068 | every value simplifies to a string, or to a list of more than one string, never to an object |
| GenericLlmService.ObjectSummary | src/app/paper-analysis/services/GenericLLMService.js:1073-1076 | past the maximum depth the summary is "[Nested Data]" |
| GenericLlmService.EntryPart | src/app/paper-analysis/services/GenericLLMService.js:1100-1123 | an entry contributes at most one part, and never an empty one |
| GenericLlmService.SummaryPartsBound | src/app/paper-analysis/services/GenericLLMService.js:1098-1127 | the summary collects at most five non-empty parts and keeps those collected before |
| GenericLlmService.SummaryShape | src/app/paper-analysis/services/GenericLLMService.js:1097-1129 | a summary of an object within the depth limit is its at most five non-empty parts joined by "; ", or "[Complex Data]" when there are none |
| GenericLlmService.ExtractResourceSummary | src/app/paper-analysis/services/GenericLLMService.js:1079-1095 | the loop over the keys returns the resource summary |
| GenericLlmService.ExtractObjectSummary | src/app/paper-analysis/services/GenericLLMService.js:1073-1130 | the loop over the entries returns the object summary |
| GenericLlmService.Expand | src/app/paper-analysis/services/GenericLLMService.js:831-854 | a list becomes one value per element, in order, each marked as a multi-value with its index; anything else becomes one value; every value takes the confidence (default 0) and evidence (default {}) of its source |
| GenericLlmService.ExpandFrom | src/app/paper-analysis/services/GenericLLMService.js:857-891 | the values array fails exactly when one of its entries is null or undefined |
| GenericLlmService.OutValue | src/app/paper-analysis/services/GenericLLMService.js:940-950 | a cleaned value carries its value, confidence, evidence and an id, and the multi-value flag and index exactly when it came from a list |
| GenericLlmService.Cleaned | src/app/paper-analysis/services/GenericLLMService.js:931-951 | the cleaned response names the property's label and type and holds one cleaned value per processed value, in order |
| GenericLlmService.CleanResponse | src/app/paper-analysis/services/GenericLLMService.js:781-786 | a missing property or label gives the "Missing property parameter" error response for "Unknown"; otherwise the result names the property's label and type (also GenericLLMService.js:931-957) |
| GenericLlmService.Finish | src/app/paper-analysis/services/GenericLLMService.js:931-957 | the cleaned response or the caught error response names the property's label and type |
| GenericLlmService.CleanedFrom | src/app/paper-analysis/services/GenericLLMService.js:816-951 | a recognised response is cleaned into the processed values it yields |
| GenericLlmService.DirectFormat | src/app/paper-analysis/services/GenericLLMService.js:822-855 | a response with a direct value is processed from its simplified value |
| GenericLlmService.SimplifyPlainString | src/app/paper-analysis/services/GenericLLMService.js:996-1006 | outside resources, a short string is kept and a long semicolon-separated string with several parts is split |
| GenericLlmService.CleanedValues | src/app/paper-analysis/services/GenericLLMService.js:940-950 | the cleaned values are the processed values, one for one, in order |
| GenericLlmService.MultiValuesIndexed | src/app/paper-analysis/services/GenericLLMService.js:838-846 | a long semicolon-separated value becomes one cleaned value per part, each flagged as a multi-value with its index (also GenericLLMService.js:996-1003) |
| GenericLlmService.OutValueValid | src/app/paper-analysis/services/GenericLLMService.js:940-950 | a cleaned value with a confidence between 0 and 1 and an evidence object passes the entry check (also GenericLLMService.js:1160-1173) |
| GenericLlmService.CleanedValid | src/app/paper-analysis/services/GenericLLMService.js:931-951 | a cleaned response passes exactly when each of its values passes (also GenericLLMService.js:1152-1176) |
| GenericLlmService.SingleValueValid | src/app/paper-analysis/services/GenericLLMService.js:847-853 | one processed value with a valid confidence and evidence gives a valid response with that value, confidence and evidence (also GenericLLMService.js:1152-1176) |
| GenericLlmService.PlainValueAccepted | src/app/paper-analysis/services/GenericLLMService.js:822-855 | a short direct string with a valid confidence and evidence is cleaned into a valid response holding exactly that value (also GenericLLMService.js:1152-1176) |
| GenericLlmService.PlainValueCleaned | src/app/paper-analysis/services/GenericLLMService.js:822-855 | a short direct string is cleaned into one value with the response's confidence and evidence |
| GenericLlmService.ExpandPlain | src/app/paper-analysis/services/GenericLLMService.js:847-853 | a value that is not a list becomes one processed value with its source's confidence and evidence |
| GenericLlmService.NullEntryRejected | src/app/paper-analysis/services/GenericLLMService.js:857-859 | a null entry in the values array makes the cleaning fail into an error response for the property (also GenericLLMService.js:953-956) |
| GenericLlmService.Backoff | src/app/paper-analysis/services/GenericLLMService.js:742 | the rate-limit wait is 100 ms per attempt, capped at 600 |
| GenericLlmService.OnError | src/app/paper-analysis/services/GenericLLMService.js:730-757 | a failed attempt never completes; a retry waits 1000 ms after a syntax error or the rate-limit backoff |
| GenericLlmService.Checked | src/app/paper-analysis/services/GenericLLMService.js:725-728 | an attempt completes only with a response that passes the response check; a failed check is rethrown and not retried, unless its message names a rate limit (also GenericLLMService.js:749) |
| GenericLlmService.FailureResponse | src/app/paper-analysis/services/GenericLLMService.js:759-763 | the final failure names the property's label, has an empty value list and carries the error's message |
| GenericLlmService.AttemptShape | src/app/paper-analysis/services/GenericLLMService.js:709-757 | an attempt completes with a valid response or retries after 1000 ms or the backoff for its number |
| GenericLlmService.AttemptStep | src/app/paper-analysis/services/GenericLLMService.js:709-757 | one unrolled step of the retry loop: completion returns the response, an abort the failure shape, and a retry continues with the next attempt after its wait |
| GenericLlmService.RetryShape | src/app/paper-analysis/services/GenericLLMService.js:15 | the retry loop resolves to a valid response or the failure shape after at most five waits, each the one for its attempt (also GenericLLMService.js:709-763) |
| GenericLlmService.AnalyzeNeverThrows | src/app/paper-analysis/services/GenericLLMService.js:581-763 | for a property that is not null, `analyze` resolves to a valid response or the failure shape after at most five waits |
| GenericLlmService.Labelled | src/app/paper-analysis/services/GenericLLMService.js:551-556 | a property's result carries the property's label and type and otherwise the response's fields |
| GenericLlmService.ResultsFromStep | src/app/paper-analysis/services/GenericLLMService.js:544-570 | one step of the loop over the properties: analyse the property, store its labelled result under its id and wait before the next |
| GenericLlmService.AnalyzeOnBuiltCache | src/app/paper-analysis/services/GenericLLMService.js:585-589 | with the cache already built, analysing a property runs on the cached text |
| GenericLlmService.IdFromStep | src/app/paper-analysis/services/GenericLLMService.js:544-570 | an id is among those from a position on exactly when it is the id there or among those after it |
| GenericLlmService.ResultsFromFails | src/app/paper-analysis/services/GenericLLMService.js:544-570 | the loop fails exactly when one of the remaining properties is null or undefined |
| GenericLlmService.ResultsFromKeys | src/app/paper-analysis/services/GenericLLMService.js:544-570 | the results hold exactly the keys they held before and the ids of the remaining properties |
| GenericLlmService.ResultsFromLast | src/app/paper-analysis/services/GenericLLMService.js:544-570 | each id's result is that of the last property with that id |
| GenericLlmService.ResultsFromUntouched | src/app/paper-analysis/services/GenericLLMService.js:544-570 | a key that is no remaining property's id keeps its result |
| GenericLlmService.OneEntryPerId | src/app/paper-analysis/services/GenericLLMService.js:521-579 | `analyzePaperSections` succeeds exactly when no property is null; it then returns one entry per property id, each the result of the last property with that id on the paper's cached text |
| GenericLlmService.PropertyResultShape | src/app/paper-analysis/services/GenericLLMService.js:544-570 | each property's result carries its label and type, and its response is valid or the failure shape |
| GenericLlmService.CachedSectionsReused | src/app/paper-analysis/services/GenericLLMService.js:535-539 | once the cache is built, a different paper's sections give the same results |
| GenericLlmService.LlmService.constructor | src/app/paper-analysis/services/GenericLLMService.js:19-48 | a new service has an empty section cache |
| GenericLlmService.LlmService.Analyze | src/app/paper-analysis/services/GenericLLMService.js:581-763 | the cache is rebuilt when empty or forced, and the response and waits are those of the specification of `analyze` |
| GenericLlmService.LlmService.AnalyzePaperSections | src/app/paper-analysis/services/GenericLLMService.js:521-579 | the results and waits are those of the specification of `analyzePaperSections`, and the cache is the paper's section text |
| GenericLlmService.LlmService.AnalyzeOnCache | src/app/paper-analysis/services/GenericLLMService.js:585-589 | on a built cache the cache is left alone and the response is the retry loop's on the cached text (also GenericLLMService.js:709-763) |
| GenericLlmService.LlmService.AnalyzeProperties | src/app/paper-analysis/services/GenericLLMService.js:544-570 | the loop over the properties leaves the cache alone and returns the results and waits of its specification |
| ContentAnalysis.GetDataType | src/app/paper-analysis/automatic-creation/dashboard/ContentAnalysis/ContentAnalysis.js:81-96 | the kind is one of the eight data types; a string is a date, url, email, number or text; anything else is a number exactly when it is a number |
| ContentAnalysis.UrlBeforeEmail | src/app/paper-analysis/automatic-creation/dashboard/ContentAnalysis/ContentAnalysis.js:88-89 | a string starting with http:// or https:// is a url even when it also looks like an e-mail address |
| ContentAnalysis.NumericBodyChars | src/app/paper-analysis/automatic-creation/dashboard/ContentAnalysis/ContentAnalysis.js:90 | the body of a numeric literal is non-empty and made of digits and dots |
| ContentAnalysis.NumericChars | src/app/paper-analysis/automatic-creation/dashboard/ContentAnalysis/ContentAnalysis.js:90 | a numeric literal is non-empty and made of digits, dots and a leading minus sign |
| ContentAnalysis.NumericIsNumber | src/app/paper-analysis/automatic-creation/dashboard/ContentAnalysis/ContentAnalysis.js:86-91 | no earlier string test captures a numeric literal, so it is always a number |
| ContentAnalysis.DropClosingFence | src/app/paper-analysis/automatic-creation/dashboard/ContentAnalysis/ContentAnalysis.js:38 | removing the closing fence never lengthens the text |
| ContentAnalysis.OpeningDropped | src/app/paper-analysis/automatic-creation/dashboard/ContentAnalysis/ContentAnalysis.js:37-38 | the opening fence is dropped from a fenced block |
| ContentAnalysis.ClosingDropped | src/app/paper-analysis/automatic-creation/dashboard/ContentAnalysis/ContentAnalysis.js:38 | the closing fence and the white space before it are dropped |
| ContentAnalysis.StripFenceRoundTrip | src/app/paper-analysis/automatic-creation/dashboard/ContentAnalysis/ContentAnalysis.js:34-38 | a JSON body wrapped in a json code fence is handed to the parser exactly as it was |
| ContentAnalysis.ParseLlmResponse | src/app/paper-analysis/automatic-creation/dashboard/ContentAnalysis/ContentAnalysis.js:24-54 | an object or array is kept; a string the parser rejects is read line by line for key-value pairs; anything else gives {} |
| ContentAnalysis.BareRun | src/app/paper-analysis/automatic-creation/dashboard/ContentAnalysis/ContentAnalysis.js:63 | the unquoted value run stays within the line |
| ContentAnalysis.SpaceRun | src/app/paper-analysis/automatic-creation/dashboard/ContentAnalysis/ContentAnalysis.js:63 | the white-space run stays within the line |
| ContentAnalysis.ExtractPairs | src/app/paper-analysis/automatic-creation/dashboard/ContentAnalysis/ContentAnalysis.js:57-78 | the loop over the lines returns the key-value pairs read from the text |
| ContentAnalysis.PairsFromStrings | src/app/paper-analysis/automatic-creation/dashboard/ContentAnalysis/ContentAnalysis.js:61-75 | every value the loop stores is a string |
| ContentAnalysis.ExtractedAreStrings | src/app/paper-analysis/automatic-creation/dashboard/ContentAnalysis/ContentAnalysis.js:57-78 | the pairs read from any text form an object whose every value is a string |
| ContentAnalysis.ExtractKeyValuePairs | src/app/paper-analysis/automatic-creation/dashboard/ContentAnalysis/ContentAnalysis.js:57-78 | reads the text's lines for key-value pairs; ExtractPairs and ExtractedAreStrings state what it returns |
| ContentAnalysis.PairsFromObj | src/app/paper-analysis/automatic-creation/dashboard/ContentAnalysis/ContentAnalysis.js:58-77 | the result of the loop is an object |
| ContentAnalysis.ClosingQuote | src/app/paper-analysis/automatic-creation/dashboard/ContentAnalysis/ContentAnalysis.js:63 | in a quoted piece the first quote after the opening one closes it |
| ContentAnalysis.KeyRead | src/app/paper-analysis/automatic-creation/dashboard/ContentAnalysis/ContentAnalysis.js:63-65 | the key of a line written as a quoted key, a colon and a space is read back as that key |
| ContentAnalysis.ValueRead | src/app/paper-analysis/automatic-creation/dashboard/ContentAnalysis/ContentAnalysis.js:63-66 | the quoted value of such a line runs to its last character |
| ContentAnalysis.PairLineRead | src/app/paper-analysis/automatic-creation/dashboard/ContentAnalysis/ContentAnalysis.js:63-73 | a line written as a quoted key and a quoted value is read back as that pair, and the value loses its quotes |
| ContentAnalysis.PairAtQuoted | src/app/paper-analysis/automatic-creation/dashboard/ContentAnalysis/ContentAnalysis.js:63 | the pattern matches such a line at its first character |
| ContentAnalysis.DigitRun | src/app/paper-analysis/automatic-creation/dashboard/ContentAnalysis/ContentAnalysis.js:321 | the run of digits stays within the string |
| ContentAnalysis.CollapseStart | src/app/paper-analysis/automatic-creation/dashboard/ContentAnalysis/ContentAnalysis.js:322 | collapsing white space keeps the first character |
| ContentAnalysis.CollapseSingleSpaced | src/app/paper-analysis/automatic-creation/dashboard/ContentAnalysis/ContentAnalysis.js:322 | after collapsing, the only white space is single plain spaces |
| ContentAnalysis.SingleSpacedSlice | src/app/paper-analysis/automatic-creation/dashboard/ContentAnalysis/ContentAnalysis.js:322-323 | a slice of a single-spaced string is single-spaced |
| ContentAnalysis.LabelClean | src/app/paper-analysis/automatic-creation/dashboard/ContentAnalysis/ContentAnalysis.js:311-323 | a label has no white space at either end and inside only single plain spaces |
| ContentAnalysis.FlattenObject | src/app/paper-analysis/automatic-creation/dashboard/ContentAnalysis/ContentAnalysis.js:112-303 | the loop over the entries returns the flattening of the object |
| ContentAnalysis.AddEntry | src/app/paper-analysis/automatic-creation/dashboard/ContentAnalysis/ContentAnalysis.js:121-300 | one turn of the loop adds what its property contributes |
| ContentAnalysis.SubEntriesStep | src/app/paper-analysis/automatic-creation/dashboard/ContentAnalysis/ContentAnalysis.js:153-171 | one turn of the loop over a simple object writes its key_subKey entry |
| ContentAnalysis.AddSubEntries | src/app/paper-analysis/automatic-creation/dashboard/ContentAnalysis/ContentAnalysis.js:153-171 | the loop writes one key_subKey entry per property of a simple object |
| ContentAnalysis.AddItems | src/app/paper-analysis/automatic-creation/dashboard/ContentAnalysis/ContentAnalysis.js:260-282 | the loop writes the per-item entries of an array of objects |
| ContentAnalysis.EntryFlat | src/app/paper-analysis/automatic-creation/dashboard/ContentAnalysis/ContentAnalysis.js:127-140 | every entry built holds one value of confidence 1 with empty evidence and its text, and typed metadata (also ContentAnalysis.js:286-298) |
| ContentAnalysis.WithShaped | src/app/paper-analysis/automatic-creation/dashboard/ContentAnalysis/ContentAnalysis.js:127-298 | writing a flat entry keeps the result an object of flat entries |
| ContentAnalysis.SpreadShaped | src/app/paper-analysis/automatic-creation/dashboard/ContentAnalysis/ContentAnalysis.js:191 | merging two objects of flat entries gives an object of flat entries (also ContentAnalysis.js:263) |
| ContentAnalysis.FlattenShaped | src/app/paper-analysis/automatic-creation/dashboard/ContentAnalysis/ContentAnalysis.js:112-303 | everything flattening returns is an object of flat entries, each key once |
| ContentAnalysis.Flatten | src/app/paper-analysis/automatic-creation/dashboard/ContentAnalysis/ContentAnalysis.js:112-303 | flattens a nested analysis into entries; FlattenShaped and the Flatten* lemmas above state what it returns |
| ContentAnalysis.FlattenFromShaped | src/app/paper-analysis/automatic-creation/dashboard/ContentAnalysis/ContentAnalysis.js:121-300 | the loop over the entries keeps the result an object of flat entries |
| ContentAnalysis.FlattenEntryShaped | src/app/paper-analysis/automatic-creation/dashboard/ContentAnalysis/ContentAnalysis.js:121-300 | what any one property contributes keeps the result an object of flat entries |
| ContentAnalysis.ArrayEntryShaped | src/app/paper-analysis/automatic-creation/dashboard/ContentAnalysis/ContentAnalysis.js:193-283 | the array branch keeps the result an object of flat entries |
| ContentAnalysis.SubEntriesShaped | src/app/paper-analysis/automatic-creation/dashboard/ContentAnalysis/ContentAnalysis.js:153-171 | the simple-object entries keep the result an object of flat entries |
| ContentAnalysis.ItemsFromShaped | src/app/paper-analysis/automatic-creation/dashboard/ContentAnalysis/ContentAnalysis.js:260-282 | the per-item entries keep the result an object of flat entries |
| ContentAnalysis.ItemIntoShaped | src/app/paper-analysis/automatic-creation/dashboard/ContentAnalysis/ContentAnalysis.js:261-281 | one item's entries keep the result an object of flat entries |
| ContentAnalysis.FlattenNull | src/app/paper-analysis/automatic-creation/dashboard/ContentAnalysis/ContentAnalysis.js:125-140 | a null or undefined property is written as '' and marked as null |
| ContentAnalysis.FlattenEmptyObject | src/app/paper-analysis/automatic-creation/dashboard/ContentAnalysis/ContentAnalysis.js:172-187 | an empty object is written as "[Empty Object]" |
| ContentAnalysis.FlattenEmptyArray | src/app/paper-analysis/automatic-creation/dashboard/ContentAnalysis/ContentAnalysis.js:194-210 | an empty array is written as "[]" |
| ContentAnalysis.FlattenPrimitiveArray | src/app/paper-analysis/automatic-creation/dashboard/ContentAnalysis/ContentAnalysis.js:211-228 | an array of primitives is written as its items joined by ", " |
| ContentAnalysis.FlattenPrimitive | src/app/paper-analysis/automatic-creation/dashboard/ContentAnalysis/ContentAnalysis.js:284-298 | a primitive is written as its string and typed by its data type |
| ContentAnalysis.FlattenTooDeep | src/app/paper-analysis/automatic-creation/dashboard/ContentAnalysis/ContentAnalysis.js:116-119 | past depth 10 nothing is written |
| ContentAnalysis.SubEntriesKeep | src/app/paper-analysis/automatic-creation/dashboard/ContentAnalysis/ContentAnalysis.js:153-171 | a key no property of the simple object produces is left alone |
| ContentAnalysis.SubEntriesWritten | src/app/paper-analysis/automatic-creation/dashboard/ContentAnalysis/ContentAnalysis.js:153-171 | each property of a simple object is written under its key_subKey |
| ContentAnalysis.SuffixedDiffer | src/app/paper-analysis/automatic-creation/dashboard/ContentAnalysis/ContentAnalysis.js:154 | different sub-keys give different final keys |
| ContentAnalysis.SimpleObjectFlattened | src/app/paper-analysis/automatic-creation/dashboard/ContentAnalysis/ContentAnalysis.js:141-171 | each property of a non-empty object of primitives becomes its own key_subKey entry holding its string and typed by its data type |
| ContentAnalysis.SubEntryFields | src/app/paper-analysis/automatic-creation/dashboard/ContentAnalysis/ContentAnalysis.js:157-169 | a sub-entry holds the string of its value and the value's data type |
| ContentAnalysis.FlattenSimpleObject | src/app/paper-analysis/automatic-creation/dashboard/ContentAnalysis/ContentAnalysis.js:151-171 | a non-empty object of primitives is flattened by the sub-entry loop |
| ContentAnalysis.EntryNamesDistinct | src/app/paper-analysis/automatic-creation/dashboard/ContentAnalysis/ContentAnalysis.js:121 | the entries of an object have distinct names |
| ContentAnalysis.NormalizeFrom | src/app/paper-analysis/automatic-creation/dashboard/ContentAnalysis/ContentAnalysis.js:309-347 | the normalising loop over an object yields an object |
| ContentAnalysis.Normalize | src/app/paper-analysis/automatic-creation/dashboard/ContentAnalysis/ContentAnalysis.js:99-109 | normalising returns its input unchanged or an object (also ContentAnalysis.js:306-352) |
| ContentAnalysis.NormalizeAnalysisResults | src/app/paper-analysis/automatic-creation/dashboard/ContentAnalysis/ContentAnalysis.js:99-352 | the early return and the loop over the flattened entries return the normalised analysis |
| ContentAnalysis.NormalizedFlatEntry | src/app/paper-analysis/automatic-creation/dashboard/ContentAnalysis/ContentAnalysis.js:325-346 | a normalised entry has its key as property, the label built from the key, a data type and the flat entry's single value |
| ContentAnalysis.NormalizeStep | src/app/paper-analysis/automatic-creation/dashboard/ContentAnalysis/ContentAnalysis.js:325-336 | one step of the normalising loop keeps every entry normalised |
| ContentAnalysis.NormalizeFromStep | src/app/paper-analysis/automatic-creation/dashboard/ContentAnalysis/ContentAnalysis.js:309-347 | one turn of the normalising loop keeps every entry normalised and the keys in order |
| ContentAnalysis.NormalizeFromShape | src/app/paper-analysis/automatic-creation/dashboard/ContentAnalysis/ContentAnalysis.js:309-347 | the normalising loop yields one normalised entry per flattened key, in order |
| ContentAnalysis.NormalizeShape | src/app/paper-analysis/automatic-creation/dashboard/ContentAnalysis/ContentAnalysis.js:306-352 | when the early return does not apply, the result has one normalised entry per flattened key, in the flattened order, each with one value of confidence 1 and empty evidence |
| ContentAnalysis.NormalizeNoKeys | src/app/paper-analysis/automatic-creation/dashboard/ContentAnalysis/ContentAnalysis.js:306-352 | a flattening without keys normalises to {} |
| ContentAnalysis.NormalizeRecognised | src/app/paper-analysis/automatic-creation/dashboard/ContentAnalysis/ContentAnalysis.js:103-109 | a normalised analysis with a non-empty first key passes the early return |
| ContentAnalysis.NormalEntriesRecognised | src/app/paper-analysis/automatic-creation/dashboard/ContentAnalysis/ContentAnalysis.js:103-109 | an object of normalised entries with a non-empty first key passes the early return |
| ContentAnalysis.NormalizeIdempotent | src/app/paper-analysis/automatic-creation/dashboard/ContentAnalysis/ContentAnalysis.js:99-352 | normalising a normalised analysis changes nothing, as long as its first key is not '' |
| ContentAnalysis.NormalizeNormalized | src/app/paper-analysis/automatic-creation/dashboard/ContentAnalysis/ContentAnalysis.js:103-109 | an analysis that passes the early return is returned unchanged |
| ContentAnalysis.NormalizeEmpty | src/app/paper-analysis/automatic-creation/dashboard/ContentAnalysis/ContentAnalysis.js:99-352 | {} normalises to {} |
| ContentAnalysis.EmptyKeyFlattened | src/app/paper-analysis/automatic-creation/dashboard/ContentAnalysis/ContentAnalysis.js:121-123 | an analysis whose only key is '' flattens to one entry under '' (also ContentAnalysis.js:284-298) |
| ContentAnalysis.EmptyFirstKeyNotRecognised | src/app/paper-analysis/automatic-creation/dashboard/ContentAnalysis/ContentAnalysis.js:105-106 | a normalised analysis whose first key is '' fails the early return, so normalising again flattens it again |
| ContentAnalysis.BuildValuesById | src/app/paper-analysis/automatic-creation/dashboard/ContentAnalysis/ContentAnalysis.js:403-412 | the loop builds the map from value id to value |
| ContentAnalysis.AddValueDeletions | src/app/paper-analysis/automatic-creation/dashboard/ContentAnalysis/ContentAnalysis.js:415-425 | the loop over the old ids adds a value deletion for each id the new map lacks |
| ContentAnalysis.AddValueAdditions | src/app/paper-analysis/automatic-creation/dashboard/ContentAnalysis/ContentAnalysis.js:427-437 | the loop over the new ids adds a value addition for each id the old map lacks |
| ContentAnalysis.AddValueUpdates | src/app/paper-analysis/automatic-creation/dashboard/ContentAnalysis/ContentAnalysis.js:439-467 | the loop over the new ids adds the text and type updates of ids in both maps |
| ContentAnalysis.AddPropertyChanges | src/app/paper-analysis/automatic-creation/dashboard/ContentAnalysis/ContentAnalysis.js:366-482 | one property's comparison adds what its specification says |
| ContentAnalysis.DetectChangesLoop | src/app/paper-analysis/automatic-creation/dashboard/ContentAnalysis/ContentAnalysis.js:356-485 | one pass over the keys of both analyses returns the changes of the specification |
| ContentAnalysis.DeletedKeysAppend | src/app/paper-analysis/automatic-creation/dashboard/ContentAnalysis/ContentAnalysis.js:372-386 | appending a record adds its key to the deleted or added property keys exactly when it is a property deletion or addition |
| ContentAnalysis.DeletionStep | src/app/paper-analysis/automatic-creation/dashboard/ContentAnalysis/ContentAnalysis.js:415-425 | one id of the deletion pass touches only the deletion list, and adds no property deletion |
| ContentAnalysis.AdditionStep | src/app/paper-analysis/automatic-creation/dashboard/ContentAnalysis/ContentAnalysis.js:427-437 | one id of the addition pass touches only the addition list, and adds no property addition |
| ContentAnalysis.ValueDeletionsKeep | src/app/paper-analysis/automatic-creation/dashboard/ContentAnalysis/ContentAnalysis.js:415-425 | the deletion pass extends only the deletion list and adds no property deletion |
| ContentAnalysis.ValueAdditionsKeep | src/app/paper-analysis/automatic-creation/dashboard/ContentAnalysis/ContentAnalysis.js:427-437 | the addition pass extends only the addition list and adds no property addition |
| ContentAnalysis.ValueUpdateKeep | src/app/paper-analysis/automatic-creation/dashboard/ContentAnalysis/ContentAnalysis.js:440-466 | one id of the update pass only extends the two update lists |
| ContentAnalysis.ValueUpdatesKeep | src/app/paper-analysis/automatic-creation/dashboard/ContentAnalysis/ContentAnalysis.js:439-467 | the update pass only extends the two update lists |
| ContentAnalysis.CompareValuesKeep | src/app/paper-analysis/automatic-creation/dashboard/ContentAnalysis/ContentAnalysis.js:403-467 | comparing the values adds no property deletion or addition and only extends the lists |
| ContentAnalysis.ValueChangesKeep | src/app/paper-analysis/automatic-creation/dashboard/ContentAnalysis/ContentAnalysis.js:391-467 | comparing a property present on both sides adds no property deletion or addition |
| ContentAnalysis.PropertyChangesKeys | src/app/paper-analysis/automatic-creation/dashboard/ContentAnalysis/ContentAnalysis.js:366-482 | a key is recorded as deleted exactly when its new property is falsy, and as added exactly when its new property is truthy and its old one falsy |
| ContentAnalysis.DetectFromStep | src/app/paper-analysis/automatic-creation/dashboard/ContentAnalysis/ContentAnalysis.js:366-482 | one key of the pass adds its property deletion or addition and only extends the lists |
| ContentAnalysis.DetectFromDeleted | src/app/paper-analysis/automatic-creation/dashboard/ContentAnalysis/ContentAnalysis.js:366-377 | the deleted property keys from a position on are the keys whose new property is falsy |
| ContentAnalysis.DetectFromAdded | src/app/paper-analysis/automatic-creation/dashboard/ContentAnalysis/ContentAnalysis.js:381-387 | the added property keys from a position on are the keys whose new property is truthy and old one falsy |
| ContentAnalysis.DetectedProperties | src/app/paper-analysis/automatic-creation/dashboard/ContentAnalysis/ContentAnalysis.js:356-387 | the property deletions name, in key order, exactly the keys whose new property is falsy, and the property additions exactly those whose new property is truthy and old one falsy |
| ContentAnalysis.DetectChanges | src/app/paper-analysis/automatic-creation/dashboard/ContentAnalysis/ContentAnalysis.js:356-485 | compares two analyses property by property; DetectChangesLoop, DetectedProperties and TypeChangeReported state what it reports |
| ContentAnalysis.ValueChangesRetyped | src/app/paper-analysis/automatic-creation/dashboard/ContentAnalysis/ContentAnalysis.js:391-393 | one property's comparison adds a property type change exactly when both sides have the property and their types differ |
| ContentAnalysis.DetectFromRetyped | src/app/paper-analysis/automatic-creation/dashboard/ContentAnalysis/ContentAnalysis.js:356-485 | from a position on, the type changes name, in key order, exactly the remaining keys whose type differs |
| ContentAnalysis.DetectedTypeChanges | src/app/paper-analysis/automatic-creation/dashboard/ContentAnalysis/ContentAnalysis.js:356-485 | the type changes name, in key order, exactly the keys of either analysis whose type differs on both sides |
| ContentAnalysis.RetypedFromMember | src/app/paper-analysis/automatic-creation/dashboard/ContentAnalysis/ContentAnalysis.js:391-393 | a key is among the retyped keys from a position on exactly when it is among the remaining keys and its type differs |
| ContentAnalysis.TypeChangeReported | src/app/paper-analysis/automatic-creation/dashboard/ContentAnalysis/ContentAnalysis.js:391-393 | a key of either analysis is reported as a property type change exactly when both have the property and their types differ |
| ContentAnalysis.ValuesByIdFromObjects | src/app/paper-analysis/automatic-creation/dashboard/ContentAnalysis/ContentAnalysis.js:403-412 | every value in the map is an object |
| ContentAnalysis.ValuesByIdObjects | src/app/paper-analysis/automatic-creation/dashboard/ContentAnalysis/ContentAnalysis.js:403-412 | the map from id to value holds only objects |
| ContentAnalysis.SameDeletionsFrom | src/app/paper-analysis/automatic-creation/dashboard/ContentAnalysis/ContentAnalysis.js:415-425 | a map compared with itself produces no value deletion |
| ContentAnalysis.SameAdditionsFrom | src/app/paper-analysis/automatic-creation/dashboard/ContentAnalysis/ContentAnalysis.js:427-437 | a map compared with itself produces no value addition |
| ContentAnalysis.SameUpdatesFrom | src/app/paper-analysis/automatic-creation/dashboard/ContentAnalysis/ContentAnalysis.js:439-467 | a map compared with itself produces no update |
| ContentAnalysis.SamePropertyUnchanged | src/app/paper-analysis/automatic-creation/dashboard/ContentAnalysis/ContentAnalysis.js:366-482 | a truthy property compared with itself produces no change |
| ContentAnalysis.SameFrom | src/app/paper-analysis/automatic-creation/dashboard/ContentAnalysis/ContentAnalysis.js:366-482 | an analysis of truthy properties compared with itself produces no change from any position |
| ContentAnalysis.DetectSelfEmpty | src/app/paper-analysis/automatic-creation/dashboard/ContentAnalysis/ContentAnalysis.js:356-485 | an analysis whose properties are all truthy compared with itself produces no deletion, addition, text update or type update |
| ContentAnalysis.DetectSelfFalsyProperty | src/app/paper-analysis/automatic-creation/dashboard/ContentAnalysis/ContentAnalysis.js:366-377 | an analysis with a null property compared with itself reports that property as deleted |
| ContentAnalysis.DeletionsFromIff | src/app/paper-analysis/automatic-creation/dashboard/ContentAnalysis/ContentAnalysis.js:415-425 | a value deletion is recorded exactly when its id is an old id missing from the new map, with the old value |
| ContentAnalysis.AdditionsFromIff | src/app/paper-analysis/automatic-creation/dashboard/ContentAnalysis/ContentAnalysis.js:427-437 | a value addition is recorded exactly when its id is a new id missing from the old map, with the new value |
| ContentAnalysis.ValueUpdateText | src/app/paper-analysis/automatic-creation/dashboard/ContentAnalysis/ContentAnalysis.js:440-455 | an id in both maps records a text update exactly when its value differs |
| ContentAnalysis.UpdatesFromIff | src/app/paper-analysis/automatic-creation/dashboard/ContentAnalysis/ContentAnalysis.js:439-467 | a text update is recorded exactly for the ids in both maps whose value differs, with the old and new values |
| ContentAnalysis.CompareDeletedIff | src/app/paper-analysis/automatic-creation/dashboard/ContentAnalysis/ContentAnalysis.js:403-425 | a value deletion is recorded exactly for an id only in the old map |
| ContentAnalysis.CompareAddedIff | src/app/paper-analysis/automatic-creation/dashboard/ContentAnalysis/ContentAnalysis.js:403-437 | a value addition is recorded exactly for an id only in the new map |
| ContentAnalysis.CompareTextIff | src/app/paper-analysis/automatic-creation/dashboard/ContentAnalysis/ContentAnalysis.js:403-455 | a text update is recorded exactly for an id in both maps whose value differs |
| ContentAnalysis.DetectFromGrows | src/app/paper-analysis/automatic-creation/dashboard/ContentAnalysis/ContentAnalysis.js:366-482 | the pass over the keys only extends the lists |
| ContentAnalysis.DetectFromPrefix | src/app/paper-analysis/automatic-creation/dashboard/ContentAnalysis/ContentAnalysis.js:366 | the pass over all keys is the pass from any position on, started from what the earlier keys recorded |
| ContentAnalysis.ValueChangesLists | src/app/paper-analysis/automatic-creation/dashboard/ContentAnalysis/ContentAnalysis.js:391-401 | the type check of a property touches only the type update list |
| ContentAnalysis.DetectFromAt | src/app/paper-analysis/automatic-creation/dashboard/ContentAnalysis/ContentAnalysis.js:366-482 | the pass at a key is that key's comparison followed by the pass over the rest |
| ContentAnalysis.DetectedVia | src/app/paper-analysis/automatic-creation/dashboard/ContentAnalysis/ContentAnalysis.js:366-482 | what a property present on both sides records ends up in the final lists |
| ContentAnalysis.DetectedValues | src/app/paper-analysis/automatic-creation/dashboard/ContentAnalysis/ContentAnalysis.js:403-467 | for a property present on both sides, every id only in the old values is a value deletion, every id only in the new values a value addition, and every id in both whose value differs a text update |
| ContentAnalysis.FindModified | src/app/paper-analysis/automatic-creation/dashboard/ContentAnalysis/ContentAnalysis.js:488-504 | the loop over the keys of both analyses returns the modifications of the specification |
| ContentAnalysis.ModifiedFromStep | src/app/paper-analysis/automatic-creation/dashboard/ContentAnalysis/ContentAnalysis.js:490-502 | one key adds its modification exactly when its values differ |
| ContentAnalysis.ModifiedFromSpec | src/app/paper-analysis/automatic-creation/dashboard/ContentAnalysis/ContentAnalysis.js:490-502 | from a position on, a key is modified exactly when it is among the remaining keys and its values differ, with its old and new values and types |
| ContentAnalysis.FindModifiedSpec | src/app/paper-analysis/automatic-creation/dashboard/ContentAnalysis/ContentAnalysis.js:488-504 | a key is modified exactly when it is in either analysis and its values serialise differently, and its entry holds its old and new values and types |
| ContentAnalysis.FindModifiedSelf | src/app/paper-analysis/automatic-creation/dashboard/ContentAnalysis/ContentAnalysis.js:488-504 | an analysis compared with itself has no modified property |
| ContentAnalysis.FindModifiedProperties | src/app/paper-analysis/automatic-creation/dashboard/ContentAnalysis/ContentAnalysis.js:488-504 | collects the properties whose serialised values differ; FindModified and FindModifiedSpec state what it returns |
| ContentAnalysis.NonBlankValues | src/app/paper-analysis/automatic-creation/dashboard/ContentAnalysis/ContentAnalysis.js:619 | the values kept are exactly the non-blank values given |
| ContentAnalysis.SanitizeAnalysis | src/app/paper-analysis/automatic-creation/dashboard/ContentAnalysis/ContentAnalysis.js:608-622 | the loop over the entries returns the sanitised analysis |
| ContentAnalysis.SanitizedPropertyFields | src/app/paper-analysis/automatic-creation/dashboard/ContentAnalysis/ContentAnalysis.js:613-620 | a sanitised property keeps its property and label or falls back to the key, always has a type, and keeps every other field |
| ContentAnalysis.SanitizedPropertyValues | src/app/paper-analysis/automatic-creation/dashboard/ContentAnalysis/ContentAnalysis.js:619 | a sanitised property keeps exactly its non-blank values, and has at least one |
| ContentAnalysis.SanitizeStep | src/app/paper-analysis/automatic-creation/dashboard/ContentAnalysis/ContentAnalysis.js:610-622 | one turn of the loop writes a key exactly when its property has a non-blank value |
| ContentAnalysis.SanitizeFromSpec | src/app/paper-analysis/automatic-creation/dashboard/ContentAnalysis/ContentAnalysis.js:610-622 | from a position on, a key is written exactly when it is among the remaining keys and has a non-blank value, and then holds its sanitised property |
| ContentAnalysis.SanitizeSpec | src/app/paper-analysis/automatic-creation/dashboard/ContentAnalysis/ContentAnalysis.js:608-622 | the sanitised analysis holds exactly the properties with a non-blank value, each reduced to its non-blank values |
| ContentAnalysis.Sanitize | src/app/paper-analysis/automatic-creation/dashboard/ContentAnalysis/ContentAnalysis.js:608-622 | keeps the properties with a non-blank value; SanitizeAnalysis and SanitizeSpec state what it returns |
| ContentAnalysis.HasValidContentIff | src/app/paper-analysis/automatic-creation/dashboard/ContentAnalysis/ContentAnalysis.js:602-604 | the analysis has valid content exactly when one of its properties has a non-blank value |
| ContentAnalysis.PaperContentDispatched | src/app/paper-analysis/automatic-creation/dashboard/ContentAnalysis/ContentAnalysis.js:598-634 | the paper content is dispatched exactly when one property has a non-blank value |
| PropertyTable.Copy | src/app/paper-analysis/automatic-creation/dashboard/ContentAnalysis/PropertyTable.js:116 | the copy of a property is an object with the same fields (also PropertyTable.js:157, PropertyTable.js:179) |
| PropertyTable.NormalizePropertyValue | src/app/paper-analysis/automatic-creation/dashboard/ContentAnalysis/PropertyTable.js:66-86 | a missing property has no values; the values array is mapped entry for entry with a falsy confidence (0 included) turned into 1; the legacy shape becomes one entry with its value (default '') and confidence (default 1); every entry has a truthy confidence |
| PropertyTable.AbsentPropertyHasOneValue | src/app/paper-analysis/automatic-creation/dashboard/ContentAnalysis/PropertyTable.js:66-86 | a property missing from the analysis is copied as {}, which reads as one empty value (also PropertyTable.js:116-117) |
| PropertyTable.CurrentValuesEmpty | src/app/paper-analysis/automatic-creation/dashboard/ContentAnalysis/PropertyTable.js:116-117 | the copied property has no values exactly when its values array is empty |
| PropertyTable.SetIndex | src/app/paper-analysis/automatic-creation/dashboard/ContentAnalysis/PropertyTable.js:122-133 | assigning at an index keeps the other entries, puts the new one there and fills any gap with undefined |
| PropertyTable.Splice | src/app/paper-analysis/automatic-creation/dashboard/ContentAnalysis/PropertyTable.js:183 | removing the entry at an index in range shifts the later ones down; an index out of range changes nothing |
| PropertyTable.EditValues | src/app/paper-analysis/automatic-creation/dashboard/ContentAnalysis/PropertyTable.js:119-141 | with no index a new value is appended; an existing entry at the index gets the new value and keeps its other fields, with its confidence defaulted to 1; otherwise a new value is written at the index; the list is never empty |
| PropertyTable.SetPropertyType | src/app/paper-analysis/automatic-creation/dashboard/ContentAnalysis/PropertyTable.js:146-149 | the type is stored in the metadata, which keeps its other fields, and nothing else of the property changes |
| PropertyTable.SetValues | src/app/paper-analysis/automatic-creation/dashboard/ContentAnalysis/PropertyTable.js:144 | the property's values are replaced and its other fields kept (also PropertyTable.js:166, PropertyTable.js:194) |
| PropertyTable.WriteProperty | src/app/paper-analysis/automatic-creation/dashboard/ContentAnalysis/PropertyTable.js:115-151 | the property is written under its id and every other property kept |
| PropertyTable.UpdatePropertyValue | src/app/paper-analysis/automatic-creation/dashboard/ContentAnalysis/PropertyTable.js:114-153 | only the edited property changes: its values are the current ones with the new value appended, replaced at the index, or written past the end; its metadata type is set exactly when a new type is given; its other fields are kept |
| PropertyTable.CallerAfterTypeEdit | src/app/paper-analysis/automatic-creation/dashboard/ContentAnalysis/PropertyTable.js:146-148 | the caller's own analysis after a type edit: when the property already has a metadata object and a type is given, that object now holds the new type and nothing else in the analysis changes; otherwise the analysis is as it was (also PropertyTable.js:116) |
| PropertyTable.TypeEditUnreported | src/app/paper-analysis/automatic-creation/dashboard/ContentAnalysis/PropertyTable.js:146-148 | as written, comparing the caller's analysis with the normalised update never reports the edited property as a property type change, even when the edit changed its type (also ContentAnalysis.js:636-640) |
| PropertyTable.TypeEditReported | src/app/paper-analysis/automatic-creation/dashboard/ContentAnalysis/PropertyTable.js:114-153 | with the metadata copied, comparing the untouched analysis with the update reports the edited property as a property type change exactly when its type differs from the new one |
| PropertyTable.AddValueToProperty | src/app/paper-analysis/automatic-creation/dashboard/ContentAnalysis/PropertyTable.js:155-168 | the property's values grow by exactly one empty value of confidence 1 at the end; other properties and fields are untouched |
| PropertyTable.DeleteValueFromProperty | src/app/paper-analysis/automatic-creation/dashboard/ContentAnalysis/PropertyTable.js:177-196 | the value at the index is removed; an emptied list gets one empty value, so a property never has zero values; an index out of range changes nothing; other properties and fields are untouched |
| PropertyTable.RemoveValue | src/app/paper-analysis/automatic-creation/dashboard/ContentAnalysis/PropertyTable.js:183-192 | the edit leaves at least one value: the entry goes, and an emptied list gets the empty value |
| PropertyTable.Without | src/app/paper-analysis/automatic-creation/dashboard/ContentAnalysis/PropertyTable.js:201 | the filtered indices are those given without the deleted one |
| PropertyTable.PropertyTableView.constructor | src/app/paper-analysis/automatic-creation/dashboard/ContentAnalysis/PropertyTable.js:1-60 | no value of any property is new at first |
| PropertyTable.PropertyTableView.OnAddValue | src/app/paper-analysis/automatic-creation/dashboard/ContentAnalysis/PropertyTable.js:155-175 | the analysis handed back is the input with only that property changed, and in it only `values`: the property's normalized values followed by one empty value; the index of the added value is remembered as new for that property |
| PropertyTable.PropertyTableView.OnDeleteValue | src/app/paper-analysis/automatic-creation/dashboard/ContentAnalysis/PropertyTable.js:177-203 | the analysis handed back is the input with only that property's `values` changed: the value at the index is removed and the later ones shift down by one, a list left empty gets one empty value, an index past the end changes nothing; the property keeps at least one value, and the deleted index is forgotten as new (later new indices are not shifted) |
| PropertyTable.GetPropertyDataType | src/app/paper-analysis/automatic-creation/dashboard/ContentAnalysis/PropertyTable.js:205-209 | the type shown is the stored type, else the template's type, else "text" |
| PropertyTable.PrefixSpec | src/app/paper-analysis/automatic-creation/dashboard/ContentAnalysis/PropertyTable.js:92 | a group name is the start of the key up to its first digit |
| PropertyTable.RowsOf | src/app/paper-analysis/automatic-creation/dashboard/ContentAnalysis/PropertyTable.js:90-105 | one row per property of the analysis |
| PropertyTable.PrefixesOf | src/app/paper-analysis/automatic-creation/dashboard/ContentAnalysis/PropertyTable.js:92 | one group name per key, in order |
| PropertyTable.Members | src/app/paper-analysis/automatic-creation/dashboard/ContentAnalysis/PropertyTable.js:90-105 | the members of a group are positions among the keys seen |
| PropertyTable.MembersSpec | src/app/paper-analysis/automatic-creation/dashboard/ContentAnalysis/PropertyTable.js:90-105 | a position is a member of a group exactly when its key's prefix names that group |
| PropertyTable.MembersIncreasing | src/app/paper-analysis/automatic-creation/dashboard/ContentAnalysis/PropertyTable.js:90-105 | the members of a group are in key order |
| PropertyTable.Pick | src/app/paper-analysis/automatic-creation/dashboard/ContentAnalysis/PropertyTable.js:97-104 | the rows at the given positions, in order |
| PropertyTable.PickSnoc | src/app/paper-analysis/automatic-creation/dashboard/ContentAnalysis/PropertyTable.js:97 | pushing a row appends it to the group |
| PropertyTable.SelectIsPick | src/app/paper-analysis/automatic-creation/dashboard/ContentAnalysis/PropertyTable.js:90-105 | the rows pushed into a group are the rows of its members, in order |
| PropertyTable.AddRowAt | src/app/paper-analysis/automatic-creation/dashboard/ContentAnalysis/PropertyTable.js:93-104 | pushing a row appends it to its own group, creating it if needed, and leaves every other group alone |
| PropertyTable.AddRowKeeps | src/app/paper-analysis/automatic-creation/dashboard/ContentAnalysis/PropertyTable.js:90-105 | one turn of the grouping loop keeps every group equal to the rows of its members so far |
| PropertyTable.GroupsAtEnd | src/app/paper-analysis/automatic-creation/dashboard/ContentAnalysis/PropertyTable.js:88-107 | at the end of the loop a group exists exactly when some key has its prefix, and holds the rows of those keys in order |
| PropertyTable.GroupProperties | src/app/paper-analysis/automatic-creation/dashboard/ContentAnalysis/PropertyTable.js:88-107 | every analysis key lands in exactly one group, named by its prefix before the first digit, and each group holds its keys' rows in key order |
| PropertyTable.GroupStep | src/app/paper-analysis/automatic-creation/dashboard/ContentAnalysis/PropertyTable.js:90-105 | one turn of the loop over the entries adds the row of the current key to its group |
| PropertyTable.RowShowsStoredType | src/app/paper-analysis/automatic-creation/dashboard/ContentAnalysis/PropertyTable.js:97-104 | a row shows the type stored in its property's metadata, which the spread of the property keeps (also PropertyTable.js:205-209) |
| EditableValue.FirstTruthy | src/app/paper-analysis/automatic-creation/dashboard/ContentAnalysis/EditableValue.js:64-68 | the field chosen is the first truthy one of the list, and none is chosen exactly when all are falsy |
| EditableValue.ScalarText | src/app/paper-analysis/automatic-creation/dashboard/ContentAnalysis/EditableValue.js:27-36 | null and undefined show as '', a string as itself, a number or boolean as its string |
| EditableValue.ValueToString | src/app/paper-analysis/automatic-creation/dashboard/ContentAnalysis/EditableValue.js:27-90 | the display text of a value; ScalarText, ArrayText and the object lemmas below state it case by case |
| EditableValue.NonEmptyAppend | src/app/paper-analysis/automatic-creation/dashboard/ContentAnalysis/EditableValue.js:40 | filtering out empty texts distributes over concatenation |
| EditableValue.ItemTexts | src/app/paper-analysis/automatic-creation/dashboard/ContentAnalysis/EditableValue.js:40 | one text per item, each the item's own text |
| EditableValue.ArrayText | src/app/paper-analysis/automatic-creation/dashboard/ContentAnalysis/EditableValue.js:39-41 | an array shows the non-empty texts of its items joined by ", " |
| EditableValue.ItemTextsAppend | src/app/paper-analysis/automatic-creation/dashboard/ContentAnalysis/EditableValue.js:40 | the texts of concatenated items are the concatenated texts |
| EditableValue.ArrayDropsEmptyItem | src/app/paper-analysis/automatic-creation/dashboard/ContentAnalysis/EditableValue.js:40 | an item with an empty text does not change the array's text |
| EditableValue.ArrayOfOne | src/app/paper-analysis/automatic-creation/dashboard/ContentAnalysis/EditableValue.js:39-41 | an array of one item shows as that item |
| EditableValue.ArrayOfTwo | src/app/paper-analysis/automatic-creation/dashboard/ContentAnalysis/EditableValue.js:39-41 | an array of two items with text shows them joined by ", " |
| EditableValue.NamedFieldShown | src/app/paper-analysis/automatic-creation/dashboard/ContentAnalysis/EditableValue.js:63-68 | an object without criteria keys shows its first truthy field among text, value, name, title and label |
| EditableValue.SingleKeyUnwrapped | src/app/paper-analysis/automatic-creation/dashboard/ContentAnalysis/EditableValue.js:70-74 | an object with one key and no truthy named field shows as the value under that key |
| EditableValue.PairsOfSpec | src/app/paper-analysis/automatic-creation/dashboard/ContentAnalysis/EditableValue.js:55-84 | the pairs are at most one per key, include every string or number property, and are empty exactly when there is none |
| EditableValue.CriteriaShown | src/app/paper-analysis/automatic-creation/dashboard/ContentAnalysis/EditableValue.js:49-61 | an object with criteria keys shows its string and number properties as pairs, or "[Complex Data]" when there are none |
| EditableValue.LargeObjectPlaceholder | src/app/paper-analysis/automatic-creation/dashboard/ContentAnalysis/EditableValue.js:76-90 | an object of more than three keys with no criteria and no named field shows the edit placeholder |
| EditableValue.SmallObjectPairs | src/app/paper-analysis/automatic-creation/dashboard/ContentAnalysis/EditableValue.js:76-90 | an object of at most three keys (not one) with no criteria and no named field shows its pairs, or the placeholder when it has none |
| EditableValue.EmptyObjectPlaceholder | src/app/paper-analysis/automatic-creation/dashboard/ContentAnalysis/EditableValue.js:71-90 | {} shows the edit placeholder, not an empty text |
| EditableValue.NestedWrapperExample | src/app/paper-analysis/automatic-creation/dashboard/ContentAnalysis/EditableValue.js:70-74 | a chain of single-key objects shows its innermost text |
| EditableValue.SerializeNonEmpty | src/app/paper-analysis/automatic-creation/dashboard/ContentAnalysis/EditableValue.js:113 | the JSON text of an array or object is never empty |
| EditableValue.ScalarStringNonEmpty | src/app/paper-analysis/automatic-creation/dashboard/ContentAnalysis/EditableValue.js:105 | the string of a number or boolean is never empty |
| EditableValue.SafeStringifyEmptyIff | src/app/paper-analysis/automatic-creation/dashboard/ContentAnalysis/EditableValue.js:102-119 | the evidence text is empty exactly for null, undefined and '' |
| EditableValue.SafeStringify | src/app/paper-analysis/automatic-creation/dashboard/ContentAnalysis/EditableValue.js:102-119 | the evidence text of a value; SafeStringifyEmptyIff and SafeStringifyPrecedence state its properties |
| EditableValue.SafeStringifyPrecedence | src/app/paper-analysis/automatic-creation/dashboard/ContentAnalysis/EditableValue.js:109-111 | the evidence text follows text before content before value |
| EditableValue.EditableValueView.constructor | src/app/paper-analysis/automatic-creation/dashboard/ContentAnalysis/EditableValue.js:192-195 | editing only for a new value, the text taken from the value, no warning and no pending type |
| EditableValue.EditableValueView.OnValueProp | src/app/paper-analysis/automatic-creation/dashboard/ContentAnalysis/EditableValue.js:197-199 | a new value replaces the text and nothing else |
| EditableValue.EditableValueView.HandleValueChange | src/app/paper-analysis/automatic-creation/dashboard/ContentAnalysis/EditableValue.js:201-204 | the text becomes the typed text, which is reported with the index |
| EditableValue.EditableValueView.ResetValue | src/app/paper-analysis/automatic-creation/dashboard/ContentAnalysis/EditableValue.js:206-209 | the text is cleared and '' reported with the index |
| EditableValue.EditableValueView.HandleTypeSelect | src/app/paper-analysis/automatic-creation/dashboard/ContentAnalysis/EditableValue.js:211-219 | a type other than the template's (when it has one) opens the warning with that type pending and reports nothing; otherwise the value is cleared and the type reported |
| EditableValue.EditableValueView.ConfirmTypeChange | src/app/paper-analysis/automatic-creation/dashboard/ContentAnalysis/EditableValue.js:221-225 | confirming clears the value, reports the pending type and closes the warning |
| AiTemplateCreation.IndexOfId | src/app/paper-analysis/automatic-creation/dashboard/Templates/AITemplateCreation.js:119-120 | the position of the first property with the id, -1 exactly when no property has it |
| AiTemplateCreation.HasIdOfMember | src/app/paper-analysis/automatic-creation/dashboard/Templates/AITemplateCreation.js:251-257 | every property's own id is found among the properties it belongs to |
| AiTemplateCreation.ValidateProperty | src/app/paper-analysis/automatic-creation/dashboard/Templates/AITemplateCreation.js:79-91 | an error object whose keys are exactly the failed checks: a blank or missing name, a blank or missing description, a falsy type, each with its own message |
| AiTemplateCreation.ValidIff | src/app/paper-analysis/automatic-creation/dashboard/Templates/AITemplateCreation.js:79-91 | no errors exactly when the name and description are non-blank strings and the type is truthy |
| AiTemplateCreation.SetField | src/app/paper-analysis/automatic-creation/dashboard/Templates/AITemplateCreation.js:125-127 | the edited list has as many properties as before |
| AiTemplateCreation.RemoveId | src/app/paper-analysis/automatic-creation/dashboard/Templates/AITemplateCreation.js:208 | filtering never lengthens the list |
| AiTemplateCreation.RemoveIdSpec | src/app/paper-analysis/automatic-creation/dashboard/Templates/AITemplateCreation.js:208 | the filtered list holds exactly the properties of another id, and is shorter when the id was present |
| AiTemplateCreation.RemoveUniqueId | src/app/paper-analysis/automatic-creation/dashboard/Templates/AITemplateCreation.js:208 | with distinct ids, removing a property's id removes just that position |
| AiTemplateCreation.KeepAll | src/app/paper-analysis/automatic-creation/dashboard/Templates/AITemplateCreation.js:208 | filtering an id no property has keeps the list unchanged |
| AiTemplateCreation.NewProperty | src/app/paper-analysis/automatic-creation/dashboard/Templates/AITemplateCreation.js:159-169 | a new property has the given id, an empty name and description, type text and is required |
| AiTemplateCreation.WithProperties | src/app/paper-analysis/automatic-creation/dashboard/Templates/AITemplateCreation.js:171-178 | the template gets the properties and a metadata count equal to their number; every other metadata entry and every other field is kept (also AITemplateCreation.js:210-217) |
| AiTemplateCreation.Unmatched | src/app/paper-analysis/automatic-creation/dashboard/Templates/AITemplateCreation.js:251-257 | the unmatched properties are at most as many as the list |
| AiTemplateCreation.UnmatchedSpec | src/app/paper-analysis/automatic-creation/dashboard/Templates/AITemplateCreation.js:251-257 | the unmatched properties are exactly those whose id the other list lacks |
| AiTemplateCreation.ModifiedOf | src/app/paper-analysis/automatic-creation/dashboard/Templates/AITemplateCreation.js:259-268 | the modified properties are at most as many as the list |
| AiTemplateCreation.ModifiedOfSpec | src/app/paper-analysis/automatic-creation/dashboard/Templates/AITemplateCreation.js:259-268 | the modified properties are exactly those whose first original namesake differs in label, description, required or type |
| AiTemplateCreation.ComparisonMembers | src/app/paper-analysis/automatic-creation/dashboard/Templates/AITemplateCreation.js:248-287 | added are the final properties with an id new to the original, deleted the original ones missing from the final template, modified those changed in label, description, required or type; title and description changes are the inequalities of name and description |
| AiTemplateCreation.ComparisonDisjoint | src/app/paper-analysis/automatic-creation/dashboard/Templates/AITemplateCreation.js:248-287 | no id is both added and deleted, added and modified, or modified and deleted |
| AiTemplateCreation.NoneUnmatched | src/app/paper-analysis/automatic-creation/dashboard/Templates/AITemplateCreation.js:251-257 | a list compared with itself has no unmatched property |
| AiTemplateCreation.NoneModified | src/app/paper-analysis/automatic-creation/dashboard/Templates/AITemplateCreation.js:259-268 | a list of distinct ids compared with itself has no modified property |
| AiTemplateCreation.SelfComparisonEmpty | src/app/paper-analysis/automatic-creation/dashboard/Templates/AITemplateCreation.js:248-287 | a template with distinct property ids compared with itself reports no change at all |
| AiTemplateCreation.DuplicateIdSelfModified | src/app/paper-analysis/automatic-creation/dashboard/Templates/AITemplateCreation.js:259-268 | with a repeated id, a template compared with itself reports the second namesake as modified |
| AiTemplateCreation.AiTemplateEditor.constructor | src/app/paper-analysis/automatic-creation/dashboard/Templates/AITemplateCreation.js:29-45 | the edited template and the kept original both start as the generated template |
| AiTemplateCreation.AiTemplateEditor.HandleTemplateChange | src/app/paper-analysis/automatic-creation/dashboard/Templates/AITemplateCreation.js:93-116 | the field takes the value, every other field is kept, and the update sent carries the edited template inside the generated one |
| AiTemplateCreation.AiTemplateEditor.HandlePropertyChange | src/app/paper-analysis/automatic-creation/dashboard/Templates/AITemplateCreation.js:118-155 | an unknown id changes and sends nothing; otherwise exactly the properties with the id get the field, every other property and field is kept, and the update is sent |
| AiTemplateCreation.AiTemplateEditor.HandleAddProperty | src/app/paper-analysis/automatic-creation/dashboard/Templates/AITemplateCreation.js:157-198 | the new property is appended, the metadata count is the old number plus one, everything else is kept and the update is sent |
| AiTemplateCreation.AiTemplateEditor.HandleDeleteProperty | src/app/paper-analysis/automatic-creation/dashboard/Templates/AITemplateCreation.js:200-246 | an unknown id changes and sends nothing; otherwise the properties of that id go, the list shrinks, the metadata count is the new number and the update is sent |
| RagService.Delay | src/app/paper-analysis/services/RAGService.ts:17 | the wait before retry k, for each of the four retries, is the k-th of 300, 600, 1200 and 2400 ms (also RAGService.ts:152) |
| RagService.WithRetry | src/app/paper-analysis/services/RAGService.ts:135-168 | the attempts made never pass four retries, and the reply kept is that of the last call made |
| RagService.RetrySpec | src/app/paper-analysis/services/RAGService.ts:145-166 | each retry follows a rate-limit error (a 429, Too Many Requests, an exhausted service tier or code 3505) and waits the scheduled delay; a rate-limit error is kept only once the retries are used up |
| RagService.AtMostFiveCalls | src/app/paper-analysis/services/RAGService.ts:18 | analysing one property calls the model at most five times (also RAGService.ts:151) |
| RagService.OtherErrorsRethrown | src/app/paper-analysis/services/RAGService.ts:144-166 | an error that is not a rate limit is rethrown at once, without waiting |
| RagService.PersistentRateLimit | src/app/paper-analysis/services/RAGService.ts:17-18 | rate limits on every call give four retries with the waits 300, 600, 1200 and 2400 ms, then the fifth error (also RAGService.ts:151-166) |
| RagService.RateLimitWait | src/app/paper-analysis/services/RAGService.ts:119-127 | the wait is never negative, brings the call at least the minimum delay after the last one, and is zero unless it lands exactly on that minimum |
| RagService.EntryShape | src/app/paper-analysis/services/RAGService.ts:93-109 | a property's result carries its label and type; after an error it has no values and the error's message, otherwise it is the response |
| RagService.LastIndex | src/app/paper-analysis/services/RAGService.ts:79-111 | the last property with a given id among the first n, or -1 when none has it |
| RagService.ResultPerProperty | src/app/paper-analysis/services/RAGService.ts:68-114 | every property id gets a result, every result belongs to a property id, and with distinct ids each property's result is its own |
| RagService.RagServiceState.constructor | src/app/paper-analysis/services/RAGService.ts:8 | the last call time starts at 0 |
| RagService.RagServiceState.EnforceRateLimit | src/app/paper-analysis/services/RAGService.ts:119-130 | the wait taken is max(0, minimum delay minus the time since the last call), and the last call time becomes the time after the wait |
| RagService.RagServiceState.ProcessPropertiesSequentially | src/app/paper-analysis/services/RAGService.ts:68-114 | no property list fails with "Invalid template structure: no properties found"; a missing property fails; otherwise one result per property id, a later duplicate winning, and the last call time is that of the last property |
| RagService.RagServiceState.ProcessList | src/app/paper-analysis/services/RAGService.ts:79-113 | the loop over the properties: a missing property fails, otherwise every id holds the result of its last property |
| RagService.RagServiceState.AnalyzePaperSections | src/app/paper-analysis/services/RAGService.ts:32-62 | a successful batch analysis is returned as it is; a failed one falls back to the sequential analysis |
| RagService.EveryNonBlank | src/app/paper-analysis/services/RAGService.ts:184-188 | true exactly when every section text is a non-blank string |
| RagService.ValidSectionsIff | src/app/paper-analysis/services/RAGService.ts:173-189 | sections are valid exactly when they form a non-empty object whose every text is a non-blank string |
| RagService.ValidateSections | src/app/paper-analysis/services/RAGService.ts:173-189 | the section check; ValidSectionsIff states when it holds |
| RagService.ValuesOf | src/app/paper-analysis/services/RAGService.ts:196-215 | one value per key of the results |
| RagService.CountSucceeded | src/app/paper-analysis/services/RAGService.ts:196-198 | the successful results are at most all of them |
| RagService.StatsBounds | src/app/paper-analysis/services/RAGService.ts:194-207 | the total is the number of results, successes are among them, failures are the rest, and the success rate is a percentage, 0 for no results and 100 exactly when nothing failed |
| RagService.AnalysisStats | src/app/paper-analysis/services/RAGService.ts:194-207 | the counts of the results; StatsBounds states their bounds |
| RagService.SucceededAmongType | src/app/paper-analysis/services/RAGService.ts:226-229 | the successes of a type never outnumber its results |
| RagService.Tally | src/app/paper-analysis/services/RAGService.ts:216-229 | one result counted: a new type gets a fresh record, its count goes up by one, its successes when it succeeded, no other type changes, and the total count grows by one |
| RagService.AnalyzeResultsByType | src/app/paper-analysis/services/RAGService.ts:212-242 | every type that occurs has a record counting its results and its successes, and the counts add up to the number of results |
| ApiService.HttpErrorMessage | src/app/paper-analysis/services/ApiService.ts:113-116 | an error status throws the body's message when it has one, and "HTTP error! status: " with the status when the body is not JSON (also ApiService.ts:167-170) |
| ApiService.Received | src/app/paper-analysis/services/ApiService.ts:53-72 | a call succeeds with the parsed data exactly when the response is ok; a failed request throws its own error and an error status the message above (also ApiService.ts:113-118) |
| ApiService.PropertiesOnlyOnObjects | src/app/paper-analysis/services/ApiService.ts:342-346 | only a truthy object can hold a truthy properties field |
| ApiService.ExtractTemplateSpec | src/app/paper-analysis/services/ApiService.ts:332-360 | the template is the first candidate that has properties (the generated template, the selected one, the available one, the nested template, the data itself), and null exactly when the data is falsy or no candidate has properties |
| ApiService.ExtractTemplate | src/app/paper-analysis/services/ApiService.ts:332-360 | picks the template from the response; ExtractTemplateSpec states which |
| ApiService.LlmTemplatePreferred | src/app/paper-analysis/services/ApiService.ts:342 | a generated template with properties wins over every other candidate |
| ApiService.BareTemplateUsed | src/app/paper-analysis/services/ApiService.ts:346 | data with properties and no nested template is used as the template itself |
| ApiService.ProblemsRequest | src/app/paper-analysis/services/ApiService.ts:146-155 | a falsy field id throws "Field ID is required"; otherwise the payload holds the field id and the problem of the generated problem, or null |
| ApiService.CheckProblemsResponse | src/app/paper-analysis/services/ApiService.ts:172-182 | a reply is accepted, unchanged, exactly when its field id is unset or the one asked for |
| ApiService.AnalyzeResearchProblemsSpec | src/app/paper-analysis/services/ApiService.ts:146-187 | no request without a field id; otherwise exactly one request, and the data is returned only for an ok reply that passes the field-id check |
| ApiService.AnalyzeResearchProblems | src/app/paper-analysis/services/ApiService.ts:146-187 | the request and its outcome; AnalyzeResearchProblemsSpec states them |
| ApiService.WrongFieldRejected | src/app/paper-analysis/services/ApiService.ts:174-180 | a reply for another field throws "Server processed wrong field ID" |
| ApiService.InitiateResearchFieldsSpec | src/app/paper-analysis/services/ApiService.ts:100-144 | at most one progress report, made only with processing information, carrying the fields and a progress that defaults to 0; a completed analysis returns the fields at progress 100, anything else the data as received |
| ApiService.InitiateResearchFieldsAnalysis | src/app/paper-analysis/services/ApiService.ts:100-144 | the reply's outcome and the progress reports; InitiateResearchFieldsSpec states them |
| ApiService.ApiServiceState.constructor | src/app/paper-analysis/services/ApiService.ts:9-12 | the client starts with a new retrieval service whose last call time is 0 |
| ApiService.ApiServiceState.AnalyzeContent | src/app/paper-analysis/services/ApiService.ts:301-330 | without a template it throws "No valid template found for analysis" and makes no call; otherwise the result holds the sections, the retrieval analysis of the extracted template and the completed status |
| ResearchFieldSection.TopIndex | src/app/paper-analysis/automatic-creation/dashboard/ResearchFieldSection.js:75-77 | the reduction ends at one of the items it ran over |
| ResearchFieldSection.TopBy | src/app/paper-analysis/automatic-creation/dashboard/ResearchFieldSection.js:73-78 | null exactly for a missing or empty list, otherwise the item the reduction ends at (also ResearchProblem.js:165-170) |
| ResearchFieldSection.TopIsFirstMax | src/app/paper-analysis/automatic-creation/dashboard/ResearchFieldSection.js:75-77 | with numeric scores the item chosen has the highest score and every earlier item a strictly lower one (also ResearchProblem.js:167-169) |
| ResearchFieldSection.DescendingTopIsFirst | src/app/paper-analysis/automatic-creation/dashboard/ResearchFieldSection.js:75-77 | with strictly falling scores the first item is chosen |
| ResearchFieldSection.FindTopConfidenceField | src/app/paper-analysis/automatic-creation/dashboard/ResearchFieldSection.js:73-78 | null exactly for a missing or empty list, otherwise one of the fields |
| ResearchFieldSection.TopFieldIsFirstMax | src/app/paper-analysis/automatic-creation/dashboard/ResearchFieldSection.js:73-78 | the field found has the highest score, the earliest one on ties |
| ResearchFieldSection.FallbackResearchFields | src/app/paper-analysis/automatic-creation/dashboard/ResearchFieldSection.js:19-52 | five fields with the ids R112118, R136139, R112125, R136131, R208 and the scores 9, 8.5, 8, 7.5, 7 |
| ResearchFieldSection.FallbackIdsDistinct | src/app/paper-analysis/automatic-creation/dashboard/ResearchFieldSection.js:22-46 | the five fallback ids are distinct |
| ResearchFieldSection.FallbackFieldsShape | src/app/paper-analysis/automatic-creation/dashboard/ResearchFieldSection.js:19-52 | the fallback ids are distinct and the scores fall strictly from 9 to 7, so the first field is the default selection |
| ResearchFieldSection.TransformFields | src/app/paper-analysis/automatic-creation/dashboard/ResearchFieldSection.js:108-113 | one field per annotation, in order, named after it with its score, an empty description, and the looked-up id or else the label as id |
| ResearchFieldSection.ResearchFieldView.constructor | src/app/paper-analysis/automatic-creation/dashboard/ResearchFieldSection.js:14-16 | nothing selected and the fallback not in use |
| ResearchFieldSection.ResearchFieldView.AnalyzeResearchFields | src/app/paper-analysis/automatic-creation/dashboard/ResearchFieldSection.js:91-151 | nothing happens without a title or an abstract; a classification dispatches its fields and the success status; a failed one dispatches the five fallback fields, the fallback status, and marks the fallback in use |
| ResearchFieldSection.ResearchFieldView.SelectTopField | src/app/paper-analysis/automatic-creation/dashboard/ResearchFieldSection.js:153-165 | no fields change nothing; otherwise the top field is selected and dispatched, and in automatic mode the effect fails on the missing handler |
| ResearchFieldSection.ResearchFieldView.HandleFieldSelection | src/app/paper-analysis/automatic-creation/dashboard/ResearchFieldSection.js:167-174 | the first field with the chosen id becomes the selection and is dispatched; an unknown id changes nothing |
| ResearchFieldSection.ResearchFieldView.BorderColorClass | src/app/paper-analysis/automatic-creation/dashboard/ResearchFieldSection.js:176-181 | only the selected field has a border: green when ten times its score reaches 50, amber otherwise |
| ResearchFieldSection.ScaledAtLeastHalfIff | src/app/paper-analysis/automatic-creation/dashboard/ResearchFieldSection.js:178 | for a numeric score the rule is a score of at least 5; a score that is not a number never passes (also Header.js:28) |
| ResearchFieldSection.FirstWithId | src/app/paper-analysis/automatic-creation/dashboard/ResearchFieldSection.js:169 | the position of the first item with the id, none exactly when no item has it (also ResearchProblem.js:222, Header.js:38-40) |
| ResearchProblem.FindTopConfidenceProblem | src/app/paper-analysis/automatic-creation/dashboard/ResearchProblem/ResearchProblem.js:165-170 | null exactly for a missing or empty list, otherwise one of the problems |
| ResearchProblem.TopProblemIsFirstMax | src/app/paper-analysis/automatic-creation/dashboard/ResearchProblem/ResearchProblem.js:165-170 | the problem found has the highest confidence, the earliest one on ties |
| ResearchProblem.BorderColorClass | src/app/paper-analysis/automatic-creation/dashboard/ResearchProblem/ResearchProblem.js:228-238 | in automatic mode the highest-scoring problem is green; otherwise only the selected problem has a border, green when its confidence reaches the threshold (0.5 by default), amber otherwise |
| ResearchProblem.AlertMatchesBorder | src/app/paper-analysis/automatic-creation/dashboard/ResearchProblem/ResearchProblem.js:228-238 | for numeric values the low-confidence alert shows exactly when the selected problem's border is amber, that is when its confidence is below the threshold (also ResearchProblem.js:318-319) |
| ResearchProblem.DefaultThreshold | src/app/paper-analysis/automatic-creation/dashboard/ResearchProblem/ResearchProblem.js:233 | without a threshold from the server the alert shows exactly below a confidence of 0.5 (also ResearchProblem.js:319) |
| ResearchProblem.ProblemsFound | src/app/paper-analysis/automatic-creation/dashboard/ResearchProblem/ResearchProblem.js:199-209 | with at least one problem: the response, the first problem of highest confidence as chosen by `findTopConfidenceProblem`, and the completed status are dispatched in that order; otherwise nothing |
| ResearchProblem.ResearchProblemView.constructor | src/app/paper-analysis/automatic-creation/dashboard/ResearchProblem/ResearchProblem.js:161-163 | loading, with no analysis and no error |
| ResearchProblem.ResearchProblemView.AnalyzeProblems | src/app/paper-analysis/automatic-creation/dashboard/ResearchProblem/ResearchProblem.js:183-219 | nothing without a selected field id and an abstract; otherwise loading ends, and an error from the model or the server is recorded and dispatched, else the problems found are dispatched |
| ResearchProblem.HandleProblemSelection | src/app/paper-analysis/automatic-creation/dashboard/ResearchProblem/ResearchProblem.js:221-226 | exactly one SELECT_RESEARCH_PROBLEM is dispatched, carrying the first problem whose id is the chosen value (`find`); an unknown id dispatches nothing |
| Header.FieldColor | src/app/paper-analysis/common/Header.js:26-29 | no colour without a selected field; green exactly when ten times its score reaches 50, amber otherwise |
| Header.BadgeDisagreesWithColour | src/app/paper-analysis/common/Header.js:26-29 | a score of 4.96 gets the High Confidence badge, which rounds, in the amber colour, which does not (also Header.js:151-159) |
| Header.FieldThresholds | src/app/paper-analysis/common/Header.js:28 | for a numeric score the colour needs at least 5 and the badge at least 4.95 (also Header.js:151) |
| Header.ProblemConfidence | src/app/paper-analysis/common/Header.js:48-55 | the selected problem's truthy confidence, else the generated problem's truthy confidence, else 0 |
| Header.ProblemStyle | src/app/paper-analysis/common/Header.js:31-69 | a generated problem is always in the primary colour; otherwise green exactly when the confidence reaches 0.5, amber otherwise |
| Header.ProblemRowHiddenEarly | src/app/paper-analysis/common/Header.js:20 | on the metadata and research-field steps the problem row is hidden (also Header.js:174) |
| Header.ProblemTextShowsUndefined | src/app/paper-analysis/common/Header.js:36-41 | a selected problem missing from the list is shown as "Research Problem: undefined" |
| Header.ProblemTextCorrectedSpec | src/app/paper-analysis/common/Header.js:36-46 | the intended text: the prefix and the found problem's description, or the bare prefix; else the generated problem's title after its prefix; else nothing |
| Header.ProblemTextAgrees | src/app/paper-analysis/common/Header.js:36-46 | the text as written and the intended one agree whenever the selection is found with a truthy description, and on the other branches |
| Header.ProblemText | src/app/paper-analysis/common/Header.js:36-46 | the header's problem line as written; ProblemTextShowsUndefined and ProblemTextAgrees relate it to the intended one |
| Header.TemplateInfoOf | src/app/paper-analysis/common/Header.js:71-99 | nothing before the template step; a selected template shows its name and id and wins over a generated one; a generated one is reported only without a selected one; neither shows nothing |
| Header.GeneratedPropertyCount | src/app/paper-analysis/common/Header.js:89-96 | a generated template shows its number of properties, 0 when it has none |
| PaperAnalysisSlice.SliceStepIndex | src/app/paper-analysis/store/paperAnalysisSlice_old.js:142 | the first step of the table from a position on with the id, -1 exactly when none has it (also paperAnalysisSlice_old.js:272-273) |
| PaperAnalysisSlice.SelectStepById | src/app/paper-analysis/store/paperAnalysisSlice_old.js:272-273 | a step is found exactly when the table has one with the id, and it is a step of the table with that id |
| PaperAnalysisSlice.WithSlot | src/app/paper-analysis/store/paperAnalysisSlice_old.js:150-151 | writing a step record changes that record only, and nothing when the key names no record |
| PaperAnalysisSlice.WithDefault | src/app/paper-analysis/store/paperAnalysisSlice_old.js:149 | a destructuring default applies exactly to an undefined value |
| PaperAnalysisSlice.ProcessingUpdatedSpec | src/app/paper-analysis/store/paperAnalysisSlice_old.js:148-157 | only the record named by the step id changes, only its processing, and only when it had one; the status is the payload's, the progress defaults to 0 and the error to null |
| PaperAnalysisSlice.ProcessingUpdated | src/app/paper-analysis/store/paperAnalysisSlice_old.js:148-157 | the `updateStepProcessing` reducer on values; ProcessingUpdatedSpec states the new state |
| PaperAnalysisSlice.HyphenatedStepIgnored | src/app/paper-analysis/store/paperAnalysisSlice_old.js:3-40 | the hyphenated step ids of the table name no state record, so their processing updates change nothing (also paperAnalysisSlice_old.js:148-157) |
| PaperAnalysisSlice.NavigationStarted | src/app/paper-analysis/store/paperAnalysisSlice_old.js:168-174 | the navigation state is the payload with progress 0 and navigating true unless the payload says otherwise |
| PaperAnalysisSlice.NavigationPayloadOverrides | src/app/paper-analysis/store/paperAnalysisSlice_old.js:169-171 | a payload that sets navigating to false overrides the default |
| PaperAnalysisSlice.ContentAnalysisMerged | src/app/paper-analysis/store/paperAnalysisSlice_old.js:237-245 | sections, images and tables are each replaced only by a truthy value; everything else is kept |
| PaperAnalysisSlice.ListAndMetadata | src/app/paper-analysis/store/paperAnalysisSlice_old.js:211-230 | the list is replaced, the metadata only by truthy metadata, and every other field is kept |
| PaperAnalysisSlice.SelectStepProcessing | src/app/paper-analysis/store/paperAnalysisSlice_old.js:278-279 | the record's processing when it is truthy, else the idle record |
| PaperAnalysisSlice.InitialSelectors | src/app/paper-analysis/store/paperAnalysisSlice_old.js:42-135 | in the initial state no step is completed and every step's processing is idle (also paperAnalysisSlice_old.js:274-279) |
| PaperAnalysisSlice.SelectIsStepCompleted | src/app/paper-analysis/store/paperAnalysisSlice_old.js:274-275 | whether a step's completion flag is truthy; InitialSelectors states it is false for every step at the start |
| PaperAnalysisSlice.PaperAnalysisStore.constructor | src/app/paper-analysis/store/paperAnalysisSlice_old.js:42-135 | the store starts in the initial state, on the first step |
| PaperAnalysisSlice.PaperAnalysisStore.SetCurrentStep | src/app/paper-analysis/store/paperAnalysisSlice_old.js:141-146 | moves to the table's step with the id; an unknown id changes nothing; the current step stays one of the table's |
| PaperAnalysisSlice.PaperAnalysisStore.SetProcessingState | src/app/paper-analysis/store/paperAnalysisSlice_old.js:148-157 | a missing payload throws and changes nothing; otherwise the processing update above |
| PaperAnalysisSlice.PaperAnalysisStore.SetError | src/app/paper-analysis/store/paperAnalysisSlice_old.js:159-161 | the error becomes the payload and nothing else changes |
| PaperAnalysisSlice.PaperAnalysisStore.CompleteStep | src/app/paper-analysis/store/paperAnalysisSlice_old.js:163-165 | the step is marked completed, every other step keeps its mark, and nothing else changes |
| PaperAnalysisSlice.PaperAnalysisStore.StartNavigation | src/app/paper-analysis/store/paperAnalysisSlice_old.js:168-174 | only the navigation state changes, to the started state above |
| PaperAnalysisSlice.PaperAnalysisStore.UpdateNavigationProgress | src/app/paper-analysis/store/paperAnalysisSlice_old.js:176-178 | a null or undefined navigation state throws; an object takes the progress; nothing else changes |
| PaperAnalysisSlice.PaperAnalysisStore.EndNavigation | src/app/paper-analysis/store/paperAnalysisSlice_old.js:180-182 | the navigation state goes back to the initial one |
| PaperAnalysisSlice.PaperAnalysisStore.SetPaperUrl | src/app/paper-analysis/store/paperAnalysisSlice_old.js:185-187 | the paper URL becomes the payload and nothing else changes |
| PaperAnalysisSlice.PaperAnalysisStore.SetAnalysisMode | src/app/paper-analysis/store/paperAnalysisSlice_old.js:189-191 | the analysis mode becomes the payload and nothing else changes |
| PaperAnalysisSlice.PaperAnalysisStore.SetMetadata | src/app/paper-analysis/store/paperAnalysisSlice_old.js:194-199 | the payload is spread over the metadata fields and nothing else changes |
| PaperAnalysisSlice.PaperAnalysisStore.SetResearchFields | src/app/paper-analysis/store/paperAnalysisSlice_old.js:202-204 | the research fields' list becomes the payload and nothing else changes |
| PaperAnalysisSlice.PaperAnalysisStore.SelectField | src/app/paper-analysis/store/paperAnalysisSlice_old.js:206-208 | the selected field becomes the payload and nothing else changes |
| PaperAnalysisSlice.PaperAnalysisStore.SetResearchProblems | src/app/paper-analysis/store/paperAnalysisSlice_old.js:211-217 | a missing payload throws; otherwise the problems are replaced and the metadata when truthy |
| PaperAnalysisSlice.PaperAnalysisStore.SelectProblem | src/app/paper-analysis/store/paperAnalysisSlice_old.js:219-221 | the selected problem becomes the payload and nothing else changes |
| PaperAnalysisSlice.PaperAnalysisStore.SetTemplates | src/app/paper-analysis/store/paperAnalysisSlice_old.js:224-230 | a missing payload throws; otherwise the available templates are replaced and the metadata when truthy |
| PaperAnalysisSlice.PaperAnalysisStore.SelectTemplate | src/app/paper-analysis/store/paperAnalysisSlice_old.js:232-234 | the selected template becomes the payload and nothing else changes |
| PaperAnalysisSlice.PaperAnalysisStore.SetContentAnalysis | src/app/paper-analysis/store/paperAnalysisSlice_old.js:237-245 | a missing payload throws; otherwise the content analysis is merged as above |

## Left out

- Network and language-model I/O: every `fetch`, the LangChain chains, `classifyPaper` and the resource lookup behind it. They are parameters: a reply datatype (`ApiService.HttpReply`, `RagService.Reply`), an oracle function from a property and an attempt to a reply, or the classification as an `Option` of annotations.
- The loop that looks up a resource id for each field label (ResearchFieldSection.js:99-105) is not modelled; its result enters as the `links` object.
- Timers and the clock: `setTimeout`/`setInterval` waits are recorded as lists of durations, never slept; `Date.now()` is the parameter `now` (or a `clock` function giving the times around each wait); ISO timestamps are the parameter `iso`.
- Random identifiers (`Math.random`, `crypto.randomUUID`) are parameters or drawn from an `IdSource`/`IdDraws` supply; no property depends on their values.
- Parsing outside the model: `JSON.parse`, `JSON.stringify` beyond `JsValue.Serialize`, Ajv schema validation, the regular-expression repair of model output (`sanitizeJsonString`, code-fence and comment stripping in `cleanAndValidateResponse`, `extractJSONManually`). The model starts from the parsed value. The resource patterns of `simplifyValue` are a matcher parameter.
- Prompt strings, `console` logging, JSX rendering and the presentation-only components are not modelled.
- Floating point: numbers are exact reals. `toFixed`, percentages shown to the user and `avgConfidence` in `analyzeResultsByType` are left out; `successRate` is an exact ratio.
- `NaN` and `Infinity` are represented as `null`. A string's numeric value (`JsValue.ToNumber`) is 0 for a blank string and unknown (`None`) otherwise, so `>`/`>=` between a number and a non-blank numeric string is false in the model.
- `===` on objects and arrays compares structure, not identity. Prototype properties (`toString` on a plain object) read as `undefined`, with one exception: `ContentAnalysis.HasValuesMember` treats an array as having `values`, as `Array.prototype.values` does.
- JsString.ToLower, JsString.ToUpperChar and JsString.Capitalize map only the ASCII letters, where `toLowerCase` and `toUpperCase` map all of Unicode. Their users inherit this: ContentAnalysis.LabelWord (and so ContentAnalysis.Label), GenericLlmService.RetypeProperty, GenericLlmService.FormatKey and MetadataSection.LowerDoi.
- Strings are sequences of Unicode scalar values. JavaScript's `length`, `substring`, `slice` and `charCodeAt` count UTF-16 code units, so a text with characters outside the Basic Multilingual Plane has other lengths, offsets and character codes in the model (GenericLlmService.TextFingerprint, the trimming and slicing in JsString, ContentAnalysis.Label).
- Object key order follows insertion, except that JavaScript lists integer-like keys first; the model does not reorder them.
- Where the source throws a TypeError on a malformed input (reading a field of `null`, calling an array method on a non-array), many members model the throw as a `Failure`. The members below do not: the first three carry on where the source throws, the rest require that input away; each line names the throw it leaves out.
- AnalysisContext.Reduce: a nullish payload makes `START_TRANSITION`, `SET_RESEARCH_PROBLEMS`, `UPDATE_LLM_PROBLEM`, `TRACK_EVALUATION_DATA`, `CLEAR_DATA_FROM_STEP` and `UPDATE_EVALUATION_DATA` read a field of `null` or `undefined` and throw (AnalysisContext.js:197, 400, 453, 540, 555, 613). The model reads `undefined` there and returns a state. Every dispatch in the modelled components passes an object.
- ResearchFieldSection.TransformFields: a `null` annotation makes the `map` throw; the model reads `undefined` fields from it.
- ResearchFieldSection.FirstWithId: a `null` item makes `find` throw; the model reads its `id` as `undefined` and goes on.
- ResearchFieldSection.FindTopConfidenceField: requires a missing list or an array of objects (`Records`); `reduce` on another value, or reading `score` of a `null` item, throws.
- ResearchFieldSection.ResearchFieldView.SelectTopField: the same requirement on the fields.
- ResearchProblem.FindTopConfidenceProblem: requires a missing list or an array of objects; other values throw as above.
- ResearchProblem.ProblemsFound: requires `orkg_problems` to be readable as a list (`ProblemList`).
- ResearchProblem.ResearchProblemView.AnalyzeProblems: the same requirement on the server's reply.
- Header.ProblemTextShowsUndefined: requires the ORKG list, when set, to be an array (`ProblemsReadable`); `find` on another value throws.
- Header.ProblemTextCorrectedSpec and Header.ProblemTextAgrees: the same requirement.
- AiTemplateCreation.ValidateProperty: requires the name and the description to be strings or missing; `trim` on another value throws.
- AiTemplateCreation.AiTemplateEditor.HandlePropertyChange, HandleAddProperty and HandleDeleteProperty: require the edited template to hold an array of object properties (`Editable`).
- PropertyTable.AddValueToProperty, PropertyTable.DeleteValueFromProperty, PropertyTable.UpdatePropertyValue, PropertyTable.PropertyTableView.OnAddValue and PropertyTable.PropertyTableView.OnDeleteValue: require a property's values, when an array, to hold no `null` item (`Normalizable`).
- PropertyTable.GroupProperties: requires every property to be present and normalisable (`Groupable`).
- ContentAnalysis.DetectChangesLoop: requires both analyses to be comparable (`ComparableAnalysis`): each truthy property holds an array of values without `null` items.
- ContentAnalysis.SanitizeAnalysis: requires the analysis to be sanitizable (`SanitizableAnalysis`).
- PaperAnalysisSlice.PaperAnalysisStore.SetMetadata, SetResearchFields, SelectField, SetResearchProblems, SelectProblem, SetTemplates and SelectTemplate: require the nested record they write to be an object; Immer would throw on `null`.
- RagService.StatsBounds and RagService.AnalyzeResultsByType: require every result to be readable (`Readable`); the source throws on a missing first value.
- ApiService.ApiServiceState.AnalyzeContent and RagService.RagServiceState.ProcessPropertiesSequentially: require the property list, when truthy, to be an array.
- A successful response whose body is not JSON (`response.json()` failing after `ok`) is not modelled: an ok reply carries its parsed data.
- `fetchWithTimeout`'s abort after the timeout appears only as an `Unreachable` reply.
- ApiService.ApiServiceState.constructor: the retrieval service's constructor throws once another instance exists; the model always creates a fresh one.
- The step table of the store slice (`paperAnalysisSlice_old.js:3-40`) is a constant; its titles and descriptions are not part of the model.
- ResearchFieldSection: in automatic mode the effect calls `handleAnalysis`, which the component never defines. `SelectTopField` reports this as the error `HANDLE_ANALYSIS_MISSING` instead of modelling a call.
- ContentAnalysis.NormalizeIdempotent: requires a non-empty first key. An empty first key is falsy, so the early return does not recognise already-normalised results (`EmptyFirstKeyNotRecognised`).
- ContentAnalysis.DetectSelfEmpty: requires every property to be truthy. A falsy property is reported as deleted when an analysis is compared with itself (`DetectSelfFalsyProperty`).
- AiTemplateCreation.SelfComparisonEmpty: requires distinct property ids. With a repeated id, a template compared with itself reports a modification (`DuplicateIdSelfModified`).
- PropertyTable.UpdatePropertyValue: requires that a property with truthy metadata holds an object there when a type is given. Spreading a primitive into an object is not modelled.
- MetadataSection.PublicationDate: the date text comes from a `dateIso` parameter that always succeeds. `toISOString` throwing a RangeError on an invalid date, inside `parseCiteResult`, is not modelled.
- PropertyTable.UpdatePropertyValue: it works on values, so the `metadata` object it shares with the caller's analysis is not updated in place. `PropertyTable.CallerAfterTypeEdit` models that side effect separately (see Findings).
- The evaluation records sent by `trackEvaluation` from the content-analysis and template-editing components are not modelled. `AnalysisContext.TrackEvaluation` models the action they dispatch.
- PaperAnalysisSlice.NavigationStarted: navigation is not forced to true. The payload is spread after the default, so a payload that sets `isNavigating` keeps its own value (`NavigationPayloadOverrides`).
- GenericLlmService: the per-property `catch` in `analyzePaperSections` (an error response, then a 20 s pause) is not modelled. `analyze` catches its own errors and returns an error response, so the model's loop records that response.
- GenericLlmService: `extractResearchProblem`, `generateResearchTemplate` and `classifyPaper` are language-model calls. Their results are parameters.

## Findings

| source | as written | input that shows it | evidently intended | confidence | as-written member | corrected member |
|---|---|---|---|---|---|---|
| src/app/paper-analysis/common/Header.js:41 | `'Research Problem: ' + selectedProblem?.description \|\| ''`: the `\|\|` applies to the whole concatenation, which is never empty | a selected problem id that is not in `orkg_problems` shows "Research Problem: undefined" | the fallback applies to the description, giving "Research Problem: " with nothing after it | not executed | Header.ProblemTextShowsUndefined | Header.ProblemTextCorrectedSpec |
| src/app/paper-analysis/automatic-creation/dashboard/ContentAnalysis/PropertyTable.js:116 | `{ ...updatedAnalysis[propertyId] }` copies the property but not its `metadata`, so `property.metadata.property_type = newType` (line 148) also rewrites the caller's `analysis`, which `handleAnalysisUpdate` then compares with the update (ContentAnalysis.js:640) | a type edit through the table on a property that already has a metadata object, from type `text` to `url` | the edit is reported as a `property_type_changed` record, as for any other change of type | not executed | PropertyTable.TypeEditUnreported | PropertyTable.TypeEditReported |
