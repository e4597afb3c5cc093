# Solution workbench: a verified model of its logic

The application is a browser workbench for pre-sales proposals. A user picks
reference documents from a knowledge library, chooses or edits a section
template, types a demand, and has a language model write the proposal. A
second screen scores an existing proposal on five dimensions. The files here
model the logic behind those screens as Dafny and prove what it guarantees:

- `types.dfy` (`Types`): knowledge items (a policy is a knowledge item that also
  carries the policy fields), templates, and the "distinct ids" predicates.
- `sequences.dfy` (`Sequences`): `filter` as `Keep`, `join` as `Join`, and a
  one-character `split` (`SplitOn`) used to show that a join loses nothing.
- `text.dfy` (`Text`): `toLowerCase` on ASCII letters and `includes`, with the
  proof that `includes` means "occurs somewhere".
- `gemini_service.dfy` (`GeminiService`): the request texts sent to the model
  and the return/throw shape of `generateSolution`, `analyzePolicy` and
  `evaluateSolution`. The model is a function parameter from request text to
  `Reply` (`Done(value)` or `Thrown(error)`).
- `knowledge_base.dfy` (`KnowledgeBase`): the tab listing with its name search,
  the recommended policies, the empty-URL guard of the web import, and the card
  action that starts a policy analysis.
- `evaluation.dfy` (`Evaluation`): the radar-chart data, the rounded average,
  the three verdict bands, and the class `EvaluationPanel` with the evaluate and
  reset handlers.
- `workbench.dfy` (`Workbench`): the selection toggle, the template lookup, save
  and create operations, the structure editor, and the assembly of the
  generation request. The class `Session` holds the screen's state. Its methods
  are the handlers, and `Valid()` is the invariant they keep: the registry is
  non-empty, template ids are distinct, and selected ids are distinct.
- `constants.dfy` (`Constants`): the default templates and the mock libraries,
  with the facts the screens rely on.

Facts about the code that shape the model:

- The generation request is one concatenated string. It carries the template
  name, the sections, the demand, and one `[参考源: name]` marker per selected
  item. It does not carry the items' content, placeholders, or separate context
  blocks.
- There is no template deletion.
- The library search filters the mock lists by name only. There is no folder or
  recycle-bin view.
- `handleAddCustomTemplate` (components/Workbench.tsx:66-80) has no caller: the
  "自定义" button (components/Workbench.tsx:186-188) has no click handler. The
  `newTemplateName` field is only ever set to `''` (components/Workbench.tsx:77),
  so a created template would always be named "自定义模版".
  `Workbench.NewCustomTemplate` and `Workbench.Session.AddCustomTemplate` keep
  the name as a general field anyway, as the handler is written.
- `analyzePolicy` builds its client before its `try`
  (services/geminiService.ts:39-40), so a failure to build the client escapes.
  The model keeps it as the `clientFailure` parameter.

## Model

| member | source | states |
|---|---|---|
| Sequences.Keep | components/KnowledgeBase.tsx:230 | a filter keeps exactly the elements satisfying the predicate, never more often than they occur in the input |
| Sequences.KeepCounts | components/KnowledgeBase.tsx:230 | a filter keeps every occurrence of an element satisfying the predicate and none of the others, so duplicates are not collapsed |
| Sequences.KeepIsSubsequence | components/KnowledgeBase.tsx:230 | a filter's result is a subsequence of its input (relative order kept) |
| Sequences.KeepAll | components/KnowledgeBase.tsx:230 | a filter whose predicate holds everywhere returns its input unchanged |
| Sequences.KeepAppend | components/Workbench.tsx:48 | filtering a concatenation is the concatenation of the filtered parts |
| Sequences.Join | components/Workbench.tsx:31-32 | `join`: no separator before a sole part, and the result starts with the first part; pinned down by JoinSnoc and by the split round-trip SplitJoin |
| Sequences.JoinSnoc | components/Workbench.tsx:31 | joining one more part appends the separator and that part (no separator before the first part) |
| Sequences.SplitOn | components/Workbench.tsx:32 | a split always yields at least one piece |
| Sequences.SplitJoin | components/Workbench.tsx:32 | joining separator-free sections with a newline and splitting again gives back exactly the sections |
| Sequences.SplitJoinThen | components/Workbench.tsx:32-33 | the joined sections followed by a newline split into the sections followed by the split of the rest |
| Text.LowerChar | components/KnowledgeBase.tsx:230 | upper-case ASCII letters map to their lower-case letters, every other character is unchanged |
| Text.Lower | components/KnowledgeBase.tsx:230 | `toLowerCase`: the length is kept and no ASCII upper-case letter remains; LowerAt and LowerIdempotent pin it down |
| Text.LowerAt | components/KnowledgeBase.tsx:230 | lower-casing keeps the length and works character by character |
| Text.LowerIdempotent | components/KnowledgeBase.tsx:230 | lower-casing twice equals lower-casing once |
| Text.Includes | components/KnowledgeBase.tsx:230 | the empty string is included in every string; an included string is no longer than the text |
| Text.IncludesIffOccurs | components/KnowledgeBase.tsx:230 | `includes` holds exactly when the term occurs at some position |
| Text.EmptyTermMatches | components/KnowledgeBase.tsx:230 | an empty search term matches every name |
| Text.NameMatches | components/KnowledgeBase.tsx:230 | the search predicate, lower-cased name includes lower-cased term; a matching term is no longer than the name; NameMatchesIffSlice and EmptyTermMatches characterise it |
| Text.NameMatchesIffSlice | components/Workbench.tsx:115 | a name matches exactly when some slice of it equals the term up to ASCII case |
| GeminiService.GenerationContents | services/geminiService.ts:24 | the generation request is the demand prompt, then the context, or the default background when the context is missing or empty |
| GeminiService.Truthy | services/geminiService.ts:24 | JavaScript truthiness of an optional string (present and non-empty), used by the `||` at line 24 and the ternary at line 87; EmptyContextIsMissing and GenericPromptIgnoresStandard rely on it |
| GeminiService.EmptyContextIsMissing | services/geminiService.ts:24 | an empty context gives the same request as a missing one |
| GeminiService.GenerationContentsInjective | services/geminiService.ts:24 | under one context, different prompts give different requests |
| GeminiService.EvaluationPrompt | services/geminiService.ts:87-89 | a non-empty standard gives the comparison request (content, then standard); otherwise the generic request with the content only |
| GeminiService.GenericPromptIgnoresStandard | services/geminiService.ts:87-89 | without a usable standard, the request does not depend on the standard |
| GeminiService.GenerateSolution | services/geminiService.ts:20-35 | the model's text is returned, and its error is re-thrown unchanged |
| GeminiService.AnalyzePolicy | services/geminiService.ts:38-56 | once the client is built the call never throws; a model failure becomes the fixed fallback text; a client failure escapes |
| GeminiService.EvaluateSolution | services/geminiService.ts:87-107 | the parsed reply is returned, and its error is re-thrown unchanged |
| KnowledgeBase.Listing | components/KnowledgeBase.tsx:230 | the cards are exactly the active tab's items whose lower-cased name contains the lower-cased term, none duplicated |
| KnowledgeBase.TabSource | components/KnowledgeBase.tsx:230 | the tab ternary: the document list on the standard tab, the policy list otherwise; ListingEmptyTerm shows it is the whole unfiltered listing |
| KnowledgeBase.ListingIsSubsequence | components/KnowledgeBase.tsx:230 | the cards keep the order of the tab's list |
| KnowledgeBase.ListingEmptyTerm | components/KnowledgeBase.tsx:230 | an empty search shows the whole list of the tab |
| KnowledgeBase.ListingMembership | components/KnowledgeBase.tsx:230 | an item is listed exactly when it is in the tab's list and some slice of its name equals the term up to case |
| KnowledgeBase.Recommended | components/KnowledgeBase.tsx:191 | the recommended section keeps exactly the policies whose recommendation reason is a non-empty string |
| KnowledgeBase.HasRecommendReason | components/KnowledgeBase.tsx:191 | the filter predicate: a policy whose `recommendReason` is a non-empty string; AllMockPoliciesRecommended applies it to the shipped list |
| KnowledgeBase.RecommendedIsSubsequence | components/KnowledgeBase.tsx:191 | the recommended section keeps the order of the policy list |
| KnowledgeBase.StartUrlImport | components/KnowledgeBase.tsx:22-25 | an empty URL changes nothing; otherwise the import starts at step 1, and the URL and dialog are untouched |
| KnowledgeBase.AnalysisText | components/KnowledgeBase.tsx:49-54 | a thrown analysis shows "解析失败。"; an empty or missing text shows nothing; a non-empty text is shown as is |
| KnowledgeBase.AnalyzePolicyPanel | components/KnowledgeBase.tsx:45-57 | after an analysis the panel shows the policy and is no longer busy; a client failure shows the failure text; with a built client and an answering model it shows the model's text, or nothing when that text is empty or missing |
| KnowledgeBase.ModelFailureShowsFallback | components/KnowledgeBase.tsx:50-51 | once the client is built, a failing model shows the service's fallback text rather than a failure |
| KnowledgeBase.ClickCard | components/KnowledgeBase.tsx:264 | the card action on a POLICY item is exactly the policy analysis (panel, text and busy flag); for every other type the panel is unchanged |
| Evaluation.ChartData | components/Evaluation.tsx:27-33 | with a result: five points in the fixed dimension order, each with its score and full mark 100; without: none |
| Evaluation.ChartSubjectsDistinct | components/Evaluation.tsx:27-33 | the five chart labels are pairwise distinct |
| Evaluation.AverageScore | components/Evaluation.tsx:35-36 | the average is the integer nearest to total/5, halves rounded up; it is 0 without a result |
| Evaluation.AverageIsMeanOfChart | components/Evaluation.tsx:27-36 | the average shown is the rounded mean of exactly the values the chart plots |
| Evaluation.AverageBetweenMinAndMax | components/Evaluation.tsx:35-36 | the average lies between the smallest and the largest score |
| Evaluation.AverageInRange | components/Evaluation.tsx:35-36 | scores in 0..100 give an average in 0..100 |
| Evaluation.VerdictOf | components/Evaluation.tsx:114 | above 80 is the top band, 61 to 80 the middle band, 60 and below the bottom band |
| Evaluation.Label | components/Evaluation.tsx:114 | the text of each verdict band |
| Evaluation.VerdictText | components/Evaluation.tsx:114 | the verdict text shown for a result: "高标准符合" exactly when the five scores total at least 403, "基本符合标准" exactly for totals 303 to 402, "不建议作为终稿" exactly for totals up to 302 |
| Evaluation.VerdictMonotone | components/Evaluation.tsx:114 | a higher average never gets a worse verdict |
| Evaluation.VerdictFromScores | components/Evaluation.tsx:35-36 | all scores at least 81 give the top verdict; all scores at most 60 give the bottom verdict |
| Evaluation.EvaluationPanel.constructor | components/Evaluation.tsx:9-12 | the screen starts idle, with no result, content or standard |
| Evaluation.EvaluationPanel.Evaluate | components/Evaluation.tsx:14-25 | empty content changes nothing; otherwise content and standard are sent, a reply replaces the result, a failure keeps it, and the busy flag ends false |
| Evaluation.EvaluationPanel.Reset | components/Evaluation.tsx:47 | result, content and standard are cleared |
| Constants.DefaultTemplatesWellFormed | constants.tsx:13-32 | the three default templates have distinct ids and non-empty structures |
| Constants.AllMockPoliciesRecommended | constants.tsx:41-87 | every shipped policy is recommended, in list order |
| Constants.CardActionsOfMockLists | components/KnowledgeBase.tsx:264 | no document card starts an analysis; every policy card does |
| Workbench.Toggle | components/Workbench.tsx:45-51 | an unselected item is appended (length grows by one); a selected id is removed entirely, and every other entry stays |
| Workbench.IsSelected | components/Workbench.tsx:47 | `prev.find(f => f.id === item.id)` is truthy exactly when some entry carries the id (records are always truthy); Toggle and ToggleTwice pin down how it steers the toggle |
| Workbench.ToggleOffKeepsOrder | components/Workbench.tsx:47-48 | removing by toggle keeps the other entries in their original order |
| Workbench.KeepUniqueIds | components/Workbench.tsx:48 | filtering a list with distinct ids keeps them distinct |
| Workbench.ToggleKeepsIdsUnique | components/Workbench.tsx:45-51 | toggling keeps selected ids distinct |
| Workbench.RemoveOneEntry | components/Workbench.tsx:48 | with distinct ids, removing a present id drops exactly one entry |
| Workbench.ToggleOffRemovesOne | components/Workbench.tsx:47-48 | with distinct ids, toggling a selected item shortens the selection by exactly one |
| Workbench.ToggleTwice | components/Workbench.tsx:45-51 | toggling an unselected item twice restores the original selection |
| Workbench.Tags | components/Workbench.tsx:31 | there is one marker per selected item |
| Workbench.ContextString | components/Workbench.tsx:31 | the selection's markers joined by ", "; pinned down by ContextAppend and ContextEmptyIffNoSelection |
| Workbench.ContextAppend | components/Workbench.tsx:31 | selecting one more item appends its `[参考源: name]` marker after ", " (alone if it is the first) |
| Workbench.ContextEmptyIffNoSelection | components/Workbench.tsx:31 | the context is empty exactly when nothing is selected |
| Workbench.FindTemplate | components/Workbench.tsx:25 | the lookup finds the first template with the id, or reports that none has it |
| Workbench.CurrentTemplate | components/Workbench.tsx:25 | the current template is a registry entry: the one with the selected id, else the first entry |
| Workbench.CurrentIsTheOneWithId | components/Workbench.tsx:25 | with distinct ids, the current template is the unique entry with the selected id |
| Workbench.SaveStructure | components/Workbench.tsx:58-61 | saving gives the new structure to the templates with the id; length, order, ids, names and all other templates are unchanged |
| Workbench.SaveKeepsIdsUnique | components/Workbench.tsx:58-61 | saving keeps template ids distinct |
| Workbench.SaveThenCurrent | components/Workbench.tsx:58-61 | after saving, the current template is the old one with the saved structure |
| Workbench.SaveUnknownIdIsNoOp | components/Workbench.tsx:58-61 | saving under an id that no template has changes nothing |
| Workbench.NewCustomTemplate | components/Workbench.tsx:67-74 | the new template is custom, has one section "1. 第一章节", and is named by the `newTemplateName` field, or "自定义模版" when that field is empty |
| Workbench.AddThenCurrent | components/Workbench.tsx:75-76 | appending under a fresh id keeps ids distinct and makes the new template the current one for its id |
| Workbench.DropAt | components/Workbench.tsx:270 | deleting position i removes exactly that entry; an index outside the list changes nothing |
| Workbench.DropAtShape | components/Workbench.tsx:270 | after a delete the length drops by one, entries before i stay put, and later entries move up by one |
| Workbench.SetSection | components/Workbench.tsx:262-265 | editing position i changes that position only |
| Workbench.FinalPrompt | components/Workbench.tsx:32-33 | the prompt starts with the template header and name, and ends with the demand |
| Workbench.PromptListsSections | components/Workbench.tsx:32-33 | the prompt splits into lines as: the header line, then exactly the template's n sections in array order with duplicates kept (one empty line when there are none), then the lines of a blank separator and the demand |
| Workbench.GenerationRequest | components/Workbench.tsx:31-36 | the text `handleGenerate` sends, GenerationContents of the final prompt and the context string; NoSelectionSendsDefaultContext and SelectionSendsContext state what it carries |
| Workbench.NoSelectionSendsDefaultContext | components/Workbench.tsx:31-36 | with nothing selected, the request uses the default background |
| Workbench.SelectionSendsContext | components/Workbench.tsx:31-36 | with a selection, the request ends with the selection's context string |
| Workbench.GenerationOutcome | components/Workbench.tsx:35-42 | success stores the text (or "" when there is none); failure leaves the previous result |
| Workbench.Session.Current | components/Workbench.tsx:25 | the screen's template is a registry entry |
| Workbench.Session.constructor | components/Workbench.tsx:9-23 | a fresh screen has the default templates, "t1" selected, and empty demand, selection and editor |
| Workbench.Session.ToggleFile | components/Workbench.tsx:45-51 | the selection becomes its toggle and selected ids stay distinct |
| Workbench.Session.SelectTemplate | components/Workbench.tsx:194 | the selected id becomes the chosen one |
| Workbench.Session.EditTemplate | components/Workbench.tsx:53-56 | the editor opens on the current template's structure |
| Workbench.Session.CloseEditor | components/Workbench.tsx:252 | the editor closes |
| Workbench.Session.EditSection | components/Workbench.tsx:262-265 | the edited structure changes at position i only |
| Workbench.Session.DeleteSection | components/Workbench.tsx:270 | the edited structure loses position i |
| Workbench.Session.AppendSection | components/Workbench.tsx:278 | "新章节名称" is appended to the edited structure |
| Workbench.Session.SaveTemplate | components/Workbench.tsx:58-64 | the registry takes the saved structure, the current template now carries it, and the editor closes |
| Workbench.Session.AddCustomTemplate | components/Workbench.tsx:66-80 | the new template is appended and becomes current; the name field is cleared; the editor opens on "1. 第一章节" |
| Workbench.Session.Generate | components/Workbench.tsx:27-43 | an empty demand changes nothing; otherwise the assembled request is sent, the result takes the outcome, and the busy flag ends false |

## Left out

- Rendering: the markup of every screen, and the `Settings`, `Dashboard` and `Sidebar` components and the view switch of `App.tsx`. They hold no logic.
- The language-model library: client construction, model names, temperature, system instructions, the response schema and `JSON.parse`. These are foreign I/O. The model is a function parameter, and a reply whose JSON lacks `scores` is not modelled.
- The policy-analysis request text. The model parameter of `AnalyzePolicy` receives the policy name.
- The timer-driven steps of the web import (steps 2 and 3, and the final reset) and the crawler sync. They are `setTimeout` sequences with alerts and cosmetic progress. Only the synchronous start of `handleUrlImport` is modelled.
- Folders, soft delete and restore, moves, breadcrumbs, the audit log and the persisted state. Their fields are declared in the data model, but the code has no operation on them.
- `alert`, `console.error`, React's batching of state updates, and the intermediate `isGenerating`/`isEvaluating`/`isAnalyzing` = true while a call is awaited. The methods state the state after the handler completes.
- Plain input bindings: the demand, search-term, URL and tab fields, and the dialog open/close flags. A caller assigns them directly.
- The picker search in the generation dialog (components/Workbench.tsx:115). It is the same filter as `KnowledgeBase.Listing` on the standard tab, so it is not modelled again.
- Workbench.Session.AddCustomTemplate: the new id is `"custom-" + stamp`, and the method requires that no template has it yet. The source takes the stamp from the millisecond clock, and two additions in the same millisecond would collide.
- Text.LowerChar: lower-cases ASCII letters only. Full Unicode case mapping is not modelled; Chinese text has no case.
- Evaluation.AverageScore: scores are integers. The service allows fractional scores, and the average is then floating-point rounding.
