# SaaScan core, modelled in Dafny

SaaScan is a React front end that analyses SaaS ideas. It scores an idea with
a remote language model, or offline with a keyword heuristic. It keeps a
history of analyses in the browser's storage and shows the interface in
English or Arabic. This project models the logic of that front end that does
not depend on the network or on rendering, and proves properties of it:

- the offline UX analyser (`analyzeUX`): keyword scoring, clamping, the
  issue count and the sampling of issues and recommendations;
- the translation lookup `t(key, replacements)` shared by `useI18n` and
  `LanguageProvider`, with its English fallback and `{name}` placeholders,
  plus the language toggle, the saved language and the text direction;
- the result store capped at 50 entries with its sample-data seeding;
- the error log that keeps the ten newest errors, and the error boundary's
  `hasError` state;
- the `useSaasAnalysis` history: normalising a model answer and prepending it;
- the enhanced text area: the suggestion test, the height clamp, the
  enhance/undo state and the typewriter;
- the offline enhancement template and the offline idea pick;
- the input-length badge, the idea and history cards, and the results
  table (expanded rows, export guard, cell truncation).

One Dafny module stands for each source file. The shared modules are:

- `Text`: trimming, splitting, lower-casing, substring search, replace-all
  and truncation.
- `Tiers`: the 80/60 score bands and their badge colours.
- `Locale`: the two languages.
- `Wrappers`: `Option` and `Slot`.
- `Bounds`: min and max.

Randomness, the clock and browser storage are parameters or fields. A shuffle
is an arbitrary permutation of indices. A random draw is a real in [0, 1).
Ids and timestamps are opaque strings. A storage slot is `Missing`
(nothing stored, or an empty string, which every reader treats alike),
`Stored(value)` or `Corrupt` (text that `JSON.parse` rejects). The result
store and the error log catch a corrupt slot; the analysis hook's mount
effect does not, and reports that it threw. In the result store and the error log a
`writeFails` flag stands for a write the browser refuses; in the analysis
hook a `writeError` carries the message of the write that throws.

## Model

| member | source | states |
|---|---|---|
| UxAnalyzer.IssuePool | src/lib/uxAnalyzer.ts:16-41 | each language has ten sample issues |
| UxAnalyzer.RecommendationPool | src/lib/uxAnalyzer.ts:43-68 | each language has ten sample recommendations |
| UxAnalyzer.PoolsDistinct | src/lib/uxAnalyzer.ts:16-68 | the ten issues, and the ten recommendations, of each language are pairwise different |
| UxAnalyzer.HitsIn | src/lib/uxAnalyzer.ts:89-95 | counting keyword hits over the first n keywords yields at most n |
| UxAnalyzer.HitsInMatches | src/lib/uxAnalyzer.ts:89-95 | the hit count is the number of keyword positions whose keyword occurs in the text, so each keyword counts at most once |
| UxAnalyzer.HitsInNone | src/lib/uxAnalyzer.ts:89-95 | a text containing none of the keywords has no hits |
| UxAnalyzer.RawScore | src/lib/uxAnalyzer.ts:76-95 | the pre-clamp score lies between 85 - 5 * (number of problem keywords) and 85 + 3 * (number of positive keywords) |
| UxAnalyzer.FinalScore | src/lib/uxAnalyzer.ts:97 | the final score always lies in [35, 95] |
| UxAnalyzer.KeywordScore | src/lib/uxAnalyzer.ts:76-97 | the two `forEach` loops over the lower-cased input, followed by the clamp, compute the final score |
| UxAnalyzer.LowerClampNeverBinds | src/lib/uxAnalyzer.ts:79-97 | with the shipped keyword tables the pre-clamp score is at least 45 (en) or 50 (ar), so only the upper clamp can change it |
| UxAnalyzer.UpperClampBinds | src/lib/uxAnalyzer.ts:89-97 | the score is 95 exactly when 3 * positives - 5 * problems is at least 10 |
| UxAnalyzer.IssueCount | src/lib/uxAnalyzer.ts:103-104 | the number of issues (and of recommendations) is between 2 and 5 |
| UxAnalyzer.IssueCountReachable | src/lib/uxAnalyzer.ts:97-104 | for every reachable score the count is 3 when the score is at most 55, and 2 otherwise |
| UxAnalyzer.NoKeywordScore | src/lib/uxAnalyzer.ts:76-97 | input with no keyword scores 85 and gets two issues |
| UxAnalyzer.EmptyInputScore | src/lib/uxAnalyzer.ts:76-97 | the empty input scores 85 |
| UxAnalyzer.Shuffle | src/lib/uxAnalyzer.ts:106-107 | a shuffled pool has the pool's length, holds only pool entries, and has distinct entries when the pool does |
| UxAnalyzer.Pick | src/lib/uxAnalyzer.ts:113-114 | the first n entries of a shuffled pool are n distinct entries of the pool |
| UxAnalyzer.AnalysisId | src/lib/uxAnalyzer.ts:12-14 | an id starts with "analysis_", followed by the clock, "_" and the nonce |
| UxAnalyzer.PickFindings | src/lib/uxAnalyzer.ts:100-114 | issues and recommendations have the same count, are taken from the language's pools, and are each pairwise distinct |
| UxAnalyzer.AnalyzeUX | src/lib/uxAnalyzer.ts:70-118 | the result echoes the input and language, carries the final score and the id, and lists IssueCount(score) distinct issues and recommendations from the pools |
| UxAnalyzerExamples.CheckoutExample | src/lib/uxAnalyzer.ts:76-104 | "My app has a confusing and slow checkout" in English scores 75 and gets two issues |
| UxAnalyzerExamples.ArabicEasyToUseCountsTwice | src/lib/uxAnalyzer.ts:85 | Arabic text containing "سهل الاستخدام" also matches "سهل", so it earns at least two positive hits |
| UxAnalyzerExamples.ProblemHits | src/lib/uxAnalyzer.ts:89-91 | a text with exactly "confusing" and "slow" among the English problem keywords has two problem hits |
| Locale.FromCode | src/hooks/useI18n.tsx:38 | a code is accepted exactly when it is "en" or "ar", and maps back to itself |
| Locale.CodeRoundTrip | src/hooks/useI18n.tsx:44-46 | the code written for a language reads back as that language |
| Locale.Toggle | src/hooks/useI18n.tsx:44 | toggling always changes the language |
| Locale.ToggleTwice | src/context/LanguageProvider.tsx:77-81 | toggling twice gives back the original language |
| Locale.Direction | src/context/LanguageProvider.tsx:51-56 | the direction is "rtl" exactly for Arabic and "ltr" exactly for English |
| Locale.SavedLanguage | src/hooks/useI18n.tsx:36-41 | a saved language is found exactly when the key holds "en" or "ar" |
| Locale.SavedLanguageRoundTrip | src/hooks/useI18n.tsx:46 | after the toggle writes a language, it is the saved language |
| Translation.Step | src/hooks/useI18n.tsx:55-56 | one step succeeds exactly on an object holding the segment, and yields that child |
| Translation.WalkAppend | src/hooks/useI18n.tsx:54-57 | walking a concatenated path is walking the first part, then the rest |
| Translation.WalkExtend | src/hooks/useI18n.tsx:54-57 | a successful walk extended by one segment is one more step |
| Translation.WalkStuck | src/hooks/useI18n.tsx:57-64 | a walk that fails at some segment fails for the whole path |
| Translation.Resolve | src/hooks/useI18n.tsx:49-83 | the loops of `t`, including the nested English walk, the early return and the `break`, return exactly the value the lookup specification gives |
| Translation.ActiveLanguageFound | src/hooks/useI18n.tsx:50-57 | a path that reaches a string in the active language yields that string with placeholders filled |
| Translation.EnglishFallback | src/hooks/useI18n.tsx:57-67 | a path missing in the active language but reaching a string in English yields the English string |
| Translation.MissingEverywhere | src/hooks/useI18n.tsx:62-64 | a path missing in both languages yields the key itself |
| Translation.SubtreeGivesKey | src/hooks/useI18n.tsx:71-73 | a path reaching an object in the active language yields the key, with no English retry |
| Translation.TranslateProvenance | src/context/LanguageProvider.tsx:83-115 | every result is the key, or a string stored under the path in the active language or in English with placeholders filled |
| Translation.EmptyCatalogGivesKey | src/hooks/useI18n.tsx:10-13 | before the locale files load, every key comes back verbatim |
| Translation.EnglishLookup | src/context/LanguageProvider.tsx:84-104 | in English the lookup is a single walk of the English tree |
| Translation.Placeholder | src/hooks/useI18n.tsx:78 | the placeholder of a name is that name in braces |
| Translation.SubstituteNothing | src/hooks/useI18n.tsx:82 | without replacements the string is returned unchanged |
| Translation.SubstituteWithoutBraces | src/hooks/useI18n.tsx:76-79 | a string without "{" is unchanged by any replacements |
| Translation.SubstituteAppend | src/hooks/useI18n.tsx:77-79 | replacements apply one name at a time, in key order |
| Translation.SubstituteIdentity | src/context/LanguageProvider.tsx:106-111 | replacing a placeholder by itself changes nothing |
| UseI18n.I18nHook.constructor | src/hooks/useI18n.tsx:34 | the hook starts in English |
| UseI18n.I18nHook.AdoptSavedLanguage | src/hooks/useI18n.tsx:36-41 | a saved "en" or "ar" becomes the language; anything else leaves it as it was |
| UseI18n.I18nHook.LoadTranslations | src/hooks/useI18n.tsx:16-28 | loading installs both translation trees and changes nothing else |
| UseI18n.I18nHook.ToggleLanguage | src/hooks/useI18n.tsx:43-47 | the language flips and the new code is saved |
| UseI18n.I18nHook.T | src/hooks/useI18n.tsx:49-83 | `t` returns the translation the lookup specification gives for the current language |
| LanguageProvider.Provider.constructor | src/context/LanguageProvider.tsx:28-34 | the provider starts in English with empty translation trees |
| LanguageProvider.Provider.InitLanguage | src/context/LanguageProvider.tsx:36-49 | with nothing saved, "en" is written and used; otherwise a saved "en" or "ar" is adopted and anything else is ignored |
| LanguageProvider.Provider.ApplyDirection | src/context/LanguageProvider.tsx:51-56 | the document direction becomes "rtl" exactly for Arabic |
| LanguageProvider.Provider.LoadTranslations | src/context/LanguageProvider.tsx:58-75 | loading installs both translation trees and changes nothing else |
| LanguageProvider.Provider.ToggleLanguage | src/context/LanguageProvider.tsx:77-81 | the language flips and the new code is saved |
| LanguageProvider.Provider.T | src/context/LanguageProvider.tsx:83-115 | `t` returns the translation the lookup specification gives for the current language |
| Storage.Cap | src/lib/storage.ts:9 | the saved list has min(50, n) entries |
| Storage.CapIsPrefix | src/lib/storage.ts:9 | the saved list is a prefix of the results, in order, of at most 50 entries |
| Storage.CapKeepsShort | src/lib/storage.ts:9 | a list of at most 50 entries is saved unchanged |
| Storage.CapIdempotent | src/lib/storage.ts:9 | capping twice is capping once |
| Storage.CapPrepend | src/lib/storage.ts:9 | capping after prepending to a capped list equals capping the full list |
| Storage.SampleData | src/lib/storage.ts:32-68 | the sample data has two records |
| Storage.SampleDataShape | src/lib/storage.ts:32-68 | the samples are "sample_1" in English scoring 68 and "sample_2" in Arabic scoring 72, each with three issues and three recommendations |
| Storage.LoadAfterSave | src/lib/storage.ts:9-10 | loading after a successful save returns the capped list |
| Storage.ResultStore.constructor | src/lib/storage.ts:3 | the store wraps the given slot |
| Storage.ResultStore.Save | src/lib/storage.ts:6-14 | the slot holds the capped list, or is unchanged when the write fails |
| Storage.ResultStore.Load | src/lib/storage.ts:16-30 | an empty slot returns the sample data and stores it; a stored list is returned; an unreadable slot gives [] |
| Storage.SeedStoresSample | src/lib/storage.ts:18-23 | seeding an empty slot stores the sample data unchanged |
| ErrorBoundary.RecordOf | src/components/ErrorBoundary.tsx:43-50 | a log record keeps the error's message, its stack and the context |
| ErrorBoundary.PushKeepLast | src/components/ErrorBoundary.tsx:53-59 | push, then splice down to ten, gives the newest ten entries with min(n + 1, 10) of them |
| ErrorBoundary.LoggedLength | src/components/ErrorBoundary.tsx:57-59 | the log has min(n + 1, 10) entries, never more than ten |
| ErrorBoundary.NewestKept | src/components/ErrorBoundary.tsx:54 | the new entry is always kept, as the last one |
| ErrorBoundary.NothingDroppedWhenShort | src/components/ErrorBoundary.tsx:57 | under ten old entries, nothing is dropped |
| ErrorBoundary.OldestDropped | src/components/ErrorBoundary.tsx:58 | the survivors are the newest old entries in their order, then the new one |
| ErrorBoundary.LogAllKeepsNewest | src/components/ErrorBoundary.tsx:53-61 | logging any number of errors onto a log of at most ten keeps the ten newest of all of them |
| ErrorBoundary.ErrorLog.constructor | src/components/ErrorBoundary.tsx:53 | the log wraps the "app-errors" slot |
| ErrorBoundary.ErrorLog.Append | src/components/ErrorBoundary.tsx:42-64 | a missing log becomes [entry]; a stored log takes the keep-ten rule; an unreadable log or a refused write leaves the slot as it was |
| ErrorBoundary.HandleError | src/components/ErrorBoundary.tsx:158-183 | the hook applies the same append-and-keep-ten rule to the same slot |
| ErrorBoundary.DerivedState | src/components/ErrorBoundary.tsx:23-25 | an error sets hasError and records the error |
| ErrorBoundary.Render | src/components/ErrorBoundary.tsx:75-151 | the children are shown exactly when there is no error; the fallback exactly when there is an error and a fallback is given |
| ErrorBoundary.Boundary.constructor | src/components/ErrorBoundary.tsx:18-21 | the boundary starts healthy and shows its children |
| ErrorBoundary.Boundary.CatchError | src/components/ErrorBoundary.tsx:23-25 | after a caught error the children are no longer shown |
| ErrorBoundary.Boundary.ComponentDidCatch | src/components/ErrorBoundary.tsx:27-37 | the error is logged with its component stack, and the state records both without touching hasError |
| ErrorBoundary.Boundary.HandleRetry | src/components/ErrorBoundary.tsx:67-69 | retry clears hasError, error and errorInfo, and shows the children again |
| SaasAnalysis.LanguageOf | src/hooks/useSaasAnalysis.tsx:184 | the language is Arabic exactly when the code is "ar" |
| SaasAnalysis.NormalScore | src/hooks/useSaasAnalysis.tsx:174-177 | a numeric score is clamped into [40, 95]; a missing one becomes 75 |
| SaasAnalysis.Normalize | src/hooks/useSaasAnalysis.tsx:170-185 | the new entry echoes the input, id and timestamp, and falls back to the default issue and recommendation when the answer has none |
| SaasAnalysis.LocalParsed | src/lib/uxAnalyzer.ts:97-116 | the local analysis stands in with its score and, for each list, as many distinct pool entries of the language as that score calls for |
| SaasAnalysis.FallbackKeepsLocalScore | src/hooks/useSaasAnalysis.tsx:163-185 | when the answer does not parse, the stored entry keeps the local score (the clamp never moves it) and the local issues and recommendations: the score's count of distinct entries from the language's pools |
| SaasAnalysis.Interpret | src/hooks/useSaasAnalysis.tsx:158-168 | a parsed answer is used as is; unparsable content is replaced by exactly what the local analysis computes |
| SaasAnalysis.KeysDiffer | src/hooks/useSaasAnalysis.tsx:14 | the key read on mount differs from the key written |
| SaasAnalysis.SaasAnalysisHook.constructor | src/hooks/useSaasAnalysis.tsx:8-9 | the hook starts idle with no results |
| SaasAnalysis.SaasAnalysisHook.LoadSaved | src/hooks/useSaasAnalysis.tsx:12-17 | a non-empty saved list replaces the results; nothing saved or an empty list changes nothing; text that is not JSON makes the effect throw, uncaught, and changes nothing |
| SaasAnalysis.SaasAnalysisHook.HandleAnalyze | src/hooks/useSaasAnalysis.tsx:19-212 | blank input changes nothing and asks for input; a failed call changes only the busy flag and reports its message; otherwise the entry normalised from the parsed answer, or from the local analysis when the answer does not parse, is put in front of the unchanged history with the given id and timestamp; a successful write then stores the history and clears the input, a throwing write leaves store and input as they were and reports its message |
| SaasAnalysis.SaasAnalysisHook.Record | src/hooks/useSaasAnalysis.tsx:187-212 | the entry is prepended first; the write then either saves the history under the save key and clears the input with a completion notice, or throws and leaves store and input unchanged with an error notice; the busy flag ends cleared |
| SaasAnalysis.SaasAnalysisHook.HandleClear | src/hooks/useSaasAnalysis.tsx:234-236 | the history is emptied and its stored copy removed |
| Text.Trim | src/components/ui/textarea.tsx:86 | the result leaves no whitespace at either end, and is "" exactly for whitespace-only text |
| Text.TrimRemovesOnlySpace | src/components/ui/textarea.tsx:86 | the trimmed text is a contiguous piece of the text with only whitespace before and after it |
| Text.WordCount | src/lib/aiEnhancer.ts:166 | the word count is at least 1, and exactly 1 for blank text |
| Text.SplitOn | src/hooks/useI18n.tsx:50 | splitting on "." yields at least one piece, and no piece contains "." |
| Text.SplitOnJoin | src/hooks/useI18n.tsx:50 | joining the pieces with "." gives back the key |
| Text.ToLower | src/lib/uxAnalyzer.ts:87 | lower-casing keeps the length and maps every character |
| Text.IncludesOccurs | src/lib/uxAnalyzer.ts:90 | `includes` holds exactly when the word occurs at some position |
| Text.ReplaceAllAbsent | src/hooks/useI18n.tsx:78 | replacing a pattern that does not occur changes nothing |
| Text.Truncate | src/components/history/HistoryCard.tsx:68-71 | short text is unchanged; longer text keeps its first n characters followed by "...", and the result never exceeds n + 3 |
| Textarea.AnyIncludedExists | src/components/ui/textarea.tsx:88-90 | `some` holds exactly when some generic term occurs in the lower-cased value |
| Textarea.NeedsSuggestionMeaning | src/components/ui/textarea.tsx:86-92 | a suggestion is needed exactly for fewer than 10 words, or for fewer than 15 words with a generic term |
| Textarea.LongTextNoSuggestion | src/components/ui/textarea.tsx:89-92 | fifteen words or more never need a suggestion |
| Textarea.ShowsSuggestion | src/components/ui/textarea.tsx:80-94 | the suggestion shows exactly when enabled, non-empty, needed and neither enhancing nor generating |
| Textarea.AutoHeight | src/components/ui/textarea.tsx:72 | the height always lies in [80, 300], and equals the scroll height within that range |
| Textarea.AutoHeightMonotone | src/components/ui/textarea.tsx:72 | taller content never gives a shorter box |
| Textarea.TypewriterFrames | src/components/ui/textarea.tsx:210-226 | the typewriter emits |text| + 2 values |
| Textarea.TypewriterGrows | src/components/ui/textarea.tsx:210-226 | each value is a prefix of the next, one character longer at most, and the last is the text |
| Textarea.EnhancedTextarea.constructor | src/components/ui/textarea.tsx:55-60 | the component starts with no undo, suggestion, typing or generation |
| Textarea.EnhancedTextarea.Emit | src/components/ui/textarea.tsx:138 | an `onChange` call hands the parent the value |
| Textarea.EnhancedTextarea.UpdateSuggestion | src/components/ui/textarea.tsx:80-94 | the suggestion flag is recomputed from the current value and flags |
| Textarea.EnhancedTextarea.HandleEnhanceClick | src/components/ui/textarea.tsx:115-123 | a non-blank value is sent trimmed, and the untrimmed value is kept for undo when undo is enabled |
| Textarea.EnhancedTextarea.SetEnhancing | src/components/ui/textarea.tsx:42 | the parent's enhancing flag changes and nothing else |
| Textarea.EnhancedTextarea.OfferUndo | src/components/ui/textarea.tsx:126-131 | once enhancement ends with a stored original, undo is offered and the suggestion hidden |
| Textarea.EnhancedTextarea.HandleUndo | src/components/ui/textarea.tsx:133-149 | undo emits exactly the stored original, then forgets it and hides undo |
| Textarea.EnhancedTextarea.HandleChange | src/components/ui/textarea.tsx:231-242 | typing while undo shows and no typewriter runs discards the undo state; the value goes to the parent |
| Textarea.EnhancedTextarea.Typewriter | src/components/ui/textarea.tsx:205-229 | the loop emits "" and then every prefix of the text, ending with the text |
| Textarea.EnhancedTextarea.HandleGenerateIdea | src/components/ui/textarea.tsx:151-203 | existing content is replaced only after confirmation; an idea, from a successful call or the fallback, is typed in when there is an `onChange`; the old content is kept for undo exactly after a confirmed, successful call with undo enabled; undo, suggestion and enhancing flags never change, and a declined or throwing call changes nothing else |
| Textarea.EnhanceButtonMeaning | src/components/ui/textarea.tsx:244 | the enhance button shows exactly when it is enabled and the value holds a character that is not whitespace |
| Textarea.SingleWordsNeedSuggestion | src/test-enhancement.ts:51-52 | "app" and "platform" need a suggestion |
| Textarea.FewWordsNeedSuggestion | src/components/ui/textarea.tsx:92 | fewer than ten words always need a suggestion |
| Textarea.WordCountJoined | src/components/ui/textarea.tsx:86 | words of non-space characters joined by single spaces count as that many words |
| Textarea.ToolForTeamsNeedsSuggestion | src/test-enhancement.ts:54 | "tool for teams" needs a suggestion |
| Textarea.ComprehensiveSolutionNeedsSuggestion | src/test-enhancement.ts:53 | the five-word "A comprehensive project management solution" needs a suggestion under the component's predicate |
| AiEnhancer.ShortTemplate | src/lib/aiEnhancer.ts:168-176 | the short template has three paragraphs |
| AiEnhancer.LongTemplate | src/lib/aiEnhancer.ts:178-182 | the long template has two paragraphs |
| AiEnhancer.Paragraphs | src/lib/aiEnhancer.ts:169-170 | a non-empty template starts with a blank line |
| AiEnhancer.TemplateFor | src/lib/aiEnhancer.ts:166-183 | fewer than ten words select the short template, ten or more the long one |
| AiEnhancer.FallbackEnhancementShape | src/lib/aiEnhancer.ts:164-183 | the output is the untrimmed input, a blank line and the template the word count selects, so it is longer than the input |
| AiEnhancer.BlankInputShortTemplate | src/lib/aiEnhancer.ts:166-168 | blank input counts as one word and gets the short template |
| AiEnhancer.EnhancementFailure | src/lib/aiEnhancer.ts:150-161 | on failure the result is the fallback enhancement, not successful, with the error's message or "Unknown error occurred" |
| AiEnhancer.FallbackIdeas | src/lib/aiEnhancer.ts:186-202 | there are eight offline ideas |
| AiEnhancer.IdeaIndex | src/lib/aiEnhancer.ts:321-324 | floor(r * 8) for r in [0, 1) is a valid index |
| AiEnhancer.IdeaIndexExact | src/lib/aiEnhancer.ts:321-324 | draws in [i/8, (i+1)/8) pick idea i |
| AiEnhancer.IdeaFailure | src/lib/aiEnhancer.ts:317-331 | on failure the idea is one of the eight offline ideas, not successful, with the error's message or "Unknown error occurred" |
| InputValidation.ValidationStatus | src/components/analysis/InputValidation.tsx:12-18 | analysing wins; otherwise under 20 characters is too short, under 50 needs details, under 100 is good, and longer is detailed; each input gets exactly one status |
| InputValidation.StatusMonotone | src/components/analysis/InputValidation.tsx:14-17 | a longer input never gets a lower band |
| InputValidation.LabelsDistinct | src/components/analysis/InputValidation.tsx:13-17 | the five badge texts are all different |
| InputValidation.IconBands | src/components/analysis/InputValidation.tsx:14-17 | the check icon goes with 50 characters or more, the alert icon with fewer |
| Tiers.TierOf | src/components/analysis/IdeaDisplayCard.tsx:40-44 | the band is high from 80, medium from 60 to 79, low below 60 |
| Tiers.TierMonotone | src/components/analysis/IdeaDisplayCard.tsx:40-44 | a higher score never lands in a lower band |
| Tiers.BadgeColorsDistinct | src/components/history/HistoryCard.tsx:49-66 | the three band colours differ from each other and from the neutral colour |
| Tiers.ScoreColorBands | src/components/analysis/IdeaDisplayCard.tsx:34-38 | two scores share a badge colour exactly when they share a band |
| IdeaDisplayCard.ScoreLabel | src/components/analysis/IdeaDisplayCard.tsx:40-44 | "Excellent" exactly from 80, "Good" from 60 to 79, "Needs Improvement" below 60 |
| IdeaDisplayCard.LabelMatchesColor | src/components/analysis/IdeaDisplayCard.tsx:34-44 | two scores share a label exactly when they share a colour |
| IdeaDisplayCard.Preview | src/components/analysis/IdeaDisplayCard.tsx:47-50 | up to 180 characters are shown whole; longer text becomes its first 180 characters and "...", 183 in all |
| IdeaDisplayCard.ToggleIffCut | src/components/analysis/IdeaDisplayCard.tsx:80 | the read-more button is rendered exactly when the preview is cut |
| IdeaDisplayCard.Shown | src/components/analysis/IdeaDisplayCard.tsx:76 | the expanded view is the whole idea, and every view starts with the idea's first 180 characters |
| IdeaDisplayCard.ToggleMattersOnlyWhenShown | src/components/analysis/IdeaDisplayCard.tsx:76-80 | without the read-more button the idea is shown whole; with it, whole when expanded and cut to 183 characters when collapsed |
| IdeaDisplayCard.IdeaCard.constructor | src/components/analysis/IdeaDisplayCard.tsx:21 | the card starts collapsed, showing the preview |
| IdeaDisplayCard.IdeaCard.ToggleExpanded | src/components/analysis/IdeaDisplayCard.tsx:84 | the toggle flips between the whole idea and the preview |
| HistoryCard.IdeaShown | src/components/history/HistoryCard.tsx:116-119 | the idea is whole when expanded or at most 120 long, and otherwise its first 120 characters followed by "..." |
| HistoryCard.ToggleIffCut | src/components/history/HistoryCard.tsx:122 | the expand button is rendered exactly when the collapsed idea is cut |
| HistoryCard.AudienceShown | src/components/history/HistoryCard.tsx:171 | the audience line is whole when it fits 80, and otherwise its first 80 characters followed by "..." |
| HistoryCard.ToggleHiddenIsHarmless | src/components/history/HistoryCard.tsx:122 | for ideas of at most 120 characters the toggle changes nothing shown |
| HistoryCard.TierLabel | src/components/history/HistoryCard.tsx:198-199 | "ممتاز" exactly from 80, "جيد" from 60 to 79, "يحتاج تحسين" below 60 |
| HistoryCard.TierLabelMatchesColor | src/components/history/HistoryCard.tsx:49-53 | two scores share a band name exactly when they share a colour |
| HistoryCard.InnovationColor | src/components/history/HistoryCard.tsx:55-66 | "عالي" is green, "متوسط" yellow, "منخفض" red, anything else gray |
| HistoryCard.InnovationColorNeutral | src/components/history/HistoryCard.tsx:55-66 | the colour is gray exactly for a level other than the three |
| HistoryCard.Card.constructor | src/components/history/HistoryCard.tsx:36 | the card starts collapsed |
| HistoryCard.Card.ToggleExpanded | src/components/history/HistoryCard.tsx:126 | the toggle flips, and the expanded card shows the whole idea |
| ResultsTable.Toggled | src/components/SaasAnalysisResultsTable.tsx:116-124 | the id is in the new set exactly when it was not in the old one; every other id keeps its membership |
| ResultsTable.ToggleTwice | src/components/SaasAnalysisResultsTable.tsx:116-124 | toggling the same row twice restores the set |
| ResultsTable.TogglesCommute | src/components/SaasAnalysisResultsTable.tsx:116-124 | toggling two rows gives the same set in either order |
| ResultsTable.Table.constructor | src/components/SaasAnalysisResultsTable.tsx:112-113 | no row is expanded and nothing is exporting at first |
| ResultsTable.Table.ToggleRowExpansion | src/components/SaasAnalysisResultsTable.tsx:116-124 | a copy of the set is toggled and installed; nothing else changes |
| ResultsTable.Table.HandleExportToPdf | src/components/SaasAnalysisResultsTable.tsx:126-155 | an empty table is refused with a notice and nothing is exported; otherwise the results are exported unless the export fails, and the busy flag ends cleared |
| ResultsTable.RatingColorBands | src/components/SaasAnalysisResultsTable.tsx:180-184 | two ratings share a colour exactly when they share the 80/60 band |
| ResultsTable.LevelColor | src/components/SaasAnalysisResultsTable.tsx:167-178 | "High" is green, "Medium" yellow, "Low" red, anything else gray |
| ResultsTable.CompetitorList | src/components/SaasAnalysisResultsTable.tsx:206 | a single competitor string becomes a one-element list |
| ResultsTable.CompetitorBadges | src/components/SaasAnalysisResultsTable.tsx:209-216 | at most the first three competitors are shown, and "+k more" appears exactly when there are more, with shown + k = all |
| ResultsTable.RenderCell | src/components/SaasAnalysisResultsTable.tsx:186-243 | text columns render as paragraphs of at most 153 characters; the other columns render their badges, level colour or rating colour |
| ResultsTable.TextCellsCut | src/components/SaasAnalysisResultsTable.tsx:190-241 | text is shown whole within its limit (150 for the idea, 120 otherwise) and as its first `limit` characters plus "..." beyond it; only the idea carries the date |
| ResultsTable.SingleCompetitor | src/components/SaasAnalysisResultsTable.tsx:206-216 | a single competitor string is one badge with no count |

## Left out

- Every call to the Gemini API is left out: `fetch`, HTTP errors and JSON parsing of the answer. The hook receives the outcome as a `Reply` (failed, parsed fields, or unparsable). The prompt texts are left out too.
- The regular-expression cleaning of model answers (src/lib/aiEnhancer.ts:139-144, 307-311, src/hooks/useSaasAnalysis.tsx:161) is left out, and so are the successful branches of `enhanceSaasIdea` and `generateRandomSaasIdea` that return the cleaned text.
- The `!GEMINI_API_KEY` branches are left out. A hard-coded fallback key makes them unreachable.
- Randomness: `sort(() => 0.5 - Math.random())` is an arbitrary permutation, and no distribution is claimed. `Math.random()` for the offline idea is a real draw in [0, 1). `Date.now()` ids and ISO timestamps are opaque strings.
- Floating point: the unused `complexityScore` is left out. `Math.round` of the integer score is the identity.
- Browser storage and JSON: a slot is `Missing`, `Stored` or `Corrupt`. Serialisation is taken to round-trip. A quota error is the `writeFails` flag. `JSON.parse` of something that is not an array is not modelled.
- SaasAnalysis.SaasAnalysisHook.HandleAnalyze: a score that is `NaN` (a number to JavaScript) is not modelled; scores are integers.
- The hook reads "saasAnalysisResults" but writes "saascanResults". The model keeps both keys, proves that they differ, and claims nothing about a reload.
- `handleExport` in `useSaasAnalysis` (Blob download) and the PDF service itself are left out. An export is recorded as the list exported.
- React timing is left out: effects are methods the caller invokes. Also left out: the 30-second undo auto-hide, the typewriter's delays, toasts, focus, `window.confirm` (it becomes the `confirmed` parameter) and the asynchronous loading of the locale files (it becomes `LoadTranslations`).
- JavaScript details are not modelled. `k in value` also sees prototype keys. Placeholder names are spliced into a `RegExp`, and `$` patterns in replacement values are special. Lengths count UTF-16 code units. `\s` and `toLowerCase` cover Unicode. The model uses plain keys, ASCII whitespace and ASCII lower-casing.
- Translation.Resolve: a value that is neither a string nor an object (a number in the JSON) is not modelled; the tree holds only strings and objects.
- Formatting of dates, icons, animation and layout are left out, and so are the rendering-only tables and pages.
- src/test-enhancement.ts expects `false` for lines 53 and 55. The component's predicate returns `true` for both: 5 words is under 10, and 14 words with "platform" is under 15. The model follows the component (Textarea.ComprehensiveSolutionNeedsSuggestion).
- The template and idea texts are transcribed in pieces, and only their structure is proved: the number of paragraphs, the blank lines, and which template is chosen. Their wording is not.
