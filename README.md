# Anatomize progress state machine, in Dafny

This project models the progress-tracking core of the Anatomize learning app, a React Native client. The app teaches nine anatomical regions. For each region it shows a summary, a tutoring chat and a quiz, and it records per-region progress on the device.

The model covers:

- **Regions** (`regions.dfy`): the closed `Region` union, `REGION_ITEMS` with the display labels, and `ALL_REGIONS`, the key list the reducer iterates.
- **Quiz bank** (`quiz_questions.dfy`): the `Question` record and the full local `quizData` constant. A well-formedness predicate is proved of every region's list.
- **Progress state machine** (`app_state_context.dfy`):
  - the `AppState`, `RegionProgress` and `Action` types;
  - `createDefaultProgress` and HYDRATE's merge loop, as methods with loop invariants, each proved against a specification function;
  - the pure `reducer` as the function `Reduce`, with the predicate `IsNoOp` marking exactly the cases where the reducer returns the state object it was given;
  - `AppStateProvider` as a class. It holds the state, the `isHydrated` flag and the log of storage writes. Its persistence effect writes only once hydrated, and only when the state object or the flag changed.
- **Reducer properties** (`reducer_properties.dfy`):
  - the effect of each action, and that nothing else changes;
  - the per-region invariant that every action except HYDRATE keeps;
  - de-duplication of quiz credit, and that HYDRATE is idempotent;
  - quiz mastery is reachable from the local bank alone.
- **Provider runs** (`provider_scenarios.dfy`): two client methods built only from the class's specifications.
- **API base URL** (`api.dfy`): `getApiBaseUrl` as a pure function of its inputs (the environment URL and port, the three Expo host candidates, the platform).

Inputs that come from outside become explicit values:

- the result of reading storage becomes a `LoadResult` argument;
- the notification permission becomes the value passed to `SetNotificationsGranted`;
- `process.env`, `expo-constants` and `Platform.OS` become an `Environment` record;
- a storage write is recorded as the state snapshot appended to `writes`.

Behaviour of the code worth knowing, which the model reproduces:

- The reducer has no chat action. The chat screen dispatches `INCREMENT_CHAT` (frontend/app/chat/[region].tsx:283), and the reducer sends it to its `default` case, which returns the state unchanged. The model represents it as `Unrecognised(kind)`. There is no `chatCount`.
- `RESET_SUMMARY` and `RESET_QUIZ` always build a new state object. So they trigger a storage write even when nothing changed (`RedundantResetSummaryIsNotNoOp`). Not every content-preserving dispatch is write-free.
- `correctQuestionIds` is an array, not a set. Only the `includes` check keeps it free of duplicates, and HYDRATE may install an array that has duplicates.
- A region string outside the union is not rejected by a check that names it. `MARK_SUMMARY_READ` and `INCREMENT_QUIZ_CORRECT` then throw, because the record they read is undefined (frontend/context/AppStateContext.tsx:92-93, 113-116). `RESET_SUMMARY` and `RESET_QUIZ` instead add a partial entry under that string. The model's `Region` type rules such actions out (see "## Left out").
- HYDRATE spreads the payload over the current state. So a permission result dispatched before loading finished is replaced by a stored flag (`EarlyGrantThenHydrate`).

## Model

| member | source | states |
|---|---|---|
| Regions.ItemKeys | frontend/constants/regions.ts:25 | the key list has one entry per item, and position i holds item i's key |
| Regions.KeyInjective | frontend/types/types.ts:4-13 | two regions have the same string literal exactly when they are the same region |
| Regions.RegionItemsDistinct | frontend/constants/regions.ts:10-20 | REGION_ITEMS has exactly 9 entries with pairwise distinct keys |
| Regions.EveryRegionListed | frontend/constants/regions.ts:10-25 | every variant of the Region union is the key of some item, so it is in ALL_REGIONS |
| Regions.AllRegionsTotal | frontend/constants/regions.ts:25 | every region is in ALL_REGIONS, so a map built over it is total |
| Regions.AllRegionsAreItemKeys | frontend/constants/regions.ts:25 | ALL_REGIONS has the length and order of REGION_ITEMS' keys and no repeats |
| Regions.LabelsAreFixed | frontend/constants/regions.ts:10-20 | REGION_ITEMS is, position by position, the nine regions with their labels, e.g. upperlimb is "Upper Limb" at position 5 |
| QuizQuestions.QuizDataCoversEveryRegion | frontend/data/quiz_questions.ts:15 | quizData has a question list for every region |
| QuizQuestions.QuizDataWellFormed | frontend/data/quiz_questions.ts:15-394 | every region's list has at least 3 questions with distinct texts; each has 4 distinct options, the answer among them, and non-empty text and explanation |
| QuizQuestions.BackBankWellFormed | frontend/data/quiz_questions.ts:16-45 | the back list is well formed with at least 3 distinct texts |
| QuizQuestions.ThoraxBankWellFormed | frontend/data/quiz_questions.ts:47-86 | the thorax list is well formed with at least 3 distinct texts |
| QuizQuestions.AbdomenBankWellFormed | frontend/data/quiz_questions.ts:88-127 | the abdomen list is well formed with at least 3 distinct texts |
| QuizQuestions.PelvisBankWellFormed | frontend/data/quiz_questions.ts:129-168 | the pelvis list is well formed with at least 3 distinct texts |
| QuizQuestions.PerineumBankWellFormed | frontend/data/quiz_questions.ts:170-219 | the perineum list is well formed with at least 3 distinct texts |
| QuizQuestions.HeadBankWellFormed | frontend/data/quiz_questions.ts:221-265 | the head list is well formed with at least 3 distinct texts |
| QuizQuestions.NeckBankWellFormed | frontend/data/quiz_questions.ts:267-306 | the neck list is well formed with at least 3 distinct texts |
| QuizQuestions.UpperLimbBankWellFormed | frontend/data/quiz_questions.ts:308-352 | the upper-limb list is well formed with at least 3 distinct texts |
| QuizQuestions.LowerLimbBankWellFormed | frontend/data/quiz_questions.ts:354-393 | the lower-limb list is well formed with at least 3 distinct texts |
| QuizQuestions.ExactlyOneCorrectOption | frontend/data/quiz_questions.ts:7-12 | in a well-formed question exactly one option equals the answer |
| AppStateContext.Min | frontend/context/AppStateContext.tsx:121 | Math.min: the result is at most both arguments and equals one of them |
| AppStateContext.DefaultProgress | frontend/context/AppStateContext.tsx:49-59 | every region maps to the default record: unread, count 0, not complete, no ids |
| AppStateContext.CreateDefaultProgress | frontend/context/AppStateContext.tsx:49-59 | the accumulator loop over ALL_REGIONS yields a total map of default records |
| AppStateContext.Overlay | frontend/context/AppStateContext.tsx:79-82 | each field the stored entry carries replaces the base field, each absent one keeps it; an entry with no fields changes nothing |
| AppStateContext.IncomingEntry | frontend/context/AppStateContext.tsx:76-78 | a region's incoming entry exists exactly when `progress` is present and holds a truthy value under the region's key, and it is that value |
| AppStateContext.MergedEntry | frontend/context/AppStateContext.tsx:75-83 | a region without a truthy incoming entry gets the default record; one with an entry gets the entry overlaid on the default record |
| AppStateContext.MergedProgress | frontend/context/AppStateContext.tsx:75-84 | every region maps to its HYDRATE record |
| AppStateContext.MergeProgress | frontend/context/AppStateContext.tsx:75-84 | HYDRATE's loop, starting from the defaults and overlaying each truthy incoming region, yields that map |
| AppStateContext.HydrateState | frontend/context/AppStateContext.tsx:85-89 | the hydrated state is total with HYDRATE's record in every region; the flag is the payload's when present, else the prior state's |
| AppStateContext.WithRegion | frontend/context/AppStateContext.tsx:94-148 | the rebuilt state holds the new record for the action's region, every other region's record and the flag unchanged, and stays total |
| AppStateContext.IsNoOp | frontend/context/AppStateContext.tsx:91-158 | HYDRATE and both resets never return the given state; the default case always does |
| AppStateContext.Reduce | frontend/context/AppStateContext.tsx:72-160 | the reducer keeps the map total, and returns its argument unchanged on every no-op path |
| AppStateContext.AppStateProvider.constructor | frontend/context/AppStateContext.tsx:162-164 | the provider starts from initialState, not hydrated, with nothing written |
| AppStateContext.AppStateProvider.Valid | frontend/context/AppStateContext.tsx:184-189 | a valid provider holds a total state, and any recorded write implies it is hydrated |
| AppStateContext.AppStateProvider.Dispatch | frontend/context/AppStateContext.tsx:163 | the new state is the reducer's result; the persistence effect is scheduled exactly when a new state object results; nothing is written yet |
| AppStateContext.AppStateProvider.FinishLoad | frontend/context/AppStateContext.tsx:166-182 | a parsed snapshot is hydrated, a missing or failed read leaves the state alone, and the provider is hydrated in every case |
| AppStateContext.AppStateProvider.Commit | frontend/context/AppStateContext.tsx:184-189 | a pending effect writes the current state if and only if hydrated; no write ever precedes hydration, and once settled the last write is the current state |
| ReducerProperties.Run | frontend/context/AppStateContext.tsx:163 | folding the reducer over actions keeps the map total |
| ReducerProperties.InitialStateIsDefault | frontend/context/AppStateContext.tsx:49-64 | every region starts unread, with count 0, not complete and no ids; notifications start not granted |
| ReducerProperties.InitialStateConsistent | frontend/context/AppStateContext.tsx:49-64 | the initial state satisfies the per-region invariant |
| ReducerProperties.HydrateMergesOverDefaults | frontend/context/AppStateContext.tsx:74-90 | a missing or falsy region keeps the default; each supplied field overwrites and each absent field takes its default; the flag comes from the payload when present, else from the prior state |
| ReducerProperties.HydrateIgnoresPriorProgress | frontend/context/AppStateContext.tsx:75-84 | the hydrated progress does not depend on the progress held before |
| ReducerProperties.HydrateSingleRegion | frontend/context/AppStateContext.tsx:75-84 | a snapshot holding one region leaves the other eight at their defaults |
| ReducerProperties.HydrateIdempotent | frontend/context/AppStateContext.tsx:74-90 | applying HYDRATE(p) twice equals applying it once |
| ReducerProperties.HydrateCanBreakConsistency | frontend/context/AppStateContext.tsx:76-83 | persisted data is trusted: a stored count of 7 yields an inconsistent state |
| ReducerProperties.MarkSummaryReadEffect | frontend/context/AppStateContext.tsx:91-101 | an already-read region gives the identical state; otherwise only that region's summaryRead turns true and the state differs |
| ReducerProperties.ResetSummaryEffect | frontend/context/AppStateContext.tsx:102-111 | only that region's summaryRead turns false, and a new state is always built |
| ReducerProperties.RedundantResetSummaryIsNotNoOp | frontend/context/AppStateContext.tsx:102-111 | resetting an unread summary changes no content but is not a no-op |
| ReducerProperties.IncrementQuizCorrectEffect | frontend/context/AppStateContext.tsx:112-134 | no-op exactly when complete or the id is known; otherwise the id is appended, count = min(ids, 3), completion = count >= 3, and nothing else changes |
| ReducerProperties.IncrementQuizCorrectDedup | frontend/context/AppStateContext.tsx:114-119 | dispatching the same correct answer twice in a row equals dispatching it once, from any state |
| ReducerProperties.IncrementRestoresDerivedFields | frontend/context/AppStateContext.tsx:120-133 | after an accepted credit, count and completion agree with the ids, whatever was hydrated before |
| ReducerProperties.ResetQuizEffect | frontend/context/AppStateContext.tsx:135-149 | that region's count, completion and ids are cleared; its summaryRead and all other regions stay |
| ReducerProperties.SetNotificationsGrantedEffect | frontend/context/AppStateContext.tsx:150-156 | an unchanged value gives the identical state; otherwise only the flag changes |
| ReducerProperties.UnrecognisedIsNoOp | frontend/context/AppStateContext.tsx:157-158 | any action type other than the six handled ones returns the state unchanged |
| ReducerProperties.NoOpMeansUnchanged | frontend/context/AppStateContext.tsx:72-160 | apart from the resets and HYDRATE, a transition is a no-op exactly when it leaves the state equal |
| ReducerProperties.ReducePreservesConsistency | frontend/context/AppStateContext.tsx:91-158 | every action except HYDRATE keeps completion = (count >= 3), count = min(ids, 3), count <= 3, at most 3 ids, no duplicate ids |
| ReducerProperties.RunPreservesConsistency | frontend/context/AppStateContext.tsx:72-160 | any HYDRATE-free action sequence from a consistent state ends consistent |
| ReducerProperties.ReachableFromInitialIsConsistent | frontend/context/AppStateContext.tsx:61-64 | every state reached from initialState without HYDRATE is consistent |
| ReducerProperties.ThreeDistinctAnswersMaster | frontend/context/AppStateContext.tsx:120-129 | in a fresh region, three distinct correct answers leave completion false after one and two, and make it true on the third |
| ReducerProperties.LocalBankReachesMastery | frontend/data/quiz_questions.ts:15-394 | answering three of a region's own local questions completes its quiz |
| ProviderScenarios.RepeatedSummaryReadWritesOnce | frontend/context/AppStateContext.tsx:166-189 | start-up writes the initial state once, a summary read writes once, and repeating it writes nothing |
| ProviderScenarios.EarlyGrantThenHydrate | frontend/context/AppStateContext.tsx:166-206 | a grant dispatched before loading is never written, and the stored flag replaces it |
| Api.Truthy | frontend/utils/api.ts:16-26 | a string value is truthy exactly when it is neither undefined/null nor empty |
| Api.DefaultApiPort | frontend/utils/api.ts:12 | the port is "3000" when the env port is undefined, and the env port verbatim when it is defined |
| Api.PortChoice | frontend/utils/api.ts:12-38 | a defined but empty port stays empty, so a URL without an explicit one ends in a bare colon |
| Api.HostUri | frontend/utils/api.ts:21-24 | the first defined of the three candidates, and none exactly when all three are undefined |
| Api.StripProtocol | frontend/utils/api.ts:27 | a string with none of http://, https://, exp:// in front is unchanged; otherwise one such prefix is removed |
| Api.StripOneProtocol | frontend/utils/api.ts:27 | exactly one leading protocol is removed, whichever of the three it is |
| Api.BeforeColon | frontend/utils/api.ts:28 | the result is the longest prefix without a colon |
| Api.BeforeFirstColon | frontend/utils/api.ts:28 | for h + ":" + t with no colon in h, the result is h; a colon-free string is returned whole |
| Api.GetApiBaseUrl | frontend/utils/api.ts:14-39 | a truthy explicit URL is returned verbatim; otherwise the result starts with http:// and ends with ":" and the port |
| Api.ExplicitUrlOverrides | frontend/utils/api.ts:16-18 | with a truthy explicit URL, no other input changes the result |
| Api.EmptyFirstCandidateFallsThrough | frontend/utils/api.ts:21-26 | an empty expoConfig host is chosen by ??, so later candidates are ignored and the platform fallback is used |
| Api.LanHostUrl | frontend/utils/api.ts:26-30 | with a usable host string the URL is http:// + the text before the first colon, after one protocol is stripped, + ":" + port |
| Api.PlatformFallback | frontend/utils/api.ts:32-38 | with no host string, Android yields http://10.0.2.2:port and every other platform http://localhost:port |
| Api.ExpoGoExample | frontend/utils/api.ts:20-30 | exp://192.168.1.20:8081 with no port set gives http://192.168.1.20:3000 |

## Left out

- Storage I/O: `AsyncStorage.getItem`/`setItem` and `JSON.parse`/`JSON.stringify` are not modelled. A read arrives as a `LoadResult`. A write is the snapshot appended to `writes`. Failed writes are only logged by the source, so the model treats every issued write as recorded.
- Notifications: the handler, the Android channel, and the permission query and request are platform calls. Only the resulting value enters the model, through the `SetNotificationsGranted` dispatch.
- Untrusted payload types: persisted fields whose JSON value has the wrong type (a string `summaryRead`, a `null` field) are not modelled, because each stored field is typed. Extra fields inside a stored region entry and extra top-level keys of the payload, which the source's spreads carry into the state, are dropped. Non-region keys in `progress` need no such caveat: the source builds `progress` over `ALL_REGIONS` only, and so does the model. A truthy entry that is not an object contributes no known field, so it is modelled as an entry with every field absent.
- A stored value that parses to `null` (the text `null`) passes the `if (stored)` test and `JSON.parse`. The reducer then throws on `payload.progress` while rendering, outside `load`'s `try`, so start-up crashes. A `LoadResult` cannot express that payload, so the crash is not modelled. Other non-object values (a number, a boolean, a string) have no `progress` and no flag, so they hydrate like `Loaded(Snapshot(None, None))`, which the model expresses; the index keys a string spreads into the state are dropped, like other extra top-level keys.
- A region string outside the union, dispatched from untyped code, is not modelled: `Region` has only the nine variants. The source throws for `MARK_SUMMARY_READ` and `INCREMENT_QUIZ_CORRECT` and adds a partial entry for the resets.
- React scheduling: render timing is not modelled. Dispatches made before one commit are coalesced into a single effect run (`Commit`), and no order beyond that is captured.
- `useAppState`: its throw when used outside the provider concerns the component tree, so it is not modelled.
- Screens and UI: chat sending, reveal, retry-on-resume and background finalisation, quiz fetching and prefetch, `INCREMENT_CHAT` handling, and screen rendering are not in the modelled files. Only the reducer's default case, which receives `INCREMENT_CHAT`, is modelled.
- `regionImages`: this is asset loading only.
- The backend relay and the prompt constants are not part of this model.
- `API_BASE_URL`: the source evaluates it once, at import. The model's `GetApiBaseUrl` is the same function applied to an explicit environment.
