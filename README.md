# AI of Memories — a verified model of the journal's core logic

The repository is a private journal that remembers its writer. Each entry gets a short
"margin note" reply from a Gemini model and a set of typed memory tags. These tags are
events, people, feelings, beliefs and voice. Later the writer can talk with a simulation
of their past self. The tags are grouped into a "knowledge summary" that is quoted in
every prompt. There are three front ends:

- a Next.js web app: the `diary-app` directory, with a JSON-file store, API routes, a
  PIN lock screen, a three-step onboarding, a sidebar and the past-self chat;
- a Streamlit app (`app.py`) over a SQLite store (`memories_db.py`) and its model layer
  (`ai_engine.py`);
- a guided-journal Streamlit app ("Echoes", `NACHO/PRUEBA1/ia_recuerdos/app.py`). It asks
  two or three rounds of generated questions and keeps its memories in a vector store.

This project models the logic around each model call. The model calls, the storage
and the rendering are not modelled. What is modelled:

- **Stores.** The JSON store and the SQLite store are classes whose fields are the
  persisted documents and tables:
  - `MemoryStore.Store` models `diary-app/lib/memory-store.js`;
  - `MemoriesDb.Database` models `memories_db.py`.

  Their loops (grouping, deduplication, flattening) are proved equal to pure definitions
  in `Knowledge`. The web summary and the sidebar list the grouping object's keys in
  JavaScript's own-key order: array-index keys such as `2020` first, ascending, then the
  other keys in insertion order (`Knowledge.ObjectEntries`). `ORDER BY created_at` is modelled in `SqlOrder` as a stable sort.
- **Prompts and history.** These are pure functions:
  - `AiEngine` models `ai-engine.js`, and `AiEnginePy` models `ai_engine.py`;
  - the history normaliser is a suffix of the window that opens with a user turn;
  - prompts are modelled by the blocks and defaults they contain;
  - stripping a code fence from the tag output is a proved round trip.
- **API routes.** `JournalApi` and `PastSelfApi` model the two routes as functions from
  a request to a response. Each also says what it does to the store. `ApiKey` is the key
  precedence the two routes share.
- **Web state machines.** Each of these is a class with one method per event:
  - the PIN pad (`LockScreen`);
  - the onboarding steps (`OnboardingFlow`);
  - the page shell and its navigation gate (`Home`);
  - the chat transcript (`PastSelfMode`).

  `Sidebar` is the pure tag grouping and display rules.
- **Streamlit state machines.** `StreamlitApp.Session` and `GuidedJournal.Journal`
  hold the session state. Each button press is a method.

Asynchronous calls are modelled in two steps. A method starts the call and records
what is outstanding. A later event completes it with an outcome passed in as a
parameter: `Ok` with the reply or `Err` with the failure. Timers are handled the same
way. JSON parsing is a parameter `parse`, and so are clock readings, generated ids and
the random round count.

Where the system's design description and the code disagree, the model follows the
code:

- **No-memories sentinel.** The description says the knowledge summary returns a
  "no memories yet" sentinel exactly for an empty store. The web store does that:
  entries without tags give the empty text (`Knowledge.SentinelIffNoEntries`,
  `Knowledge.UntaggedEntriesSummary`). The SQLite store returns the sentinel whenever
  no tag is stored, even with entries present (`MemoriesDb.UntaggedJournalsDiffer`).
  `ai_engine.py` also quotes the sentinel as knowledge (`AiEnginePy.SentinelQuoted`).
- **Era bounds.** The description treats a null bound as unbounded. The code tests
  truthiness, so a year of 0 is unbounded too. An entry whose date does not parse
  fails every bounded comparison (`EraFilter`).
- **After-the-era notice.** The description tells the model not to know anything after
  the era "when an era is specified". The chat screen sends a label for every era,
  `all` included, so the notice is always added in past-self mode
  (`PastSelfMode.EveryEraSendsNotice`).
- **Entry ids.** The description asks for distinct, non-decreasing ids. The web store
  uses the clock (`Date.now()`), so the model takes the id as given and claims neither.
- **Tag types.** The description suggests a closed set of tag types. The code keeps them
  as free strings, and so does the model.
- **No re-introduction.** The description asks the journaling prompt to say "do not
  re-introduce yourself" only once a history exists. The code has no such branch: the
  persona text is fixed and is a parameter here.


## Model

| member | source | states |
|---|---|---|
| Text.TrimStart | diary-app/lib/ai-engine.js:110 | the result is a suffix of the input that does not start with whitespace, and only whitespace was removed |
| Text.TrimEnd | diary-app/lib/ai-engine.js:110 | the result is a prefix of the input that does not end with whitespace, and only whitespace was removed |
| Text.TrimEmptyIffBlank | app.py:300 | `strip()` gives the empty text exactly when the input is all whitespace |
| Text.TrimIdempotent | app.py:300-301 | trimming a trimmed text changes nothing |
| Text.Find | diary-app/lib/ai-engine.js:111 | the first occurrence of the separator, or none when it never occurs |
| JsValues.FieldOr | diary-app/lib/ai-engine.js:35 | `o[k] \|\| d` gives the default when the member is missing or falsy |
| MemoryStore.MergeProfile | diary-app/lib/memory-store.js:37 | the spread merge holds every key of either object plus `updatedAt`; given members win, other stored members are kept, `updatedAt` is the write time |
| MemoryStore.Store.constructor | diary-app/lib/memory-store.js:9-11 | a fresh data directory holds neither document |
| MemoryStore.Store.Profile | diary-app/lib/memory-store.js:19-24 | a missing or unparseable profile document reads as `{}` |
| MemoryStore.Store.Entries | diary-app/lib/memory-store.js:48-53 | a missing or unparseable entries document reads as `[]` |
| MemoryStore.Store.GetProfile | diary-app/lib/memory-store.js:19-24 | returns the stored object, `{}` when the file is missing or does not parse |
| MemoryStore.Store.SetProfile | diary-app/lib/memory-store.js:26-33 | the new profile is the old one with the key set and `updatedAt` stamped; entries untouched |
| MemoryStore.Store.SetProfileBulk | diary-app/lib/memory-store.js:35-40 | the new profile is the spread merge of the stored one and the data; entries untouched |
| MemoryStore.Store.IsOnboardingComplete | diary-app/lib/memory-store.js:42-44 | true exactly when `onboardingComplete` is strictly `true` |
| MemoryStore.Store.GetEntries | diary-app/lib/memory-store.js:48-53 | returns the stored array, `[]` when the file is missing or does not parse |
| MemoryStore.Store.AddEntry | diary-app/lib/memory-store.js:55-68 | the entry gets the given id, content, reply, tags and time, and is appended after all stored entries; profile untouched |
| MemoryStore.Store.GetKnowledgeSummary | diary-app/lib/memory-store.js:72-87 | the nested loop builds the grouping object and the result is exactly the knowledge summary of the stored entries: the sentinel when there are none, else one line per key in the object's key order |
| MemoryStore.Store.GetAllTags | diary-app/lib/memory-store.js:89-98 | the nested loop yields every tag of every entry, in order, with the entry's id and date |
| MemoryStore.Store.GetEntriesByEra | diary-app/lib/memory-store.js:104-113 | the stored entries filtered by the era |
| MemoryStore.AddEntryTags | diary-app/lib/memory-store.js:78-81 | the inner loop folds one entry's tags into the grouping, continuing the grouping of all tags seen before |
| MemoryStore.AddToGroups | diary-app/lib/memory-store.js:79-80 | one loop step creates the type's group when missing and adds the value to its Set |
| MemoryStore.GroupsOfSnoc | diary-app/lib/memory-store.js:77-82 | the loop body is one step of the grouping function |
| MemoryStore.SetThenGet | diary-app/lib/memory-store.js:26-33 | after `setProfile(k, v)`, `k` reads `v` (unless it is `updatedAt`) and every other stored member is unchanged |
| MemoryStore.BulkCompletesOnboarding | diary-app/lib/memory-store.js:35-44 | a bulk write carrying `onboardingComplete: true` makes `isOnboardingComplete` hold |
| Knowledge.Dedupe | diary-app/lib/memory-store.js:79-80 | a JavaScript Set's iteration order: exactly the elements of the input, without duplicates, no longer than the input |
| Knowledge.IndexOf | diary-app/lib/memory-store.js:80 | the first position holding the element |
| Knowledge.DedupeFirstSeenOrder | diary-app/lib/memory-store.js:79-85 | values are listed in the order of their first occurrence |
| Knowledge.DedupeOfDistinct | diary-app/lib/memory-store.js:80 | a sequence without repeats is its own deduplication |
| Knowledge.DedupeIdempotent | diary-app/lib/memory-store.js:80 | deduplication is idempotent |
| Knowledge.Kinds | diary-app/lib/memory-store.js:78-79 | the types of the tags, one per tag |
| Knowledge.ValueOfTag | diary-app/lib/memory-store.js:80 | every tag's value is among its type's values |
| Knowledge.ValuesOfAbsentKind | diary-app/lib/memory-store.js:79 | a type no tag has has no values |
| Knowledge.ReferenceGroups | diary-app/lib/memory-store.js:72-87 | one group per tag type in first-seen order, each with its distinct values in first-seen order |
| Knowledge.FindGroup | diary-app/lib/memory-store.js:79 | `grouped[type]`: the position of the type's group, or none when no group has that type |
| Knowledge.AddTagNewKind | diary-app/lib/memory-store.js:79-80 | a tag of a new type appends a one-value group |
| Knowledge.AddTagKnownKind | diary-app/lib/memory-store.js:79-80 | a tag of a known type changes only its own group |
| Knowledge.GroupsOfIsReference | diary-app/lib/memory-store.js:76-82 | the tag-by-tag grouping loop builds exactly the reference grouping |
| Knowledge.GroupKindsDistinct | diary-app/lib/memory-store.js:79 | no two groups share a type (object keys) |
| Knowledge.GroupKindsPresent | diary-app/lib/memory-store.js:79 | a group exists exactly for the types that occur among the tags |
| Knowledge.RepeatedTagChangesNothing | diary-app/lib/memory-store.js:80 | adding a tag already recorded leaves the grouping unchanged |
| Knowledge.RenderLines | diary-app/lib/memory-store.js:84-85 | one `[type]: v1 \| v2` line per group, in group order |
| Knowledge.SummaryOfTagsShape | diary-app/lib/memory-store.js:84-86 | no tags give the empty string; otherwise the summary starts with `[` |
| Knowledge.InsertByIndex | diary-app/lib/memory-store.js:84 | inserting a group adds exactly that group (as a multiset) |
| Knowledge.InsertKeepsAscending | diary-app/lib/memory-store.js:84 | insertion keeps the keys in ascending numeric order |
| Knowledge.SortByIndex | diary-app/lib/memory-store.js:84 | the array-index keys come out as a permutation in ascending numeric order |
| Knowledge.IndexGroups | diary-app/lib/memory-store.js:84 | only groups whose key is an array index are kept |
| Knowledge.NamedGroups | diary-app/lib/memory-store.js:84 | only groups whose key is not an array index are kept |
| Knowledge.SplitIsPermutation | diary-app/lib/memory-store.js:84 | the two kinds of key together are exactly the groups |
| Knowledge.ObjectEntries | diary-app/lib/memory-store.js:84 | `Object.entries` lists every group once: a permutation of the groups in insertion order |
| Knowledge.ObjectEntriesOrder | diary-app/lib/memory-store.js:84 | array-index keys come first in ascending numeric order, then the other keys in insertion order |
| Knowledge.NoIndexKeysKeepOrder | diary-app/lib/memory-store.js:84 | without array-index keys the enumeration is the insertion order |
| Knowledge.ObjectEntryIsTypeGroup | diary-app/lib/memory-store.js:76-85 | each enumerated group is one tag type with its distinct values in first-seen order |
| Knowledge.TypeIsEnumerated | diary-app/lib/memory-store.js:76-85 | every tag type is enumerated |
| Knowledge.SummaryLines | diary-app/lib/memory-store.js:84-86 | one line per tag type in the object's key order, `[type]: ` then that type's distinct values in first-seen order; every type has a line |
| Knowledge.SummaryLinesFirstSeen | diary-app/lib/memory-store.js:84-86 | when no tag type is an array index, the i-th line is the i-th type in first-seen order with its distinct values |
| Knowledge.SentinelIffNoEntries | diary-app/lib/memory-store.js:74 | the no-memories sentinel is returned exactly when there are no entries |
| Knowledge.UntaggedEntriesSummary | diary-app/lib/memory-store.js:74-86 | entries that carry no tags summarise to the empty string, not to the sentinel |
| Knowledge.EntryRecords | diary-app/lib/memory-store.js:93-95 | one record per tag of the entry, each with the entry's id and date |
| Knowledge.AllTagRecordsAreFlatten | diary-app/lib/memory-store.js:89-98 | the records list exactly all tags of all entries in the same order |
| Knowledge.AllTagRecordsAt | diary-app/lib/memory-store.js:92-95 | the `j`-th tag of entry `i` is the record right after the records of the entries before `i`, with entry `i`'s id and creation time |
| Knowledge.AllTagRecordsOwned | diary-app/lib/memory-store.js:94 | every record points at a stored entry that owns its tag |
| AiEngine.GetModel | diary-app/lib/ai-engine.js:7-12 | a falsy key is refused with `API_KEY_REQUIRED`; otherwise the model is bound to that key and to `gemini-2.0-flash` |
| AiEngine.Window | diary-app/lib/ai-engine.js:47 | `slice(-n)` keeps the last `min(n, length)` elements and is a suffix of its input |
| AiEngine.ToContents | diary-app/lib/ai-engine.js:47-50 | one chat content per turn, role `user` kept and every other role sent as `model`, text unchanged |
| AiEngine.FirstUser | diary-app/lib/ai-engine.js:52 | `findIndex` gives the first `user` position and -1 only when no user turn exists |
| AiEngine.AnchorAtUser | diary-app/lib/ai-engine.js:52-53 | the kept history is a suffix that starts with a user turn (or is empty) and only non-user turns are dropped before it |
| AiEngine.NormalizeHistory | diary-app/lib/ai-engine.js:47-53 | the history sent holds at most 8 turns, is a mapped suffix of the conversation, opens with a user turn and drops only model turns from the window |
| AiEngine.AnchoredSuffix | diary-app/lib/ai-engine.js:47-53 | what anchoring keeps is the mapped tail of the conversation |
| AiEngine.AnchoredDropsOnlyModelTurns | diary-app/lib/ai-engine.js:52-53 | every turn dropped from the window is not a user turn |
| AiEngine.NormalizedEmptyIffNoUser | diary-app/lib/ai-engine.js:52-53 | the history sent is empty exactly when the last 8 turns hold no user turn |
| AiEngine.WindowFromUserKept | diary-app/lib/ai-engine.js:53 | a window that already opens with a user turn is sent whole |
| AiEngine.ProfileContext | diary-app/lib/ai-engine.js:34-36 | the profile block is empty exactly when no profile is given |
| AiEngine.KnowledgeContext | diary-app/lib/ai-engine.js:38-40 | the knowledge block is empty exactly for an empty summary or the no-memories sentinel, and otherwise ends with the summary |
| AiEngine.JournalingMessage | diary-app/lib/ai-engine.js:42-56 | the message is the system prompt, the profile block, the knowledge block, the `Journal entry:` heading and the entry, in that order; so it starts with the prompt and ends with the heading and entry, and text lies between them whenever the summary is neither empty nor the no-memories sentinel |
| AiEngine.JournalingRequest | diary-app/lib/ai-engine.js:31-56 | refused exactly when the key is falsy; otherwise sends the normalised 8-turn history and a message built from persona, profile, knowledge and entry |
| AiEngine.EntryLines | diary-app/lib/ai-engine.js:73 | at most `n` lines, one `[date]: content` line for each entry of the `slice(-n)` window, in window order |
| AiEngine.EntryLinesAreLatest | diary-app/lib/ai-engine.js:73 | line `i` is the line of entry `|entries| - |lines| + i`: the latest entries, oldest first |
| AiEngine.MissingFieldAsQuestionMark | diary-app/lib/ai-engine.js:34-72 | a missing or falsy profile field renders exactly as if it held `?`, in both prompts |
| AiEngine.FieldAsQuestionMark | diary-app/lib/ai-engine.js:35 | `field \|\| '?'` reads the same when a falsy field is replaced by `?` |
| AiEngine.NoProfileBlockLikeEmpty | diary-app/lib/ai-engine.js:72 | with no profile the past-self profile block is the one of an empty profile (optional chaining) |
| AiEngine.PastSelfRequest | diary-app/lib/ai-engine.js:69-85 | refused exactly when the key is falsy; otherwise the last 15 entries and the normalised 8-turn history are sent |
| AiEngine.ExtractTags | diary-app/lib/ai-engine.js:106-117 | no key or a failed call yields `[]`; otherwise the unfenced reply is parsed and only an array is returned |
| AiEngine.NotFenceAt | diary-app/lib/ai-engine.js:111 | a window holding a non-backtick is not a fence |
| AiEngine.ClosingFence | diary-app/lib/ai-engine.js:111 | in `pre body \n fence` with no backtick in `pre` and no fence in `body`, the first fence is the closing one |
| AiEngine.SecondFieldAfterOpening | diary-app/lib/ai-engine.js:111 | `split('```')[1]` of a text that opens with a fence is what lies before the next fence |
| AiEngine.OpenedBlockTrimmed | diary-app/lib/ai-engine.js:110-111 | a fenced block is unchanged by `trim` and starts with the fence |
| AiEngine.FencedRestClosing | diary-app/lib/ai-engine.js:111 | after the opening fence, the first fence is the closing one |
| AiEngine.FencedInside | diary-app/lib/ai-engine.js:111 | the second field of a fenced block is its language tag and its body between newlines |
| AiEngine.StripFenceRoundTrip | diary-app/lib/ai-engine.js:110-111 | a reply fenced as a `json` block is unwrapped to exactly its trimmed body (round trip) |
| AiEngine.StripFenceUnfenced | diary-app/lib/ai-engine.js:110-111 | a reply that does not open with a fence is only trimmed |
| EraFilter.Filter | diary-app/lib/memory-store.js:107-112 | keeps exactly the entries whose year passes each set bound, never more entries than given |
| EraFilter.FilterSnoc | diary-app/lib/memory-store.js:107-112 | one more entry is appended to the result exactly when it is inside the era |
| EraFilter.FilterAppend | diary-app/lib/memory-store.js:107 | filtering distributes over concatenation, so the stored order is kept |
| EraFilter.FilterKeepsAll | diary-app/lib/memory-store.js:107-112 | entries all inside the era are returned unchanged |
| EraFilter.ShortcutAgrees | diary-app/lib/memory-store.js:106 | the early return when no bound is set agrees with filtering |
| EraFilter.EntriesByEraMembership | diary-app/lib/memory-store.js:104-113 | an entry is returned exactly when it is stored and inside the era |
| AiEnginePy.OnboardingKeys | ai_engine.py:27-61 | there are three onboarding questions, stored under three different profile keys |
| AiEnginePy.Get | ai_engine.py:92-94 | `dict.get(k, d)`: the stored value when the key is present, the default otherwise |
| AiEnginePy.ProfileContext | ai_engine.py:88-95 | the profile block is empty exactly when the profile dict is empty |
| AiEnginePy.KnowledgeContext | ai_engine.py:97 | the knowledge block is empty exactly for an empty summary and otherwise ends with the summary |
| AiEnginePy.SentinelQuoted | ai_engine.py:97 | unlike the web engine, the no-memories sentinel is quoted as knowledge |
| AiEnginePy.PassThrough | ai_engine.py:102-107 | one chat content per turn with role and text unchanged |
| AiEnginePy.BuildHistory | ai_engine.py:102-107 | the loop builds the last ten turns passed through |
| AiEnginePy.HistoryKeepsRoles | ai_engine.py:103 | the history holds `min(10, n)` turns with the conversation's own roles |
| AiEnginePy.LeadingModelTurnKept | ai_engine.py:102-107 | a window opening with a model turn is sent as it is (no user anchoring) |
| AiEnginePy.JournalingMessage | ai_engine.py:99-111 | the message is the system prompt, the profile block, the knowledge block, the `User's journal entry:` heading and the entry, in that order; so it starts with the prompt and ends with the heading and entry, and text lies between them for every non-empty summary, the sentinel included |
| AiEnginePy.JournalingRequest | ai_engine.py:79-112 | the chat uses `gemini-2.0-flash` with the key, the ten-turn history and the journaling message |
| AiEnginePy.RecentLines | ai_engine.py:139-141 | one `[date]: content` line for each of the last 20 entries, oldest first |
| AiEnginePy.PastSelfRequest | ai_engine.py:128-166 | the chat uses the model, the ten-turn history and the past-self message built from profile, summary and recent entries |
| AiEnginePy.ExtractKnowledgeTags | ai_engine.py:192-206 | a failed call yields `[]`; otherwise the unfenced reply is parsed and only a list is returned |
| AiEnginePy.UnfenceRoundTrip | ai_engine.py:197-202 | a `json` code block is cut to its body with the surrounding newlines still on |
| AiEnginePy.WebStripIsTrimmedUnfence | ai_engine.py:197-202 | the web app's unfencing is the Streamlit one followed by a trim |
| MemoriesDb.GetOr | memories_db.py:113 | `t.get(k, d)`: the tag's field when present, the default otherwise |
| MemoriesDb.TagRows | memories_db.py:104-114 | one row per tag, with the entry id, `type` (default `Unknown`), `value` (default empty) and the time |
| MemoriesDb.TagsOfRows | memories_db.py:133 | one (type, value) pair per stored row, in row order |
| MemoriesDb.DedupeGroups | memories_db.py:136-142 | each group keeps its type and its values deduplicated in first-seen order |
| MemoriesDb.FindGroupSameKinds | memories_db.py:133 | group lookup depends only on the group types |
| MemoriesDb.RawAddStep | memories_db.py:131-142 | appending then deduplicating equals the web app's add-to-Set step |
| MemoriesDb.RawGroupsDeduped | memories_db.py:131-142 | `setdefault`/`append` grouping followed by deduplication is the web grouping |
| MemoriesDb.PySentinelIffNoTags | memories_db.py:127-129 | the sentinel is returned exactly when no tag is stored |
| MemoriesDb.PySummaryMatchesWeb | memories_db.py:125-144 | with at least one tag and no tag type that is an array index, the summary text is the web app's |
| MemoriesDb.TwoTypesTwoGroups | memories_db.py:131-133 | two tags of different types make two groups in tag order |
| MemoriesDb.PyKeepsInsertionOrder | memories_db.py:131-144 | the dictionary keeps a named type before an array-index type seen after it |
| MemoriesDb.WebPutsIndexFirst | diary-app/lib/memory-store.js:84 | the web grouping lists an array-index type before a named type seen before it |
| MemoriesDb.IndexKeyEnumeratedFirst | diary-app/lib/memory-store.js:84 | of a named group and an array-index group, the object enumerates the array-index group first |
| MemoriesDb.IndexTypeOrderDiffers | memories_db.py:131-144 | for a named type then an array-index type, the web summary has the two lines in the opposite order to the Python summary |
| MemoriesDb.YearTypeIsArrayIndex | diary-app/lib/memory-store.js:84 | a type such as `2020` is an array index and `Event` is not |
| MemoriesDb.UntaggedJournalsDiffer | memories_db.py:127-129 | entries without tags: the web summary is empty while the Python summary is the sentinel |
| MemoriesDb.Database.constructor | memories_db.py:23-49 | fresh tables are empty |
| MemoriesDb.Database.ProfileView | memories_db.py:64-67 | `get_profile` returns each stored key with its value |
| MemoriesDb.Database.OrderedEntries | memories_db.py:88-93 | `ORDER BY created_at ASC`: sorted by creation time and a permutation of the stored rows |
| MemoriesDb.Database.OrderedTags | memories_db.py:117-122 | tags sorted by creation time and a permutation of the stored rows |
| MemoriesDb.Database.SetProfile | memories_db.py:54-61 | upsert: the key's row becomes the value and time; other tables untouched |
| MemoriesDb.Database.GetProfile | memories_db.py:64-67 | returns the key/value view of the profile table |
| MemoriesDb.Database.ProfileIsComplete | memories_db.py:70-73 | true exactly when `onboarding_complete` is stored as the string `true` |
| MemoriesDb.Database.SaveEntry | memories_db.py:78-85 | appends a row with the next autoincrement id and returns that id |
| MemoriesDb.Database.GetAllEntries | memories_db.py:88-93 | the entries in creation-time order |
| MemoriesDb.Database.GetEntryCount | memories_db.py:96-99 | the number of stored entries |
| MemoriesDb.Database.SaveTags | memories_db.py:104-114 | appends exactly the rows of the given tags; other tables untouched |
| MemoriesDb.Database.GetAllTags | memories_db.py:117-122 | the tags in creation-time order |
| MemoriesDb.Database.GetKnowledgeSummary | memories_db.py:125-144 | the loops yield the Python summary of the ordered tags |
| MemoriesDb.GroupValues | memories_db.py:131-133 | the `setdefault(...).append(...)` loop builds the raw grouping |
| MemoriesDb.DistinctValues | memories_db.py:138-141 | the `seen` loop keeps each value at its first occurrence |
| MemoriesDb.SetDefaultAppend | memories_db.py:133 | one step: create the type's list when missing, then append the value |
| MemoriesDb.RenderDedupedSnoc | memories_db.py:135-142 | rendering one more group appends its deduplicated line |
| MemoriesDb.UpsertThenGet | memories_db.py:54-67 | after `set_profile(k, v)`, `get_profile()[k] == v` and other keys are unchanged |
| SqlOrder.LexTotal | memories_db.py:91 | any two keys are comparable under the text order |
| SqlOrder.LexTrans | memories_db.py:91 | the text order is transitive |
| SqlOrder.Insert | memories_db.py:91 | inserting a row adds exactly that row (multiset) |
| SqlOrder.InsertSorted | memories_db.py:91 | inserting keeps rows sorted |
| SqlOrder.SortBy | memories_db.py:91 | the ordered rows are a permutation of the table |
| SqlOrder.SortBySorted | memories_db.py:91 | the ordered rows ascend by key |
| SqlOrder.SortByOfSorted | memories_db.py:91 | rows inserted in time order come back in insertion order |
| SqlOrder.InsertAfterAll | memories_db.py:91 | a row whose key is not below any other goes last |
| ApiKey.FirstNonEmpty | diary-app/pages/api/journal.js:8 | `a \|\| b \|\| c \|\| d \|\| ''`: empty exactly when no candidate is a non-empty string, otherwise the first non-empty candidate |
| ApiKey.ResolveKey | diary-app/pages/api/journal.js:8 | the key is empty exactly when body key, `x-api-key`, stripped `authorization` and environment are all missing or empty |
| ApiKey.BodyKeyWins | diary-app/pages/api/journal.js:8 | a non-empty body key wins over the headers and the environment |
| ApiKey.HeaderKeyNext | diary-app/pages/api/journal.js:8 | without a body key, a non-empty `x-api-key` header wins |
| ApiKey.EnvKeyLast | diary-app/pages/api/journal.js:8 | the environment key is used only when no request source supplies one |
| ApiKey.BearerPrefixRemoved | diary-app/pages/api/journal.js:8 | an `authorization: Bearer <token>` header yields the bare token, for every non-empty token |
| JournalApi.Validate | diary-app/pages/api/journal.js:5-12 | 405 exactly for a non-POST; then 400 for blank content, then 400 for a blank key; otherwise the resolved non-blank key |
| JournalApi.ReplyRequest | diary-app/pages/api/journal.js:14-20 | the journaling call uses the key, the normalised 8-turn history and a message from the stored profile and knowledge summary |
| JournalApi.HandleJournal | diary-app/pages/api/journal.js:4-30 | the status is 405, 400, 200 or 500 exactly in the source's cases; on 200 the entry with the reply and extracted tags is appended to the store; otherwise nothing is written; the profile is never written |
| JournalApi.ContentCheckedBeforeKey | diary-app/pages/api/journal.js:11-12 | blank content is reported even when the key is missing too |
| JournalApi.BlankKeyRefused | diary-app/pages/api/journal.js:12 | a key made only of white space is refused although it is non-empty |
| PastSelfApi.PastSelfEntries | diary-app/pages/api/past-self.js:45-47 | all entries when no era bound is set, otherwise exactly the stored entries inside the era |
| PastSelfApi.Framed | diary-app/pages/api/past-self.js:86 | the sent message ends with the user's message |
| PastSelfApi.PlanRequest | diary-app/pages/api/past-self.js:15-86 | 405 for a non-POST, 400 for a missing key before 400 for a falsy message; otherwise a `gemini-2.0-flash` call with the key, the 6-turn normalised history and the persona prompt |
| PastSelfApi.Respond | diary-app/pages/api/past-self.js:89-96 | 200 with the reply, or 500 with `Error de la IA: ` and the failure |
| PastSelfApi.KeyCheckedBeforeMessage | diary-app/pages/api/past-self.js:32-38 | a missing key is reported even when the message is empty too |
| PastSelfApi.EraSelection | diary-app/pages/api/past-self.js:44-51 | in past-self mode the quoted memories are the era's entries when a bound is set, every entry otherwise |
| PastSelfApi.EraNoticeIffLabel | diary-app/pages/api/past-self.js:53-55 | the era notice appears exactly when the label is a non-empty string |
| PastSelfApi.RoccoQuotesLastThree | diary-app/pages/api/past-self.js:64-71 | the default persona quotes the last three entries (all when fewer) and the knowledge summary |
| PastSelfApi.SentHistoryShape | diary-app/pages/api/past-self.js:77-83 | the history sent holds at most six turns and never opens with a model turn |
| PastSelfMode.OpeningFor | diary-app/components/PastSelfMode.jsx:173-177 | the opening message is the era greeting in past-self mode, else the entry prompt when an entry was saved, else the plain chat prompt |
| PastSelfMode.CallOutcome | diary-app/components/PastSelfMode.jsx:150-170 | no stored key fails with `NO_API_KEY` before any request; a non-OK reply fails with the server's error, or `Error del servidor` when it has none; a network failure fails with its own message; a successful reply yields its text, or `…` when empty; never an empty success |
| PastSelfMode.RequestBody | diary-app/components/PastSelfMode.jsx:157-165 | the posted body carries the message, the history, the mode and the era's bounds and label |
| PastSelfMode.EveryEraSendsNotice | diary-app/components/PastSelfMode.jsx:164 | every era, `all` included, sends a label, so the route always adds its era notice in past-self mode |
| PastSelfMode.YearEraQuotesItsYear | diary-app/components/PastSelfMode.jsx:13-19 | every era after `all` is a single year, and its call quotes exactly the entries written in that year, in order |
| PastSelfMode.AllEraQuotesEverything | diary-app/components/PastSelfMode.jsx:13-19 | the `all` era makes the route quote every entry |
| PastSelfMode.Session.constructor | diary-app/components/PastSelfMode.jsx:123-128 | empty transcript and input, not loading, the first era selected, no error, nothing in flight |
| PastSelfMode.Session.Open | diary-app/components/PastSelfMode.jsx:172-184 | the opening clears transcript and error, sets the loading flags and starts the opening call for the current era |
| PastSelfMode.Session.SelectEra | diary-app/components/PastSelfMode.jsx:203-205 | in past-self mode, where alone the era picker is shown, choosing another era restarts the conversation for it; choosing the active era changes nothing, since the effect does not run again |
| PastSelfMode.Session.SetInput | diary-app/components/PastSelfMode.jsx:327-330 | typing, possible only while no call is loading, changes only the input box |
| PastSelfMode.Session.Send | diary-app/components/PastSelfMode.jsx:207-218 | blank input or loading changes nothing, the typing indicator included; otherwise the trimmed text is appended as a user turn and sent with the transcript as it was before |
| PastSelfMode.Session.Complete | diary-app/components/PastSelfMode.jsx:183-230 | an opening replaces the transcript with the reply or sets the error; a sent message gets exactly one assistant turn (reply or error text); loading is cleared either way |
| PastSelfMode.SendThenAnswer | diary-app/components/PastSelfMode.jsx:207-230 | a message sent and answered adds exactly a user turn and an assistant turn |
| PastSelfMode.OpenThenAnswer | diary-app/components/PastSelfMode.jsx:172-197 | an answered opening leaves exactly the assistant's greeting |
| Sidebar.ColorFor | diary-app/components/Sidebar.jsx:4-10 | the type's colours, or the grey default for an unknown type |
| Sidebar.Accumulate | diary-app/components/Sidebar.jsx:17-21 | one reduce step creates the type's list when missing and adds the value unless already present |
| Sidebar.TagsByType | diary-app/components/Sidebar.jsx:17-21 | the reduce builds the same grouping as the knowledge summary |
| Sidebar.TagsByTypeShape | diary-app/components/Sidebar.jsx:17-21 | a key exists exactly for the types among the tags, and each holds its distinct values |
| Sidebar.Truncate | diary-app/components/Sidebar.jsx:126 | values up to 22 characters are shown whole; longer ones as their first 22 characters and `…` |
| Sidebar.Shown | diary-app/components/Sidebar.jsx:122 | at most the first five values of a type are shown, each truncated |
| Sidebar.Snapshot | diary-app/components/Sidebar.jsx:114-126 | one view per key of the grouping, in the object's key order, with its colours and shown values |
| Sidebar.SnapshotBounds | diary-app/components/Sidebar.jsx:122-126 | no type shows more than five values and no value is longer than 23 characters |
| Sidebar.SnapshotIffTags | diary-app/components/Sidebar.jsx:106 | the memory section is rendered exactly when there is at least one tag |
| LockScreen.PinPad.constructor | diary-app/components/LockScreen.jsx:9-11 | empty PIN, no error, not unlocking, no timer pending |
| LockScreen.PinPad.CheckPin | diary-app/components/LockScreen.jsx:23-31 | `0000` starts unlocking and schedules one more `onUnlock` timer; any other PIN flags the error and schedules one more reset timer, on top of any still pending |
| LockScreen.PinPad.HandleDigit | diary-app/components/LockScreen.jsx:13-19 | a full PIN ignores digits; otherwise the digit is appended, the error cleared, and the fourth digit checks the PIN; each full wrong PIN adds a reset timer, a correct one adds an unlock timer and leaves the pending resets as they were |
| LockScreen.PinPad.HandleDelete | diary-app/components/LockScreen.jsx:21 | removes the last digit (none when empty) and clears the error |
| LockScreen.PinPad.ResetFires | diary-app/components/LockScreen.jsx:29 | one pending reset timer fires and empties the PIN, including digits typed since it was scheduled |
| LockScreen.PinPad.UnlockFires | diary-app/components/LockScreen.jsx:26 | one pending unlock timer fires and calls `onUnlock` |
| LockScreen.PinPad.Bypass | diary-app/components/LockScreen.jsx:137 | the bypass button unlocks whatever the PIN, scheduling an `onUnlock` timer of its own |
| LockScreen.EnterCorrectPin | diary-app/components/LockScreen.jsx:6-31 | typing `0000` and letting the timer fire unlocks the pad |
| LockScreen.EnterWrongPin | diary-app/components/LockScreen.jsx:13-31 | any other four digits leave the pad locked with the error shown and the PIN cleared |
| LockScreen.OverlappingResets | diary-app/components/LockScreen.jsx:13-29 | a second wrong PIN typed (after a delete) before the first reset fires gets a reset of its own; a digit typed between the two resets is cleared by the second |
| OnboardingFlow.SubmitBodyFields | diary-app/components/OnboardingFlow.jsx:27 | the posted body holds every answer as a string and `onboardingComplete: true` |
| OnboardingFlow.SubmitCompletesOnboarding | diary-app/components/OnboardingFlow.jsx:24-28 | once the store merges the posted body, `isOnboardingComplete` holds, whatever the stored profile was |
| OnboardingFlow.Flow.constructor | diary-app/components/OnboardingFlow.jsx:12-14 | step 1, the three answers empty, not loading |
| OnboardingFlow.Flow.Edit | diary-app/components/OnboardingFlow.jsx:96 | typing changes only the current step's answer |
| OnboardingFlow.Flow.Next | diary-app/components/OnboardingFlow.jsx:17-32 | ignored unless the trimmed answer is longer than five characters and nothing is loading; advances before the last step; at the last step posts every answer with the completion flag |
| OnboardingFlow.Flow.BeginSubmit | diary-app/components/OnboardingFlow.jsx:23-28 | loading is set and the body in flight is the answers with the completion flag |
| OnboardingFlow.Flow.SubmitSettles | diary-app/components/OnboardingFlow.jsx:24-30 | a settled write clears loading and calls `onComplete`; a rejected one leaves loading set |
| OnboardingFlow.Flow.Back | diary-app/components/OnboardingFlow.jsx:103-105 | goes back a step, and does nothing on the first step (no button) |
| OnboardingFlow.ShortAnswerBlocks | diary-app/components/OnboardingFlow.jsx:17-117 | pressing continue on an answer of at most five characters changes no state: the button stays disabled |
| OnboardingFlow.AnswerStep | diary-app/components/OnboardingFlow.jsx:17-21 | a long enough answer followed by continue stores it and advances one step |
| OnboardingFlow.AnswerAll | diary-app/components/OnboardingFlow.jsx:11-28 | three long enough answers, each followed by continue, post exactly those answers with the completion flag |
| Home.StateForProfile | diary-app/pages/index.js:195-197 | the lock screen exactly when `onboardingComplete` is truthy, onboarding otherwise |
| Home.StoreCompleteLocks | diary-app/pages/index.js:197 | a profile the store calls complete always shows the lock screen |
| Home.TruthyStringLocks | diary-app/pages/index.js:197 | the string `"false"` shows the lock screen although the store does not call the profile complete |
| Home.Page.constructor | diary-app/pages/index.js:185-188 | loading, empty profile, diary mode, no last entry |
| Home.Page.ProfileLoaded | diary-app/pages/index.js:193-199 | a fetched profile is kept and decides lock screen or onboarding; a failed fetch goes to onboarding |
| Home.Page.EntriesLoaded | diary-app/pages/index.js:202-208 | a non-empty list makes its last entry the last entry; otherwise nothing changes |
| Home.Page.Unlock | diary-app/pages/index.js:212 | unlocking shows the app |
| Home.Page.OnboardingFinished | diary-app/pages/index.js:214-218 | a re-read profile is kept and the app shown; a failed re-read changes nothing |
| Home.Page.EntrySaved | diary-app/pages/index.js:221-224 | a saved entry becomes the last entry and switches to the Rocco chat |
| Home.Page.NavClick | diary-app/pages/index.js:32-36 | the Rocco button does nothing without a saved entry; any other click switches mode |
| Home.StartReturningUser | diary-app/pages/index.js:191-212 | a returning user with a complete profile reaches the app through the lock screen, with the Rocco chat disabled until entries load |
| StreamlitApp.ReplyText | app.py:346-355 | the stored reply is the model's text, or the failure note quoting the raised error |
| StreamlitApp.ForModel | app.py:340-343 | the history keeps every message's content and order; `user` stays `user` and every other role becomes `model` |
| StreamlitApp.ForModelIdempotent | app.py:340-343 | mapping the roles twice is the same as mapping them once |
| StreamlitApp.SentRolesAreChatRoles | app.py:340-353 | a request's history carries only the roles `user` and `model` |
| StreamlitApp.BannerRangeIffEntries | app.py:383-388 | the banner says "no entries yet" exactly when there are no entries |
| StreamlitApp.Session.constructor | app.py:161-170 | a complete profile starts in journaling with consent given; otherwise onboarding without consent; step 0 and both chats empty |
| StreamlitApp.Session.GiveConsent | app.py:262-268 | consent is recorded in the session and stored as `consent = "true"` in the profile |
| StreamlitApp.Session.AnswerQuestion | app.py:283-303 | a blank answer changes nothing; otherwise the trimmed answer is stored under the question's key and the step advances |
| StreamlitApp.Session.FinishOnboarding | app.py:275-281 | after the last question the profile is marked complete, journaling starts and the chat is cleared |
| StreamlitApp.Session.ActivatePastSelf | app.py:202-209 | warns and stays in journaling exactly when there are no entries; otherwise enters past-self mode with an empty chat |
| StreamlitApp.Session.ReturnToJournal | app.py:211-214 | returns to journaling and keeps both chats |
| StreamlitApp.Session.SubmitEntry | app.py:308-372 | no key or a blank entry changes nothing; otherwise the request holds the stored profile, the summary and the last ten turns, the entry is saved with the reply or the failure note, its tags are saved, and the chat gains both messages |
| StreamlitApp.Session.SubmitPastSelf | app.py:377-443 | the banner is computed first; no key or a blank message changes nothing else; otherwise the request quotes the profile, the summary and the ordered entries, and the past-self chat gains both messages |
| StreamlitApp.Session.AppendPastSelf | app.py:441-442 | the past-self chat gains the message and then the reply |
| StreamlitApp.Session.PastSelfView | app.py:378-437 | the banner range and the request read from the current database |
| StreamlitApp.Session.JournalingRequest | app.py:336-353 | the request reads the stored profile, the summary and the chat |
| StreamlitApp.Session.SaveExchange | app.py:358-370 | the entry gets the next id, its extracted tags are saved under that id, and the chat gains both messages |
| GuidedJournal.FailureAsksOpenQuestion | NACHO/PRUEBA1/ia_recuerdos/app.py:90-95 | a raised call or an unparsable reply gives the fixed open question, which offers no options |
| GuidedJournal.ParsedQuestionKept | NACHO/PRUEBA1/ia_recuerdos/app.py:90-93 | a reply that parses after the fences are removed is asked as the model wrote it |
| GuidedJournal.RecollectionLinesShape | NACHO/PRUEBA1/ia_recuerdos/app.py:52-55 | no recollections give no lines; otherwise the text starts with `- [` and ends with a newline |
| GuidedJournal.LastLineEnds | NACHO/PRUEBA1/ia_recuerdos/app.py:55 | every recollection line ends with a newline |
| GuidedJournal.FirstLineStarts | NACHO/PRUEBA1/ia_recuerdos/app.py:53-55 | the first line starts with `- [`, the date's bracket |
| GuidedJournal.RecollectionsTextIffNone | NACHO/PRUEBA1/ia_recuerdos/app.py:52-57 | the "no recollections" text appears exactly when nothing was retrieved |
| GuidedJournal.FormatRecollections | NACHO/PRUEBA1/ia_recuerdos/app.py:50-57 | the loop builds the recollection text: one line per retrieved document, or the fixed text |
| GuidedJournal.Journal.constructor | NACHO/PRUEBA1/ia_recuerdos/app.py:248-255 | the saved profile and documents, no active day, and a round count of two or three |
| GuidedJournal.Journal.SaveProfile | NACHO/PRUEBA1/ia_recuerdos/app.py:227-238 | the identity is saved only with a name and an occupation; nothing else changes |
| GuidedJournal.Journal.Start | NACHO/PRUEBA1/ia_recuerdos/app.py:257-268 | an empty entry does nothing; otherwise the day summary is saved, the context holds the entry, the first question is drawn and the day starts at round 0; the feedback panel and the shown answer are untouched |
| GuidedJournal.Journal.Open | NACHO/PRUEBA1/ia_recuerdos/app.py:264-267 | the summary is saved, the context is the entry alone and the day is active with its first question; the feedback panel and the shown answer are untouched |
| GuidedJournal.Journal.Answer | NACHO/PRUEBA1/ia_recuerdos/app.py:276-294 | an empty answer does nothing; otherwise the question and answer are saved and join the context; the feedback is shown only when its call succeeds |
| GuidedJournal.Journal.Continue | NACHO/PRUEBA1/ia_recuerdos/app.py:299-308 | the round count goes up, a new question is drawn only while rounds remain, and the feedback is cleared |
| GuidedJournal.Journal.Close | NACHO/PRUEBA1/ia_recuerdos/app.py:313-317 | the day ends, the round count and context are reset; the saved documents, the question, the feedback panel and the shown answer stay |
| GuidedJournal.Journal.AskPast | NACHO/PRUEBA1/ia_recuerdos/app.py:46-67 | the message is shown at once; the prompt holds the profile line, the recollections and the message; the reply follows only when the call succeeds; the journaling tab's state, including the feedback panel, is untouched |

## Left out

- Gemini calls (`startChat`, `sendMessage`, `generateContent`): their replies and failures are parameters. Persona preambles and other fixed prose of the prompts are parameters too, so prompts are modelled by the blocks they contain, not character by character.
- `JSON.parse`, `JSON.stringify` and `json.loads`: parsing is a parameter that may fail. A stored document is missing, unparsable or parsed.
- File, SQLite and vector-store I/O: modelled as fields that the methods reassign. Write failures (`writeFileSync` or SQLite raising) are not modelled: every write succeeds.
- Clock and calendar (`Date.now()`, `toISOString`, `datetime.now()`, `getFullYear` in local time): timestamps, ids and years are inputs. A timestamp carries its local year, absent when it does not parse.
- `random.randint(2, 3)`: the drawn round count is a constructor parameter limited to 2..3.
- The `onVolver` callback that `pages/index.js` hands to both chats: `PastSelfMode` takes it but never calls it, so leaving a chat is only the nav bar (`Home.Page.NavClick`).
- React effect scheduling, `st.rerun`, spinners, toasts, progress bars, scrolling, focus, animations and styles: rendering only.
- Concurrency: `Promise.all` is modelled as "both succeed, else fail". Interleaving of requests and of concurrent writers (last write wins) is not modelled.
- Strings are sequences of Unicode scalar values. `trim`/`strip` remove only ASCII whitespace (space, tab, line feed, carriage return, vertical tab and form feed). The non-ASCII spaces that JavaScript and Python also strip are kept. JavaScript's UTF-16 lengths (`slice(0, 22)`, `substring(0, 10)`) are counted in characters, which differs only outside the basic multilingual plane.
- `SqlOrder`: rows with equal `created_at` keep insertion order. SQLite leaves that order unspecified.
- `JournalApi.HandleJournal`: a request without a body makes the handler throw on `req.body.apiKey` before any check. The model always has a body, with `content` possibly absent.
- `Home.Page.ProfileLoaded`: a profile document that is JSON `null` would make `prof.onboardingComplete` throw inside the promise. The store never returns `null`, so the profile is always an object here.
- `OnboardingFlow.Flow.SubmitSettles`: only a rejected `fetch` (a network failure) leaves `loading` set. HTTP error statuses still settle the request and complete onboarding, as in the code.
- `GuidedJournal.NextQuestion`: a reply that parses to JSON but not to an object with `tipo`, `pregunta` and `opciones` would make the page raise later. The model treats it as a parse failure, because the parse parameter returns a question or nothing.
- `GuidedJournal.Journal.AskPast`: the semantic `collection.query` is not modelled. The retrieved recollections are a parameter.
- The Streamlit sidebar's memory snapshot (`app.py:216-228`) iterates a Python `set`, whose order is unspecified. Only the past-self button rule of that sidebar is modelled.
- The fourth tab of the guided journal (a general Gemini assistant) is a plain model call with no state logic of its own.
- `NACHO/PRUEBA1/ia_recuerdos/memory_manager.py`, `MarginNote.jsx`, the i18n tables, `_app.js`, `tailwind.config.js`, the one-line routes `profile.js`, `entries.js` and `chat.js`, and the `scripts` directory are not part of this model. They are presentation, configuration, or thin delegation to the modelled store and handlers.
- Logging (`console.log`, `console.error`) and stack traces in error bodies.
- `MemoryStore.Store.GetKnowledgeSummary`: every tag type is treated as an ordinary key. A type that names a member every object inherits (`constructor`, `__proto__`, `toString`, `valueOf`, `hasOwnProperty` and the other `Object.prototype` members) finds that member in `grouped[tag.type]`, so `.add` throws a `TypeError`. The journal route builds the summary before its `try` (`diary-app/pages/api/journal.js:15`), so in the code one such stored tag makes every later journal request fail. The model does not capture this.
- `Knowledge.EntriesSummary`: the same inherited type names are treated as ordinary keys in the summary both routes quote; in the code they make the summary throw.
- `Sidebar.TagsByType`: the same inherited type names make `acc[t.type].includes` throw while the sidebar renders. The model treats them as ordinary keys.
- `Diary.Tag`: a tag is a pair of strings. In the web app a `null` tag item throws at `tag.type` when the summary is built, a tag without `type` is grouped under the key `undefined`, and non-string values are grouped as they are. None of this is modelled.
- `MemoriesDb.Database.SaveTags`: every item is taken to be a dictionary whose `type` and `value` are strings or missing. An item that is not a dictionary, or a `null` member (the columns are `NOT NULL`), makes the insert raise. The `with` block then rolls back all tags of that entry, and `app.py:365` swallows the error, so none of them is stored. The model always stores every row.
- `MemoriesDb.PySummaryMatchesWeb`: holds only when no tag type is an array index. A type such as `2020` is listed first by the web app and keeps its first-seen place in the Python dictionary (`MemoriesDb.IndexTypeOrderDiffers`).
- The web sidebar's past-self button (disabled without entries) and its other controls are rendering only.
