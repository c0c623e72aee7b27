# A verified model of the ai-project core

This project models, in Dafny, the deterministic core of the danhuaxiansheng/ai-project monorepo, a set of tools for writing fiction with AI help.

- **Python world generator.** This covers:
  - the seeded `WorldGenerator`, which draws nested world data from a random stream;
  - keyword and table helpers of `VirtualWorldGenerator`: theme ranking, timeline extraction, terrain detection and the novel description;
  - `FileStorage`'s world files and its project and global indexes.
- **tale-weaver writing app.** This covers:
  - the chapter list, including sorting, filtering, saving, dragging and deleting with renumbering;
  - the outline list, including tree building, cascading delete, saving, same-level and cross-level drags, and filtering;
  - chapter export;
  - collaboration sessions;
  - setting collaboration;
  - the toast manager;
  - the `localStorage` cache, with expiry;
  - the story reducer;
  - the character influence map, tag manager and relationship editor;
  - the error handler's retry and error normalisation.
- **Web app.** This covers the role manager and the chat manager.
- **Agent project.** This covers the chat store and the collaboration store.
- **Chat app.** This covers the in-memory task route.

Each source file becomes one Dafny module:
- Code that mutates objects becomes a `class` whose methods carry `modifies` clauses. These are:
  - `ToastManager`, `CacheService`, `RoleManager`, `ChatManager`, `ChatStore`, `TaskStore`, `SessionService` and `FileStorage`;
  - loops, which become `while` loops with invariants.
- Each such method is proved against a specification function.
- Code that only builds new values (reducers, `map`/`filter` chains, `switch` tables) becomes functions and lemmas.

Some things the source takes from the outside world become parameters, so every operation is deterministic:
- the clock (`Date.now()`, `datetime.now()`);
- fresh ids (`nanoid()`, `crypto.randomUUID()`);
- random draws, modelled as a stream;
- AI replies;
- whether the code runs on the client.

Databases, `localStorage`, the file system and the in-memory stores are maps or sequences held in fields.

Shared helpers are `Wrappers` (Option/Result), `Strings`, `Seqs` (a stable insertion sort `SortBy`, `Filter`, `Move`) and `Json`. `Characters` holds the character and relationship types used by three components. The repository's `types/character.ts` is not part of this model; these types follow its use in the components.

Where a specification of the system and the code differ, the model follows the code:
- `getRecentMessages(session, 0)` returns every message, because `slice(-0)` is `slice(0)`. It does not return none.
- `regenerateMessage` computes `version || 1`, so version 0 counts as 1.
- After a DELETE, the tasks route can hand out an id that is already in use. `TasksRoute.DeleteThenPostRepeatsId` shows this.
- `updateCollaboratorStatus` on an absent role creates an entry without a `roleId`. `CollaborationStore.UpdateAbsentUnfiled` shows this.

## Model

| member | source | states |
|---|---|---|
| WorldGen.Clamp | apps/generator/core/generator.py:25 | the effective complexity is always in [1,10]; values in range are kept, larger ones become 10 and smaller ones 1 |
| WorldGen.NewWorldGenerator | apps/generator/core/generator.py:9-30 | the generator keeps the seed, clamps the complexity, defaults focus areas to [] and params to {}, and draws from the seeded stream exactly when the seed is non-empty |
| WorldGen.RandInt | apps/generator/core/generator.py:74 | `randint(lo, hi)` yields a value in [lo, hi] and consumes one draw |
| WorldGen.Choice | apps/generator/core/generator.py:71-72 | `choice(xs)` yields a member of the table and consumes one draw |
| WorldGen.RandBelow | apps/generator/core/generator.py:71-74 | a draw below n is below n and advances the stream by one |
| WorldGen.Regions | apps/generator/core/generator.py:68-75 | the list comprehension yields one region per index, named "区域-1".. in order, with terrain and climate drawn from their tables, two draws each |
| WorldGen.NamedList | apps/generator/core/generator.py:86-98 | a named list has one entry per index, named "<prefix>-k" in order, each with a type from its table |
| WorldGen.Events | apps/generator/core/generator.py:108-115 | events are named "事件-k" in order, typed from the event table, with years in [-1000,1000] |
| WorldGen.GenerateGeography | apps/generator/core/generator.py:62-78 | the region count lies in [2, c+2], the names are "区域-1".."区域-n", and every terrain and climate is in its table |
| WorldGen.GenerateCulture | apps/generator/core/generator.py:80-101 | traditions number in [2, c+2] and languages in [1, c+1], both named in order and typed from their tables; customs are empty |
| WorldGen.GenerateHistory | apps/generator/core/generator.py:103-125 | events number in [3, c+5], with years in [-1000,1000]; the eras are the three fixed ones; the timeline is empty |
| WorldGen.FixedEras | apps/generator/core/generator.py:116-123 | there are exactly three eras |
| WorldGen.ErasContiguous | apps/generator/core/generator.py:116-123 | the eras run from -1000 to 500, each spans 500 years, and each ends where the next begins |
| WorldGen.GenerateReligion | apps/generator/core/generator.py:127-141 | beliefs number in [1, c+1] and are named and typed from the table; practices and deities are empty |
| WorldGen.GenerateCivilization | apps/generator/core/generator.py:143-164 | societies number in [2, c+2]; the tech level and political system come from their tables; advancements and organizations are empty |
| WorldGen.GenerateContent | apps/generator/core/generator.py:43-49 | all five sections hold their count bounds together, and the stream moves forward |
| WorldGen.Generate | apps/generator/core/generator.py:32-56 | the world keeps seed and complexity; `created_at` is the given time; `metadata.prompt` is present iff "prompt" is a parameter and then equals it; the content is drawn from the generator's stream; only the stream changes |
| WorldGen.SameSeedSameWorld | apps/generator/core/generator.py:30-50 | two generators with the same non-empty seed, complexity, focus areas and params produce the same content, and worlds that differ only in `created_at` |
| VirtualWorld.ScorePositive | apps/generator/virtual_world_generator.py:99-102 | a theme's score is positive iff one of the keywords is in its keyword list |
| VirtualWorld.ScoreThemes | apps/generator/virtual_world_generator.py:96-102 | the `defaultdict` loop leaves exactly the themes with a positive score, each once, each with the number of keywords in its list |
| VirtualWorld.CountKeyword | apps/generator/virtual_world_generator.py:100-102 | the inner loop over the themes adds one to every theme whose list holds the keyword and nothing else |
| VirtualWorld.Increment | apps/generator/virtual_world_generator.py:102 | `theme_scores[theme] += 1` adds one to that name's count, or appends it with count 1, and leaves the other counts unchanged |
| VirtualWorld.SortedScores | apps/generator/virtual_world_generator.py:105-109 | sorting by score in reverse keeps the same scores and puts them in non-increasing order |
| VirtualWorld.TopThree | apps/generator/virtual_world_generator.py:105-111 | keeping the first three with a positive score gives a ranked theme list |
| VirtualWorld.TopNames | apps/generator/virtual_world_generator.py:105-111 | the leading entries of the sorted scores name distinct themes of the table, each with its true, positive score |
| VirtualWorld.MissingScoresLower | apps/generator/virtual_world_generator.py:105-111 | a theme with a positive score that was cut is outscored or tied by each of three kept themes |
| VirtualWorld.RankThemes | apps/generator/virtual_world_generator.py:94-111 | over any theme table the result has at most 3 distinct themes, each with a positive score, in non-increasing score order; any positive-scoring theme left out means three were kept, each scoring at least as much |
| VirtualWorld.IdentifyThemes | apps/generator/virtual_world_generator.py:94-111 | `_identify_themes` over the fixed theme table is a ranked theme list as above |
| VirtualWorld.ProcessInput | apps/generator/virtual_world_generator.py:67-75 | the parsed input keeps the raw input and keywords, and its themes are ranked as above |
| VirtualWorld.FirstContained | apps/generator/virtual_world_generator.py:227-228 | the answer is the first word contained in the text, with no earlier word contained |
| VirtualWorld.FirstContainedFound | apps/generator/virtual_world_generator.py:227-234 | a word is found iff some word of the list occurs in the text |
| VirtualWorld.FindFirst | apps/generator/virtual_world_generator.py:227-234 | the `for ... break` loop stops at the first contained word |
| VirtualWorld.MatchingMember | apps/generator/virtual_world_generator.py:226-228 | the sentences that get an entry are exactly those that mention an indicator |
| VirtualWorld.Matching | apps/generator/virtual_world_generator.py:226-228 | every matching sentence mentions an indicator, and there are no more of them than sentences |
| VirtualWorld.TimelineForEvents | apps/generator/virtual_world_generator.py:230-231 | entry k's event is the k-th matching sentence stripped |
| VirtualWorld.TimelineForTimes | apps/generator/virtual_world_generator.py:224-234 | the first entry's time is the start; entry k's time is the indicator found in matching sentence k-1 |
| VirtualWorld.TimelineSentence | apps/generator/virtual_world_generator.py:227-234 | a sentence with an indicator appends (current time, stripped sentence) and moves the time to the first indicator in it; any other sentence changes nothing |
| VirtualWorld.TimelineForShape | apps/generator/virtual_world_generator.py:224-234 | entry k holds the k-th matching sentence stripped; the first time is the start, and each later time is the indicator of the previous matching sentence |
| VirtualWorld.BuildTimeline | apps/generator/virtual_world_generator.py:223-236 | the loop over the sentences builds the timeline of the matching sentences as above |
| VirtualWorld.CreateTimeline | apps/generator/virtual_world_generator.py:217-236 | `_create_timeline` splits on "。" and starts at "起初"; there is at most one entry per sentence, and each entry is timed by the previous match's indicator |
| VirtualWorld.TerrainStep | apps/generator/virtual_world_generator.py:249-256 | one pass of the outer loop appends the type with "包含<keyword>地形" for its first contained keyword, or nothing when none is contained |
| VirtualWorld.DetectTerrains | apps/generator/virtual_world_generator.py:248-258 | over any table, the found types are in table order, each at most once; a type is present iff one of its keywords occurs; each description names that type's first contained keyword |
| VirtualWorld.TerrainsDone | apps/generator/virtual_world_generator.py:248-258 | once every table row has been looked at, the loop's invariant is the terrain property above |
| VirtualWorld.IdentifyTerrainTypes | apps/generator/virtual_world_generator.py:238-258 | `_identify_terrain_types` over the fixed terrain table has those properties |
| VirtualWorld.GenerateNovelDescription | apps/generator/virtual_world_generator.py:175-191 | the description holds the origin, geography and development sections, in that order, joined by newlines |
| FileStorage.ProjectName | apps/generator/utils/file_storage.py:17 | a missing or empty project name becomes "default_project"; any other name is kept |
| FileStorage.WorldFileContent | apps/generator/utils/file_storage.py:27-39 | each of the five file names gets its document: the full data, the three sections, and the basic info with exactly id, seed, version, timestamp and project |
| FileStorage.WorldFiles | apps/generator/utils/file_storage.py:27-39 | exactly the five file names are written, each with its document |
| FileStorage.WrittenAll | apps/generator/utils/file_storage.py:42-47 | writing the files one by one yields all five files and one path per file name |
| FileStorage.FileStorage.WriteWorldFiles | apps/generator/utils/file_storage.py:42-47 | the loop adds the five world files to the world's directory and returns their paths; the indexes are unchanged |
| FileStorage.NewWorldEntry | apps/generator/utils/file_storage.py:65-72 | the entry takes its seed, path and creation time from the world; a missing name becomes "世界-<id>", a missing description "" and missing tags [] |
| FileStorage.FileStorage.UpdateProjectIndex | apps/generator/utils/file_storage.py:57-76 | the project index has `worlds[world_id]` overwritten and every other entry unchanged; nothing else changes |
| FileStorage.RegisterProject | apps/generator/utils/file_storage.py:85-90 | a project entry is created, with its time and no worlds, only when it is absent; every other project is unchanged |
| FileStorage.AddWorldRef | apps/generator/utils/file_storage.py:93-99 | a world ref is appended only when no equal ref is present |
| FileStorage.AddWorldRefDistinct | apps/generator/utils/file_storage.py:93-99 | adding a ref keeps the ref list free of duplicates |
| FileStorage.AddWorldRefIdempotent | apps/generator/utils/file_storage.py:93-99 | adding the same ref twice is adding it once |
| FileStorage.FileStorage.UpdateGlobalIndex | apps/generator/utils/file_storage.py:78-103 | the global index registers the project and adds the world ref to it; ref lists stay duplicate-free |
| FileStorage.LoadOrCreate | apps/generator/utils/file_storage.py:105-110 | a missing index file loads as an empty index; an existing one loads as stored |
| FileStorage.FileStorage.SaveWorldData | apps/generator/utils/file_storage.py:11-55 | a world missing a key the code reads (`id`, `seed`, `version`, `timestamp`, `data` and its three sections) fails before anything is written; otherwise the five files go under `<base>/<project>/worlds/<id>`, the saved paths are returned, and the project and global indexes are updated as above; ref lists stay duplicate-free |
| ChapterList.SortedChapters | tale-weaver/components/chapter/chapter-list.tsx:49-59 | the result is a permutation of the chapters, sorted by word count descending, by update time descending, or by order ascending, and stable |
| ChapterList.FilteredChapters | tale-weaver/components/chapter/chapter-list.tsx:61-68 | every chapter shown matches the query and the status filter, and none is added |
| ChapterList.FilteredMember | tale-weaver/components/chapter/chapter-list.tsx:61-68 | a chapter is kept iff the query occurs, ignoring case, in its title or content and its status matches or the filter is "all" |
| ChapterList.FilterNothing | tale-weaver/components/chapter/chapter-list.tsx:61-68 | an empty query with the "all" filter keeps every chapter |
| ChapterList.HandleSave | tale-weaver/components/chapter/chapter-list.tsx:80-85 | an edit replaces the chapters with that id and keeps the length; a new chapter is appended with the story id and order equal to the old length |
| ChapterList.ReplaceById | tale-weaver/components/chapter/chapter-list.tsx:82-83 | position by position, a chapter with the saved id becomes the saved chapter and every other chapter stays |
| ChapterList.ReplaceFound | tale-weaver/components/chapter/chapter-list.tsx:82-83 | after an edit the saved chapter is in the list, and every chapter with its id is it |
| ChapterList.ReplaceAbsent | tale-weaver/components/chapter/chapter-list.tsx:82-83 | editing a chapter whose id is absent changes nothing |
| ChapterList.Renumber | tale-weaver/components/chapter/chapter-list.tsx:106-109 | renumbering sets each chapter's order to its position and changes nothing else |
| ChapterList.RenumberSorted | tale-weaver/components/chapter/chapter-list.tsx:106-109 | renumbering keeps the id order, and the result is already sorted by order |
| ChapterList.RenumberIdempotent | tale-weaver/components/chapter/chapter-list.tsx:106-109 | renumbering twice is renumbering once |
| ChapterList.HandleDragEnd | tale-weaver/components/chapter/chapter-list.tsx:98-112 | no destination gives no update; otherwise the id sequence is the dragged item moved from source to destination, with orders 0..n-1 and the moved chapter at the destination |
| ChapterList.MoveIds | tale-weaver/components/chapter/chapter-list.tsx:101-109 | splicing then renumbering moves the ids exactly as the splice moves the chapters |
| ChapterList.DragInPlace | tale-weaver/components/chapter/chapter-list.tsx:98-112 | dropping an item where it was only renumbers |
| ChapterList.HandleDelete | tale-weaver/components/chapter/chapter-list.tsx:114-120 | after a delete no chapter has the id, and the orders are 0..n-1 |
| ChapterList.DeleteKeepsOthers | tale-weaver/components/chapter/chapter-list.tsx:116-119 | the remaining ids are exactly the other ids, in their old order |
| ChapterList.DeleteAbsent | tale-weaver/components/chapter/chapter-list.tsx:116-119 | deleting an absent id only renumbers |
| OutlineList.BuildOutlineTree | tale-weaver/components/chapter/outline-list.tsx:48-67 | the tree has a node, with empty children first, for every id; the roots are, in input order, the outlines whose parent is not in the list; each node's children are, in input order, the outlines whose parent it is |
| OutlineList.CopyOutlines | tale-weaver/components/chapter/outline-list.tsx:49-52 | the first loop maps every id to its last copy with no children and starts every child list empty |
| OutlineList.PushOutlines | tale-weaver/components/chapter/outline-list.tsx:54-64 | the second loop pushes each outline under its parent when the parent is in the map, and onto the roots otherwise |
| OutlineList.PlacedMember | tale-weaver/components/chapter/outline-list.tsx:54-64 | an id is listed under a slot iff an outline with that id belongs in that slot |
| OutlineList.PlacedOnce | tale-weaver/components/chapter/outline-list.tsx:54-64 | every outline is listed in its own slot, under its parent or at the root, and so is missing from any other slot |
| OutlineList.DescendantIds | tale-weaver/components/chapter/outline-list.tsx:70-78 | the descendant list starts with the outline's own id |
| OutlineList.DescendantsClosed | tale-weaver/components/chapter/outline-list.tsx:70-78 | the descendants of a child are descendants of the parent |
| OutlineList.FindById | tale-weaver/components/chapter/outline-list.tsx:80 | the lookup finds an outline with that id iff the id is present |
| OutlineList.HandleDelete | tale-weaver/components/chapter/outline-list.tsx:79-86 | an unknown id gives no update; otherwise the outline and every descendant reachable through `children` are removed |
| OutlineList.DeleteKeeps | tale-weaver/components/chapter/outline-list.tsx:82-85 | an outline remains iff it was there and is not a descendant of the deleted one |
| OutlineList.FlatDeleteKeepsChildren | tale-weaver/components/chapter/outline-list.tsx:69-86 | on a flat list whose outlines carry no `children`, exactly the outlines with that id are removed, and children linked by `parentId` stay |
| OutlineList.HandleSave | tale-weaver/components/chapter/outline-list.tsx:88-98 | an edit replaces by id; a new outline is appended with every field of the saved outline, except that its order is the old length and its parent is the form's parent id, or none when that is empty |
| OutlineList.ReplaceById | tale-weaver/components/chapter/outline-list.tsx:91-92 | position by position, an outline with the saved id becomes the saved outline and every other outline stays |
| OutlineList.SaveAbsent | tale-weaver/components/chapter/outline-list.tsx:91-92 | editing an outline whose id is absent changes nothing |
| OutlineList.FindIndex | tale-weaver/components/chapter/outline-list.tsx:148-152 | `findIndex` gives the first position with that id, or -1 iff none has it |
| OutlineList.Level | tale-weaver/components/chapter/outline-list.tsx:131-147 | the level holds only outlines of the dragged list: the roots for "root", otherwise the children of the named parent |
| OutlineList.FindIndexDistinct | tale-weaver/components/chapter/outline-list.tsx:148-152 | in a level of distinct ids, `findIndex` of the item at position j is j |
| OutlineList.MovedDistinct | tale-weaver/components/chapter/outline-list.tsx:134-137 | the splice keeps a level's ids distinct |
| OutlineList.HandleDragEnd | tale-weaver/components/chapter/outline-list.tsx:114-176 | no destination gives no update; a same-level drag reindexes that level by the moved order; a cross-level drag reparents the dragged item to the parent the target names, or to the root |
| OutlineList.Reindex | tale-weaver/components/chapter/outline-list.tsx:141-156 | same-level outlines get their position in the reordered level as order; the others are unchanged |
| OutlineList.SameLevelOnly | tale-weaver/components/chapter/outline-list.tsx:141-156 | a same-level drag changes only `order`, and only in items of that level |
| OutlineList.SameLevelOrders | tale-weaver/components/chapter/outline-list.tsx:129-160 | after a same-level drag every order in the level is in range, and the dragged item's order is the destination index |
| OutlineList.MoveOIds | tale-weaver/components/chapter/outline-list.tsx:134-137 | the splice moves the ids as it moves the outlines |
| OutlineList.Reparent | tale-weaver/components/chapter/outline-list.tsx:161-173 | only the dragged item gets the new parent id |
| OutlineList.CrossLevelOnly | tale-weaver/components/chapter/outline-list.tsx:161-173 | a cross-level drag changes only the dragged item's `parentId` |
| OutlineList.FilteredMember | tale-weaver/components/chapter/outline-list.tsx:179-184 | an outline is kept iff it matches the query, ignoring case, and the type filter |
| OutlineList.FilteredOutlines | tale-weaver/components/chapter/outline-list.tsx:179-184 | every outline shown matches the query and the type filter, and none is added |
| ChapterExport.ChapterText | tale-weaver/lib/chapter-export.ts:3-10 | markdown output is "# title\n\ncontent"; txt output is "title\n\ncontent" |
| ChapterExport.MimeType | tale-weaver/lib/chapter-export.ts:12 | the type is text/markdown iff the format is md; txt gives text/plain |
| ChapterExport.ExportChapter | tale-weaver/lib/chapter-export.ts:3-13 | the export carries the chapter's text and the format's MIME type |
| ChapterExport.ExportChapters | tale-weaver/lib/chapter-export.ts:15-30 | for input in any order, the content is the texts of a stable permutation of the chapters sorted by `order` ascending, joined by the format's separator; the MIME type is the format's; an empty list gives empty content |
| ChapterExport.ExportSortsFirst | tale-weaver/lib/chapter-export.ts:16 | sorting the chapters first gives the same export, so the sorted-input lemmas cover every input |
| ChapterExport.ExportOne | tale-weaver/lib/chapter-export.ts:15-30 | exporting one chapter as a list gives its single-chapter text |
| ChapterExport.ExportSnoc | tale-weaver/lib/chapter-export.ts:16-27 | chapters sorted by order are joined by the format's separator ("\n\n---\n\n" or "\n\n==========\n\n"), and a last chapter with the largest order comes last |
| Session.NewSession | tale-weaver/services/session.ts:53-64 | a new session has one participant per role, none with messages, status active, and both times now |
| Session.SessionService.CreateSession | tale-weaver/services/session.ts:47-69 | the created session is stored under its id |
| Session.FindParticipant | tale-weaver/services/session.ts:89-91 | `find` by role id gives the first participant with that role, or none |
| Session.SessionService.AddMessage | tale-weaver/services/session.ts:71-100 | "Session not found" and "Role not found in session" change nothing; when the session and a participant with that role exist the call succeeds, the message is appended only to the first such participant, and `updatedAt` is refreshed |
| Session.Review | tale-weaver/services/session.ts:166-172 | the loop keeps the number of participants |
| Session.ReviewChangesOne | tale-weaver/services/session.ts:166-172 | only the first participant holding a suggestion with that id is changed, and it is flagged; every other participant stays as it was |
| Session.FlagOnly | tale-weaver/services/session.ts:167-169 | flagging changes only the metadata of the first message with that id, setting `accepted` or `rejected` |
| Session.ReviewMiss | tale-weaver/services/session.ts:166-172 | when no participant holds such a suggestion, nothing changes |
| Session.ReviewAt | tale-weaver/services/session.ts:166-172 | the result is the participants with the first hit replaced by its flagged version |
| Session.ReviewParticipants | tale-weaver/services/session.ts:166-172 | the `for ... break` loop computes that review |
| Session.FindMessage | tale-weaver/services/session.ts:166-167 | the position found is the first message with that id, or the length when none has it |
| Session.Flag | tale-weaver/services/session.ts:167-169 | flagging keeps the participant's role and the number of its messages |
| Session.SessionService.AcceptSuggestion | tale-weaver/services/session.ts:161-176 | a missing session fails and changes nothing; otherwise the session's participants are reviewed with `accepted` |
| Session.SessionService.RejectSuggestion | tale-weaver/services/session.ts:178-193 | the same with `rejected` |
| Session.SessionService.ReviewSuggestion | tale-weaver/services/session.ts:161-193 | the shared body of accept and reject: a missing session gives "Session not found" and no change; otherwise only that session's participants are reviewed with the verdict |
| Session.SliceFromEnd | tale-weaver/services/session.ts:203 | `slice(-limit)` is a suffix: for a positive limit the last min(limit, n) items, for 0 all of them, for a negative limit all but that many from the front |
| Session.GetRecentMessages | tale-weaver/services/session.ts:195-204 | the result is the suffix of the session's messages sorted ascending by timestamp: the last min(limit, total) of them, all for limit 0; every message left out is no later than every message kept |
| Session.RecentShape | tale-weaver/services/session.ts:199-203 | the slice is the suffix of the sorted messages, has the right count, is a sub-multiset of all messages, and is in timestamp order |
| Session.RecentAreLatest | tale-weaver/services/session.ts:199-203 | every message the slice leaves out has a timestamp no later than any message it keeps |
| Session.SessionService.GetSession | tale-weaver/services/session.ts:206-212 | the session stored under the id, or "Session not found" iff there is none |
| Session.SessionService.ListSessions | tale-weaver/services/session.ts:214-218 | exactly the stored sessions of that story |
| Session.SessionService.UpdateSessionStatus | tale-weaver/services/session.ts:220-234 | a missing session fails and changes nothing; otherwise only that session's status and `updatedAt` change |
| SettingCollaboration.RolesFor | tale-weaver/services/setting-collaboration.ts:85-100 | the four setting types each give two distinct roles, any other type gives only the story builder, and the dialogue master joins only character settings |
| SettingCollaboration.Title | tale-weaver/services/setting-collaboration.ts:102-110 | a title exists exactly for the four setting types |
| SettingCollaboration.SessionTitle | tale-weaver/services/setting-collaboration.ts:42 | the session title starts with the type's title |
| SettingCollaboration.GenerateContextMessage | tale-weaver/services/setting-collaboration.ts:112-129 | the message is the type header, then the present sections in the order existing, current, requirements, then the request sentence |
| SettingCollaboration.AddSection | tale-weaver/services/setting-collaboration.ts:115-125 | each `if` appends its section only when the field is present |
| SettingCollaboration.ContextMessageShape | tale-weaver/services/setting-collaboration.ts:112-129 | the message starts with the header and ends with the fixed request sentence; with no fields it is just those two |
| SettingCollaboration.SectionPresent | tale-weaver/services/setting-collaboration.ts:115-125 | a present field's text appears in its section; an absent field adds nothing |
| SettingCollaboration.AcceptedOfMember | tale-weaver/services/setting-collaboration.ts:149-158 | the collected suggestions are exactly the accepted messages of that role |
| SettingCollaboration.AcceptedOf | tale-weaver/services/setting-collaboration.ts:149-158 | one role's accepted suggestions number at most its messages |
| SettingCollaboration.AcceptedSorted | tale-weaver/services/setting-collaboration.ts:160-162 | the accepted suggestions, sorted, are a permutation and in timestamp order |
| SettingCollaboration.ParagraphsJoin | tale-weaver/services/setting-collaboration.ts:163-167 | appending each content with "\n\n" is joining them by "\n\n" with one trailing "\n\n" |
| SettingCollaboration.ApplyAcceptedSuggestions | tale-weaver/services/setting-collaboration.ts:144-169 | the contents of the accepted suggestions, ordered by timestamp, joined by "\n\n" and trimmed |
| SettingCollaboration.OpenOfMember | tale-weaver/services/setting-collaboration.ts:211-222 | the latest suggestions are exactly the non-empty contents of suggestions neither accepted nor rejected |
| SettingCollaboration.OpenSuggestions | tale-weaver/services/setting-collaboration.ts:211-222 | no listed suggestion is empty |
| SettingCollaboration.AcceptedIsNotOpen | tale-weaver/services/setting-collaboration.ts:211-222 | an accepted suggestion is never listed as open |
| SettingCollaboration.GetLatestSuggestions | tale-weaver/services/setting-collaboration.ts:205-226 | a missing session fails; otherwise the session's open suggestions |
| SettingCollaboration.SettingStore.UpdateSetting | tale-weaver/services/setting-collaboration.ts:171-203 | a missing story fails and writes nothing; a world or character setting writes `<storyId>-world` or `<storyId>-character`; other types write nothing |
| Toasts.NewToast | tale-weaver/components/ui/use-toast.ts:93-100 | a new toast is open, has the given id and carries the props |
| Toasts.Merge | tale-weaver/components/ui/use-toast.ts:65 | every field present in the update wins, the others stay |
| Toasts.UpdateToasts | tale-weaver/components/ui/use-toast.ts:64-66 | the update merges only into toasts with that id |
| Toasts.UpdateWithSelf | tale-weaver/components/ui/use-toast.ts:61-69 | an update that repeats the toast changes nothing |
| Toasts.DismissToasts | tale-weaver/components/ui/use-toast.ts:74-76 | dismissing sets `open` to false only on toasts with that id |
| Toasts.DismissIdempotent | tale-weaver/components/ui/use-toast.ts:71-79 | dismissing twice is dismissing once |
| Toasts.RemoveToasts | tale-weaver/components/ui/use-toast.ts:84 | the delayed removal keeps exactly the toasts with another id |
| Toasts.Broadcast | tale-weaver/components/ui/use-toast.ts:39-41 | notifying hands the toasts to each listener in subscription order |
| Toasts.Deliver | tale-weaver/components/ui/use-toast.ts:39-41 | the `forEach` loop appends exactly that broadcast |
| Toasts.RemoveFirst | tale-weaver/components/ui/use-toast.ts:46-49 | splicing at `indexOf` removes one entry when the listener is present and nothing otherwise |
| Toasts.FirstIndex | tale-weaver/components/ui/use-toast.ts:46 | `indexOf` of a present listener is the position of its first copy |
| Toasts.RemoveFirstCount | tale-weaver/components/ui/use-toast.ts:45-50 | unsubscribing takes out one copy of that listener and leaves the others |
| Toasts.UnsubscribeTwice | tale-weaver/components/ui/use-toast.ts:45-50 | for a listener subscribed once, a repeated unsubscribe does nothing |
| Toasts.ToastManager.Notify | tale-weaver/components/ui/use-toast.ts:39-41 | every listener is called with the current state; nothing else changes |
| Toasts.ToastManager.constructor | tale-weaver/components/ui/use-toast.ts:24-28 | a manager starts with no listeners, no toasts, and count 0 |
| Toasts.ToastManager.Subscribe | tale-weaver/components/ui/use-toast.ts:43-44 | the listener is appended |
| Toasts.ToastManager.Unsubscribe | tale-weaver/components/ui/use-toast.ts:45-50 | the first copy of the listener is removed |
| Toasts.ToastManager.GenId | tale-weaver/components/ui/use-toast.ts:53-56 | the counter goes up by one and the id is its decimal text, so it differs from every earlier id |
| Toasts.ToastManager.Toast | tale-weaver/components/ui/use-toast.ts:58-111 | the new open toast is prepended and the list is cut to TOAST_LIMIT = 1, so only it is held; the listeners are then notified |
| Toasts.ToastManager.Update | tale-weaver/components/ui/use-toast.ts:61-69 | the update merges into the toasts with that id, followed by a notification |
| Toasts.ToastManager.Dismiss | tale-weaver/components/ui/use-toast.ts:71-79 | the toasts with that id are closed, followed by a notification |
| Toasts.ToastManager.RemoveToast | tale-weaver/components/ui/use-toast.ts:81-87 | when the timer fires, the toasts with that id are removed, followed by a notification |
| Toasts.ToastManager.OnOpenChange | tale-weaver/components/ui/use-toast.ts:97-99 | closing dismisses the toast; opening does nothing |
| Cache.Lookup | tale-weaver/lib/cache.ts:22-35 | the result is null for an absent key or an entry older than CACHE_EXPIRY; otherwise it is the stored data |
| Cache.SetThenGet | tale-weaver/lib/cache.ts:22-44 | a set value is read back until it expires and is gone afterwards |
| Cache.CacheService.GetCache | tale-weaver/lib/cache.ts:22-35 | off the client the result is null; an expired entry is removed as it is read; nothing else changes |
| Cache.CacheService.constructor | tale-weaver/lib/cache.ts:19 | the service takes whether it runs on the client, and the storage it sees |
| Cache.CacheService.SetCache | tale-weaver/lib/cache.ts:37-44 | on the client the value is stored with the current time; off the client nothing happens |
| Cache.CacheService.GetCachedStories | tale-weaver/lib/cache.ts:47-49 | the live cached story list, or [] |
| Cache.CacheService.GetCachedSessions | tale-weaver/lib/cache.ts:71-73 | the live cached session list, or [] |
| Cache.Upsert | tale-weaver/lib/cache.ts:51-62 | the item ends up in the list, and the count grows by at most one |
| Cache.FindIndex | tale-weaver/lib/cache.ts:53 | `findIndex` gives the first position with that id, or -1 |
| Cache.UpsertByIndex | tale-weaver/lib/cache.ts:53-59 | replacing at the found index or pushing is the upsert |
| Cache.UpsertReplaces | tale-weaver/lib/cache.ts:55-56 | with that id present, the first such item is replaced in place |
| Cache.UpsertAppends | tale-weaver/lib/cache.ts:57-58 | with that id absent, the item is appended |
| Cache.UpsertIdempotent | tale-weaver/lib/cache.ts:51-62 | upserting twice is upserting once |
| Cache.CacheService.CacheStory | tale-weaver/lib/cache.ts:51-62 | the story list is written back, now, with the story upserted by id |
| Cache.RemoveStoryKeeps | tale-weaver/lib/cache.ts:66 | exactly the stories with another id remain |
| Cache.CacheService.RemoveStoryFromCache | tale-weaver/lib/cache.ts:64-68 | the story list is written back without that id, in order |
| Cache.CacheService.CacheSession | tale-weaver/lib/cache.ts:75-86 | the session list is written back with the session upserted by id |
| Cache.Cleared | tale-weaver/lib/cache.ts:88-96 | exactly the keys without the prefix "tale-weaver:" remain, with their entries |
| Cache.ClearPrefixed | tale-weaver/lib/cache.ts:91-95 | the loop over the keys removes exactly the prefixed ones |
| Cache.ClearKeepsMessages | tale-weaver/lib/cache.ts:5-9 | the story and session lists are cleared, but "tale-weaver-messages" survives |
| Cache.CacheService.ClearCache | tale-weaver/lib/cache.ts:88-96 | on the client, the prefixed keys are removed |
| StoryContext.Reduce | tale-weaver/contexts/story-context.tsx:36-55 | SET_ROLE changes only the role; ADD_MESSAGE appends the payload and saves the list; SET_LOADING changes only the flag; LOAD_MESSAGES replaces the messages; CLEAR_MESSAGES empties them and removes the saved list; an unknown action changes nothing |
| StoryContext.ReduceKeepsSync | tale-weaver/contexts/story-context.tsx:40-51 | each action other than a load keeps the saved list equal to the messages |
| StoryContext.RunKeepsSync | tale-weaver/contexts/story-context.tsx:36-55 | a run of such actions keeps the saved list in step with the messages |
| StoryContext.StartupSynced | tale-weaver/contexts/story-context.tsx:60-69 | loading the saved list at start-up leaves state and storage in step |
| StoryContext.AddsAppend | tale-weaver/contexts/story-context.tsx:40-44 | a run of ADD_MESSAGE actions appends their payloads in order |
| Characters.FindTo | tale-weaver/components/character/character-influence-map.tsx:31-32 | `find` by target id gives the first relationship to that character, or none iff there is none |
| InfluenceMap.ScoreTarget | tale-weaver/components/character/character-influence-map.tsx:24-76 | the step-by-step score is 2·strength + the type bonus + 2 for a mutual relationship, with the matching reasons |
| InfluenceMap.Classify | tale-weaver/components/character/character-influence-map.tsx:64-69 | positive iff score > 5, negative iff score < -2, neutral otherwise |
| InfluenceMap.Influences | tale-weaver/components/character/character-influence-map.tsx:24 | one entry per character, in input order |
| InfluenceMap.CalculateInfluenceScores | tale-weaver/components/character/character-influence-map.tsx:23-78 | the entries are sorted by size of score, descending and stable |
| InfluenceMap.ScoresSorted | tale-weaver/components/character/character-influence-map.tsx:77 | the sorted list is a permutation of the entries with non-increasing sizes of score |
| InfluenceMap.NoRelationshipNeutral | tale-weaver/components/character/character-influence-map.tsx:30-34 | a target without a relationship scores 0, is neutral and has no reason |
| InfluenceMap.NoNegativeInfluence | tale-weaver/components/character/character-influence-map.tsx:35-69 | with every strength at least 1 no score is negative, so no entry is classed negative |
| InfluenceMap.KeyCount | tale-weaver/components/character/character-influence-map.tsx:95 | the key-influence count is at most the number of entries |
| InfluenceMap.KeyCountOfSorted | tale-weaver/components/character/character-influence-map.tsx:77-95 | sorting does not change the number of entries with size of score above 5 |
| TagManager.AddTag | tale-weaver/components/character/character-tag-manager.tsx:43-54 | an empty or existing tag leaves the tags alone; a new tag is appended, and added to the suggestions when it is new there and a callback exists; the input is cleared either way |
| TagManager.AddTagDistinct | tale-weaver/components/character/character-tag-manager.tsx:44-46 | adding keeps the tags duplicate-free |
| TagManager.RemoveTagMember | tale-weaver/components/character/character-tag-manager.tsx:56-58 | removing drops every copy of the tag and keeps the others |
| TagManager.RemoveAbsentTag | tale-weaver/components/character/character-tag-manager.tsx:56-58 | removing an absent tag changes nothing |
| TagManager.AddThenRemove | tale-weaver/components/character/character-tag-manager.tsx:43-58 | removing a newly added tag restores the tags |
| TagManager.FilteredTagsMember | tale-weaver/components/character/character-tag-manager.tsx:34-36 | a tag is shown iff it contains the query, ignoring case |
| TagManager.FilteredSuggestionsMember | tale-weaver/components/character/character-tag-manager.tsx:38-41 | a suggestion is shown iff it contains the query, ignoring case, and is not already a tag |
| TagManager.EmptyQueryShowsAll | tale-weaver/components/character/character-tag-manager.tsx:34-36 | an empty query shows every tag |
| RelationshipEditor.AddRelationship | tale-weaver/components/character/character-relationship-editor.tsx:33-44 | appends the default relationship {"", friend, "", 3, false} |
| RelationshipEditor.RemoveRelationshipAt | tale-weaver/components/character/character-relationship-editor.tsx:46-48 | removes only the entry at the index; an index out of range changes nothing |
| RelationshipEditor.UpdateRelationship | tale-weaver/components/character/character-relationship-editor.tsx:50-56 | merges only into the entry at the index and keeps the length |
| RelationshipEditor.EmptyUpdate | tale-weaver/components/character/character-relationship-editor.tsx:50-56 | an empty update changes nothing |
| RelationshipEditor.AvailableMember | tale-weaver/components/character/character-relationship-editor.tsx:58-60 | a character is available iff it is not the edited one and no relationship targets it |
| RelationshipEditor.AddDisabled | tale-weaver/components/character/character-relationship-editor.tsx:58-70 | adding is disabled iff no character is available |
| RoleManager.DefaultRoles | apps/web/src/lib/roles/roleManager.ts:11-33 | two roles are registered, product manager and world builder, each under its own id |
| RoleManager.RoleManager.constructor | apps/web/src/lib/roles/roleManager.ts:4-9 | two roles are registered and none is active |
| RoleManager.AddToSet | apps/web/src/lib/roles/roleManager.ts:37 | `Set.add` keeps the members and adds the id, staying duplicate-free |
| RoleManager.AddToSetIdempotent | apps/web/src/lib/roles/roleManager.ts:37 | activating twice is activating once |
| RoleManager.RoleManager.ActivateRole | apps/web/src/lib/roles/roleManager.ts:35-39 | an unknown id gives false and changes nothing; otherwise the result is true and the id is active |
| RoleManager.RoleManager.DeactivateRole | apps/web/src/lib/roles/roleManager.ts:41-43 | the result says whether the id was active; afterwards it is not, and the others keep their order |
| RoleManager.RoleManager.GetActiveRoles | apps/web/src/lib/roles/roleManager.ts:45-49 | the active roles as a permutation, sorted by priority ascending |
| RoleManager.RoleManager.ActiveRolesOnce | apps/web/src/lib/roles/roleManager.ts:45-49 | each active role is listed, and no role twice |
| ChatManager.RoleFor | apps/web/src/lib/chat/chatManager.ts:94-110 | there is no role iff no table row has a keyword in the suggestion |
| ChatManager.RoleForFirst | apps/web/src/lib/chat/chatManager.ts:104-107 | the role is that of the first row, in table order, with a keyword in the suggestion |
| ChatManager.RoleForIn | apps/web/src/lib/chat/chatManager.ts:96-102 | every answer is one of the table's role ids |
| ChatManager.HasKeyword | apps/web/src/lib/chat/chatManager.ts:105 | `some` is true iff a keyword occurs in the suggestion |
| ChatManager.MapSuggestionToRole | apps/web/src/lib/chat/chatManager.ts:94-110 | the loop returns at the first matching row, or null |
| ChatManager.LastFive | apps/web/src/lib/chat/chatManager.ts:84 | `slice(-5)` gives the last five messages, or all of them when there are fewer |
| ChatManager.ChatManager.GetContextMessages | apps/web/src/lib/chat/chatManager.ts:83-87 | the last at most five messages, as "[roleId]: content" in order |
| ChatManager.ChatManager.constructor | apps/web/src/lib/chat/chatManager.ts:7-17 | a chat manager starts with no messages, holding the given role manager |
| ChatManager.ChatManager.AddMessage | apps/web/src/lib/chat/chatManager.ts:89-92 | the message is appended and emitted |
| ChatManager.Present | apps/web/src/lib/chat/chatManager.ts:56-58 | the nulls are dropped and every role id is kept |
| ChatManager.MapAll | apps/web/src/lib/chat/chatManager.ts:56-58 | each suggestion is mapped to the role of its first matching table row |
| ChatManager.ActivateAllMember | apps/web/src/lib/chat/chatManager.ts:60 | after activation an id is active iff it was, or it was asked for and is registered |
| ChatManager.ChatManager.ActivateRelevantRoles | apps/web/src/lib/chat/chatManager.ts:54-61 | each non-null mapped role is activated in turn; the registered roles are unchanged |
| ChatManager.ActivatesMapped | apps/web/src/lib/chat/chatManager.ts:54-61 | a newly activated role is registered and named in the table |
| ChatManager.OnlyWorldBuilderActivates | apps/web/src/lib/chat/chatManager.ts:54-61 | with the default roles, only the world builder can be activated by suggestions |
| ChatManager.NotProductManager | apps/web/src/lib/chat/chatManager.ts:96-102 | the table never names the product manager |
| ChatStore.WithDefaults | agent-project/store/chat-store.ts:17-23 | the defaults are a fresh id, the current time, "success" and version 1; the caller's fields override them |
| ChatStore.ChatStore.AddMessage | agent-project/store/chat-store.ts:15-27 | the completed message is appended and the list is saved; nothing else changes |
| ChatStore.ChatStore.constructor | agent-project/store/chat-store.ts:7-11 | a store starts with no messages, no role, not loading and no error |
| ChatStore.UpdateMessages | agent-project/store/chat-store.ts:31-33 | the update merges only into the messages with that id, and the length is unchanged |
| ChatStore.UpdateKeepsOthers | agent-project/store/chat-store.ts:31-33 | a message with another id is unchanged |
| ChatStore.ChatStore.UpdateMessage | agent-project/store/chat-store.ts:29-36 | the messages are updated and saved |
| ChatStore.FirstWithId | agent-project/store/chat-store.ts:40 | `find` gives the first message with that id, or none |
| ChatStore.NearestUserBefore | agent-project/store/chat-store.ts:44-47 | the nearest user message before the index, or none iff there is none |
| ChatStore.Regenerated | agent-project/store/chat-store.ts:59-64 | the regenerated message has the new content and time, version (old or 1) + 1, and every other field kept |
| ChatStore.RegeneratedVersion | agent-project/store/chat-store.ts:63 | a missing version, or version 0, becomes 2; any other becomes one higher |
| ChatStore.MergeReplacing | agent-project/store/chat-store.ts:59-65 | an update with every field set replaces the message outright |
| ChatStore.ChatStore.RegenerateMessage | agent-project/store/chat-store.ts:38-73 | an unknown id or no earlier user message does nothing; otherwise the nearest earlier user message is sent, a successful non-empty reply replaces the message, a thrown error sets the error, and loading ends false |
| ChatStore.ChatStore.ApplyReply | agent-project/store/chat-store.ts:58-69 | a success with content updates the message; a throw records "重新生成失败"; any other reply changes nothing |
| ChatStore.ChatStore.ClearMessages | agent-project/store/chat-store.ts:75-79 | the messages and the saved list are empty |
| ChatStore.ChatStore.LoadMessages | agent-project/store/chat-store.ts:81-84 | the saved list becomes the messages |
| ChatStore.ChatStore.SetCurrentRole | agent-project/store/chat-store.ts:13 | only the current role changes |
| ChatStore.ChatStore.SetLoading | agent-project/store/chat-store.ts:86 | only the loading flag changes |
| ChatStore.ChatStore.SetError | agent-project/store/chat-store.ts:87 | only the error changes |
| CollaborationStore.AddCollaborator | agent-project/store/collaboration-store.ts:22-32 | the entry for the role is set or overwritten with the status and time; the others are unchanged |
| CollaborationStore.RemoveCollaborator | agent-project/store/collaboration-store.ts:33-37 | only that key is removed |
| CollaborationStore.UpdateCollaboratorStatus | agent-project/store/collaboration-store.ts:38-48 | the entry keeps its role id and gets the status and time; an absent role gets an entry without a role id; the others are unchanged |
| CollaborationStore.FiledPreserved | agent-project/store/collaboration-store.ts:22-48 | add, remove, and an update of a present role keep every entry under its own role id |
| CollaborationStore.UpdateAbsentUnfiled | agent-project/store/collaboration-store.ts:40-46 | updating an absent role breaks that invariant |
| CollaborationStore.AddThenRemove | agent-project/store/collaboration-store.ts:22-37 | removing after adding drops the role again |
| TasksRoute.TaskStore.GetTasks | apps/chat/app/api/control/tasks/route.ts:5-8 | all tasks, in order, with status 200 |
| TasksRoute.TaskStore.constructor | apps/chat/app/api/control/tasks/route.ts:3 | the list of tasks starts empty |
| TasksRoute.AsJson | apps/chat/app/api/control/tasks/route.ts:7 | the response array holds each task, as an object, in order |
| TasksRoute.NewTask | apps/chat/app/api/control/tasks/route.ts:13 | the new task has id length + 1 unless the body gives one, and carries every body field |
| TasksRoute.TaskStore.Post | apps/chat/app/api/control/tasks/route.ts:10-16 | the new task is appended and returned with status 201 |
| TasksRoute.PostKeepsNumbered | apps/chat/app/api/control/tasks/route.ts:13-14 | without deletes or body ids, task i has id i + 1 |
| TasksRoute.NumberedDistinct | apps/chat/app/api/control/tasks/route.ts:13-14 | numbered tasks have distinct ids |
| TasksRoute.DeleteThenPostRepeatsId | apps/chat/app/api/control/tasks/route.ts:13-32 | two POSTs, a DELETE of id 1 and another POST leave two tasks with id 2 |
| TasksRoute.FindTask | apps/chat/app/api/control/tasks/route.ts:21 | `findIndex` with `===` gives the first task whose id is identical, or -1 |
| TasksRoute.TaskStore.Put | apps/chat/app/api/control/tasks/route.ts:18-27 | an unknown id gives 404 and no change; otherwise the other fields are merged into the first task with that id, which is returned |
| TasksRoute.PutOnlyFound | apps/chat/app/api/control/tasks/route.ts:20-25 | a PUT changes only the found task, keeps its id and the length, and sets the given fields |
| TasksRoute.DeletedMember | apps/chat/app/api/control/tasks/route.ts:32 | exactly the tasks with another id remain |
| TasksRoute.TaskStore.Delete | apps/chat/app/api/control/tasks/route.ts:29-34 | every task with that id is removed, and the rest keep their order |
| ErrorHandler.WithRetry | tale-weaver/lib/error-handler.ts:24-36 | at most retries + 1 calls; every call before the last failed; the result is the last call's; a failure means every retry was used |
| ErrorHandler.RetryFirstSuccess | tale-weaver/lib/error-handler.ts:29-34 | the result is the first success among the allowed calls |
| ErrorHandler.RetryAllFail | tale-weaver/lib/error-handler.ts:31-32 | when all calls fail, there are retries + 1 calls and the last error is rethrown |
| ErrorHandler.RetryDelays | tale-weaver/lib/error-handler.ts:33-34 | the i-th wait is the initial delay doubled i times |
| ErrorHandler.WithDefaultRetry | tale-weaver/lib/error-handler.ts:24-36 | with the default `retries = 3` and `delay = 1000`, at most four calls are made, a failure means four, and the waits are 1000, 2000 and 4000 ms, one per retry |
| ErrorHandler.DefaultDelays | tale-weaver/lib/error-handler.ts:26-34 | with the defaults, the waits are a prefix of 1000, 2000, 4000 ms, as long as the number of retries made |
| ErrorHandler.Pow2 | tale-weaver/lib/error-handler.ts:33-34 | the backoff factor `2 ** i` is at least 1 |
| ErrorHandler.HandleError | tale-weaver/lib/error-handler.ts:42-52 | an AppError passes through; an Error keeps its message with code UNKNOWN_ERROR; anything else gets the fixed message |
| ErrorHandler.HandleErrorIdempotent | tale-weaver/lib/error-handler.ts:42-45 | normalising twice is normalising once |
| ErrorHandler.WithErrorHandling | tale-weaver/lib/error-handler.ts:54-69 | fn's value, or its error normalised |

## Left out

- Randomness: `random.Random` is a stream of abstract draws, and each `choice` or `randint` uses one draw. CPython's Mersenne Twister is not modelled.
- WorldGen.RandBelow: draws reduce `% n`. CPython's `_randbelow` rejection sampling is not modelled, so the contract states only the range and that one draw is used.
- `datetime.now()`, `Date.now()`, `nanoid()` and `crypto.randomUUID()` are parameters. A method that reads the clock twice gets one value per reading it depends on.
- Session.SessionService.CreateSession: requires an id not yet stored. `crypto.randomUUID()` is assumed fresh.
- LLM and AI calls are not modelled:
  - `generate_world_structure`;
  - the `_generate_*` methods that call the NLP model;
  - `generateAIResponse` and `generateInitialSuggestions`;
  - the ChatManager's `processUserInput`, `generatePMResponse` and `collectRoleFeedback`, which go through the AI service;
  - `startSettingSession`, which composes the modelled `RolesFor`, `SessionTitle`, `CreateSession` and `GenerateContextMessage` with an AI call;
  - `APIService.chatWithAI`, which is a `Reply` parameter.
- jieba, `_extract_keywords` and `np.random` in the virtual world generator: the keywords are a parameter of `ProcessInput`.
- `save_output`, `json.dump` and `open`, `os.makedirs`, `os.path.abspath` and `os.path.exists`: the file system is a map from paths to documents.
- `db.sessions` and the stories table are maps. Dexie's asynchrony is not modelled, and `db.sessions.add` is a map update.
- `StorageService` (the chat store's message cache) is a field holding the last saved list.
- The `AI_ROLES` table of `@/config/ai`: its three roles are named by a datatype.
- `types/character.ts`, `types/role.ts`, `types/message.ts` and `types/story.ts` are not part of this model. Their shapes follow their use in the code.
- Singletons (`getInstance`), React hooks (`useToast`, `useStory`, `useState`) and rendering are not modelled.
- Toasts.ToastManager.GenId: the `% Number.MAX_VALUE` of `genId` is left out. That floating-point bound is never reached by a counter that goes up by one.
- The `setTimeout` delays of `dismiss` and `withRetry` are not modelled. The delayed removal is a separate method, `RemoveToast`, and retry waits are a recorded list of delays.
- Listeners are named by numbers, so `indexOf` compares them as values. The source compares function identity.
- Toasts.Merge: a key present with the value `undefined` is treated as absent. The patch datatype cannot express an explicit `undefined`.
- RelationshipEditor.UpdateRelationship: the same applies. A field given as an explicit `undefined` is treated as absent, so it keeps the old value.
- ChatStore.ChatStore.AddMessage: the same applies, so a caller cannot pass an explicit `undefined` to override a default.
- InfluenceMap.ScoreTarget: strengths are integers, so `Math.round` is the identity.
- The average influence is floating point and is not modelled. Only the key-influence count is.
- Strings.Lower: `toLowerCase` is modelled for ASCII letters only. This affects the case-insensitive filters ChapterList.FilteredMember, OutlineList.FilteredMember, TagManager.FilteredTagsMember and TagManager.FilteredSuggestionsMember.
- VirtualWorld.RankThemes: the ranking contract does not state how ties are ordered. The code keeps first-hit order through the stable sort.
- VirtualWorld.ScoreThemes: the contract does not state the insertion order of the score dict, only its entries and their scores.
- OutlineList.BuildOutlineTree: the tree is adjacency maps, with the nodes and the per-id child lists. The source shares the node objects, and that aliasing is not modelled.
- Cache: an entry holds a story list, a session list or any other JSON value. A cached value of another shape, read as a list, is treated as no list.
- `getRoleById`, which `generatePMResponse` calls, is not in the shown `RoleManager`.
- ErrorHandler.WithRetry: `retries` is a natural number. A negative count, which never reaches 0 in the source, is not modelled.
- TasksRoute: request bodies are JSON objects. A non-object body is not modelled.
- Session.SessionService.ListSessions: the result is a set. Dexie's result order is not modelled.
- Errors thrown inside `withErrorHandling` are results. `console.error` logging is not modelled.
