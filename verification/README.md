# KnouledgeVue tag components, modelled in Dafny

KnouledgeVue is a small knowledge-base editor written with Vue on top of a Supabase store: items
have a title, a text and up to five tags; tags have a name and a level. This project models the
three parts of it that hold logic of their own:

- **The cascading tag selector of the add-item tab** (`js/AddItemTab.js`). Five `<select>`s write into
  the array `selectedTags`; `visibleTagCount` says how many are rendered. `onTagChange(index)` either
  truncates (a falsy value in slots 0..3 empties every later slot and shows `index + 1` selects) or hands
  over to `onTagSelect(index)`, which reveals one more select when a truthy value lands in the last
  visible one. Module `AddItemTab`: the value-level transition functions, the lemmas about them, and the
  class `TagSelector`, which updates a five-element array in place with the same `for` loop.
- **The tag-management form** (`js/TagManageTab.js`). `selectTag`, `clearForm` and the three handlers
  `handleAdd`, `handleUpdate`, `handleDelete`, each of which validates the form, sets `saving`, calls the
  store, then either clears the form and reloads the list or records the error, and resets `saving`.
  Module `TagManageTab`: transition functions over the whole reactive state, lemmas about guards and
  outcomes, an invariant kept by every sequence of user actions, and the class `TagManager` whose methods
  assign the fields as the component does. Store calls are represented by their outcomes
  (`Result<(), StoreError>`, `Result<seq<TagRow>, StoreError>`), the `confirm` dialog by a boolean.
- **The data shaping of the store client** (`js/SupabaseClient.js`). The link records `addTagLinks`
  builds, the trimmed fields `addItem` inserts, the flattening of joined rows in `getItemTags`, and the
  `if (error) throw error` step after every query. Module `SupabaseClient`.

Module `Js` holds the JavaScript semantics these rely on: truthiness of a select value (the empty string
`''` and the number `0` are falsy, modelled as `IdValue` = `Blank` | `Id(int)`), and
`String.prototype.trim` with the white-space set of the ECMAScript language specification (the
WhiteSpace and LineTerminator productions). Module `Wrappers` holds `Option` and `Result`.

Main results:
- `AddItemTab.ReplayKeepsInv`: for every series of picks made in rendered selects, `visibleTagCount`
  stays in [1, 5] and every slot that is not rendered stays `''`.
- `TagManageTab.RunKeepsConsistent`: for every sequence of user actions and store answers, `saving` is
  false between handler runs and edit mode, `selectedTagId` and `formTagId` agree.
- `SupabaseClient.TagLinksRoundTrip`: the link payload carries the input tag ids in order, duplicates kept.

## Model

| member | source | states |
|---|---|---|
| `Js.TrimStart` | js/SupabaseClient.js:58-59 | the result is a suffix of the input, everything dropped is white space, and it does not start with white space |
| `Js.TrimEnd` | js/SupabaseClient.js:58-59 | the result is a prefix of the input, everything dropped is white space, and it does not end with white space |
| `Js.Trim` | js/SupabaseClient.js:58-59 | `trim()` never lengthens a string and leaves no white space at either end |
| `Js.TrimIsInfix` | js/SupabaseClient.js:58-59 | `trim()` returns the infix of the input between its leading and trailing white space |
| `Js.TrimOfTrimmed` | js/SupabaseClient.js:58-59 | a string with no white space at either end is its own trim |
| `Js.TrimIdempotent` | js/SupabaseClient.js:58-59 | trimming twice is trimming once |
| `Js.BlankIffAllWhiteSpace` | js/TagManageTab.js:53 | `!s.trim()` holds exactly when `s` is empty or white space only |
| `SupabaseClient.TagLinks` | js/SupabaseClient.js:70-73 | one link record per input tag id: same length, record i has `tag_id = tagIds[i]`, every record has `item_id = itemId` |
| `SupabaseClient.TagLinksRoundTrip` | js/SupabaseClient.js:70-73 | projecting the tag ids out of the payload gives back the input list, order preserved |
| `SupabaseClient.TagLinksKeepDuplicates` | js/SupabaseClient.js:70-73 | a tag id occurring n times in the input gives n identical link records |
| `SupabaseClient.NewItem` | js/SupabaseClient.js:57-60 | the inserted title and text are the trimmed inputs and have no white space at either end |
| `SupabaseClient.NewItemStable` | js/SupabaseClient.js:58-59 | submitting the inserted fields again sends the same fields |
| `SupabaseClient.SingleResult` | js/SupabaseClient.js:26-27 | a store error is thrown exactly when the response carries one, never returned as data; otherwise `data` as is (also `addItem`, lines 64-65) |
| `SupabaseClient.ListResult` | js/SupabaseClient.js:14-15 | a store error is thrown exactly when the response carries one; otherwise `data`, or `[]` when it is null (also `getAllTags`, lines 49-50) |
| `SupabaseClient.ItemTags` | js/SupabaseClient.js:39 | the joined tag of each row in row order, or `[]` when no data came back |
| `SupabaseClient.TagsOf` | js/SupabaseClient.js:39 | one tag per row, the i-th being row i's joined tag |
| `SupabaseClient.ItemTagsResult` | js/SupabaseClient.js:38-39 | a store error is thrown exactly when the response carries one; otherwise the flattened tags |
| `SupabaseClient.AllTagsRow` | js/SupabaseClient.js:46 | as written: a listed tag carries its id and name but no level |
| `SupabaseClient.AllTagsRowWithLevel` | js/SupabaseClient.js:46 | corrected: a listed tag carries its id, name and stored level |
| `SupabaseClient.InsertResult` | js/SupabaseClient.js:79 | the link insert throws exactly when the store reports an error |
| `AddItemTab.Initial` | js/AddItemTab.js:7-8 | the start state (five empty slots, one shown) satisfies the selector invariant |
| `AddItemTab.ClearTruncates` | js/AddItemTab.js:45-51 | clearing slot k < 4 shows k+1 selects, empties slots k+1..4 and keeps slots 0..k, whatever the state before |
| `AddItemTab.FillLastVisibleExpands` | js/AddItemTab.js:37-38 | a truthy value in the last visible slot with fewer than five shown raises the count by exactly one and changes no slot |
| `AddItemTab.FillElsewhereKeepsState` | js/AddItemTab.js:37 | a truthy value in any other slot, or with five shown, changes nothing |
| `AddItemTab.ClearLastSlotKeepsState` | js/AddItemTab.js:43-56 | clearing slot 4 changes nothing: no truncation, and `onTagSelect` sees a falsy value |
| `AddItemTab.CounterMoves` | js/AddItemTab.js:35-56 | the count grows (by one) exactly in the expand case and shrinks exactly when a slot before the last visible one is cleared |
| `AddItemTab.TagChangeKeepsInv` | js/AddItemTab.js:43-56 | `onTagChange` keeps the invariant for every slot index |
| `AddItemTab.ChoiceKeepsInv` | js/AddItemTab.js:104-107 | a pick in a rendered select (write, then `onTagChange`) keeps the invariant |
| `AddItemTab.ReplayKeepsInv` | js/AddItemTab.js:35-56 | after any series of picks in rendered selects, the count is in [1, 5] and hidden slots are `''` |
| `AddItemTab.ReachableStatesKeepInv` | js/AddItemTab.js:7-8 | every state reachable from the start state satisfies the invariant |
| `AddItemTab.HiddenPickBreaksInv` | js/AddItemTab.js:121-124 | writing a tag into a select that is not rendered would leave a hidden slot non-empty, so the rendering condition is needed |
| `AddItemTab.TagSelector.constructor` | js/AddItemTab.js:7-8 | a fresh selector has five `''` slots and `visibleTagCount = 1` |
| `AddItemTab.TagSelector.OnTagSelect` | js/AddItemTab.js:35-40 | the new state is `AfterTagSelect` of the old one; the invariant is kept |
| `AddItemTab.TagSelector.OnTagChange` | js/AddItemTab.js:43-56 | the array and counter after the in-place loop are `AfterTagChange` of the old ones; the invariant is kept |
| `AddItemTab.TagSelector.Choose` | js/AddItemTab.js:88-90 | `v-model` write plus `@change` in a rendered select gives `AfterChoice` of the old state |
| `TagManageTab.SelectTagEditsThatTag` | js/TagManageTab.js:33-39 | selecting a row enters edit mode with that tag's id and name, its level when truthy and 2 otherwise; nothing else changes |
| `TagManageTab.ClearFormResets` | js/TagManageTab.js:42-49 | clearing puts the form fields back to their start values, clears the error, keeps the list, and is idempotent |
| `TagManageTab.AddGuard` | js/TagManageTab.js:52-62 | `handleAdd` stops exactly when the name is empty or white space only, otherwise calls `addTag` with the untrimmed name and the level |
| `TagManageTab.UpdateGuard` | js/TagManageTab.js:78-93 | `handleUpdate` rejects a blank name first, a falsy id second, and calls `updateTag` exactly when both pass |
| `TagManageTab.DeleteGuard` | js/TagManageTab.js:109-123 | `handleDelete` rejects a falsy id, then a declined confirmation, and calls `deleteTag` exactly when the id is set and the user agrees |
| `TagManageTab.RejectedChangesNothing` | js/TagManageTab.js:53-56 | a handler stopped by its guards changes no state |
| `TagManageTab.SuccessClearsForm` | js/TagManageTab.js:58-74 | after a successful store call the form fields are at their start values, the list is refetched (or kept with the fetch error shown), and `saving` is false |
| `TagManageTab.FailureKeepsForm` | js/TagManageTab.js:68-74 | after a failed store call `error` holds its message, form fields and list are unchanged (the handler being atomic here), and `saving` is false |
| `TagManageTab.HandlerKeepsConsistent` | js/TagManageTab.js:58-74 | every handler outcome keeps the form consistent |
| `TagManageTab.StepKeepsConsistent` | js/TagManageTab.js:33-136 | every user action keeps the form consistent |
| `TagManageTab.RunKeepsConsistent` | js/TagManageTab.js:33-136 | after any sequence of user actions and store answers, nothing is saving and edit mode, `selectedTagId` and `formTagId` agree |
| `TagManageTab.ReachableNeverSaving` | js/TagManageTab.js:9-16 | from the start state, `saving` is false after every finished action |
| `TagManageTab.SelectDuringSaveKeepsAgreement` | js/TagManageTab.js:185-190 | a row click while a store call is pending keeps edit mode, `selectedTagId` and `formTagId` in agreement and leaves `saving` true |
| `TagManageTab.EditModeHasId` | js/TagManageTab.js:84-87 | while editing a tag whose id is not 0, update and delete never report a missing id |
| `TagManageTab.ListedTagIsDemoted` | js/TagManageTab.js:38 | as written, selecting any listed level-1 tag (non-zero id, non-blank name) pre-fills level 2 and an update sends level 2 |
| `TagManageTab.ListedTagKeepsLevel` | js/TagManageTab.js:33-39 | with `level` selected, editing a tag of level 1 or 2 sends its own level back |
| `TagManageTab.TagManager.constructor` | js/TagManageTab.js:6-16 | the start state: no tags, loading, no error, no selection, add mode, empty id and name, level 2; the form is consistent |
| `TagManageTab.TagManager.FetchTags` | js/TagManageTab.js:19-30 | the list is replaced by the fetched rows, or the error is shown and the list kept; loading ends false; a consistent form stays consistent |
| `TagManageTab.TagManager.SelectTag` | js/TagManageTab.js:33-39 | the new state is `AfterSelectTag` of the old one, and the form stays consistent |
| `TagManageTab.TagManager.ClearForm` | js/TagManageTab.js:42-49 | the new state is `Cleared` of the old one; a consistent form stays consistent |
| `TagManageTab.TagManager.Submit` | js/TagManageTab.js:58-74 | the `try`/`catch`/`finally` after the guards gives `Settled` of the old state |
| `TagManageTab.TagManager.HandleAdd` | js/TagManageTab.js:52-75 | returns the guard's decision, leaves the state `AfterHandler` of the old one, and keeps the form consistent |
| `TagManageTab.TagManager.HandleUpdate` | js/TagManageTab.js:78-106 | returns the guard's decision, leaves the state `AfterHandler` of the old one, and keeps the form consistent |
| `TagManageTab.TagManager.HandleDelete` | js/TagManageTab.js:109-136 | returns the guard's decision, leaves the state `AfterHandler` of the old one, and keeps the form consistent |

## Left out

- The remote store: every query-builder chain (`from`, `select`, `eq`, `order`, `limit`, `insert`, `single`) and the client construction in `js/SupabaseClient.js` and `js/app.js`. Only what a query resolves to, `{ data, error }`, is modelled (`SupabaseClient.Response`).
- The client class in js/SupabaseClient.js defines no `addTag`, `updateTag` or `deleteTag`, so the `window.supabaseClient` the tag-management tab calls is a client not part of this model; the handlers' store calls are modelled as arbitrary outcomes, and `getAllTags` by what it settles to.
- The `limit` argument of `getItemTags`: the store applies it; the flattening is modelled for whatever rows come back.
- Asynchrony: each handler runs to completion in one step. The buttons and inputs are disabled while `saving` (`:disabled="saving"`), but the rows of the tag table (js/TagManageTab.js:185-190) are not, so in the component a row click can run `selectTag` after `saving = true` (line 59) and before the `finally` (line 73). The model does not capture that interleaving: the `!saving` part of `Consistent` holds only between handler runs because handlers are atomic here, and `FailureKeepsForm`'s "form fields unchanged" holds only in that atomic model (in the component a row clicked during the call leaves that row in the form on failure, and `clearForm` discards it on success). `SelectDuringSaveKeepsAgreement` shows that such a click still keeps the selection and the id field in agreement. The `loading` spinner while a fetch is pending is not modelled either. `alert`, `confirm` (a boolean parameter) and `console.error` are UI side effects.
- `fetchTags`, `allTags`, `loading`, `error`, `title` and `text` of the add-item tab, and the search and show tabs: plain fetches and field bindings with no logic of their own.
- Tag ids are modelled as integers. A numeric id 0 is falsy in JavaScript, so the model treats `Id(0)` like `''`; a store whose ids were strings would differ only there.
- Strings are sequences of Unicode scalar values, whereas JavaScript strings are UTF-16 code units: a lone surrogate cannot be represented. `trim` is otherwise unaffected, since every white-space code point it removes lies in the Basic Multilingual Plane.
- `formLevel` is modelled as an integer; `v-model.number` on an emptied input would yield `''`, which the model does not represent.
- The code has none of the following, and the model adds none: no level-1/level-2 restriction per slot (every select lists all tags), no initialisation of the selector from an item's existing tags, no list of selected ids, no de-duplication of tag ids (duplicates give duplicate link records), no replace/update/delete of items or their links, no client-side check that a level is 1 or 2 (only the input's `min`/`max` attributes).
- FailureKeepsForm: promises unchanged form fields for an atomic handler only; a row clicked while the store call is pending would replace them in the component (see the asynchrony line above).
- `TagManageTab` is not mounted by `js/app.js`, and no file under `js/` assigns `window.supabaseClient`; the model takes the component on its own.

## Findings

| source | as written | input that shows it | evidently intended | confidence | as-written member | corrected member |
|---|---|---|---|---|---|---|
| js/TagManageTab.js:38 | `getAllTags` selects only `tag_id, tag` (js/SupabaseClient.js:46), so the rows the list shows have no `level` and the fallback to 2 always applies; an update then writes level 2 back | stored tag `(1, "Tech", level 1)`: selecting it pre-fills level 2 and `updateTag(1, "Tech", 2)` is sent — assuming the tab's `getAllTags` is the one in js/SupabaseClient.js; the tab's client also has `addTag`/`updateTag`/`deleteTag`, which that class lacks, so the client it really calls is not part of this model | the list carries each tag's level (the table has a Level column, line 194), so editing pre-fills and sends back the stored level | low to medium (depends on the unseen client), not executed | `TagManageTab.ListedTagIsDemoted` | `TagManageTab.ListedTagKeepsLevel` |

The as-written projection is `SupabaseClient.AllTagsRow`, the corrected one
`SupabaseClient.AllTagsRowWithLevel`. The form model takes rows as `TagRow` with an optional level, so
the rest of the model holds for rows produced by either projection.
