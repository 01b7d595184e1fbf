# Bookmark organiser: persistence, start-up and folder handling

A Dafny model of the core of a browser-based bookmark organiser. Links,
folder names and settings live in three fixed keys of the browser's
key-value storage (`mywaslat_links`, `mywaslat_folders`,
`mywaslat_settings`). The model covers three parts:

- **The persistence layer** (`database.dfy`, module `Database`).
  - The storage is a class `Store` with one field per key. Each field holds a
    `Slot`: `Absent`, `Corrupt` (content that does not read back as a value of
    the expected shape) or `Present(v)`.
  - Saves overwrite a whole slot. Loads never fail; they fall back to `[]`, to
    the four default folders, or to the default settings record.
  - Also modelled: `clearDatabase`, `exportData`, `importData` and
    `getDatabaseStats`.
- **The start-up hook** (`usedatabase.dfy`, module `UseDatabase`).
  - `DatabaseHook.InitializeDatabase` seeds an empty store with the six sample
    links (`mockdata.dfy`).
  - It rewrites the folder list as "defaults first, then the existing folders,
    each name once".
  - It sets `isInitialized`.
- **The sidebar's folder handlers** (`sidebar.dfy`, module `Sidebar`).
  - A class `SidebarState` holds the four state fields `showAddFolder`,
    `newFolderName`, `draggedFolder` and `isDragOverTrash`.
  - Each handler is a method. A callback (`onAddFolder`, `onDeleteFolder`) is
    the `Option` value the handler returns. `window.confirm` is a boolean
    parameter.

Supporting modules:

- `timestamp.dfy`: JavaScript dates, and the text they are saved as, with a
  proved inverse law.
- `collections.dfy`: `filter`, and the order-keeping deduplication
  `Array.from(new Set(xs))`, with a first-occurrence reference definition.
- `records.dfy`: the record types and the defaults.

Every write to the storage takes an `accepted` flag. It is the backend's
answer to the write: false when the quota is exceeded. A refused write leaves
the slot unchanged, as the source's swallowed exception does.

## Model

| member | source | states |
|---|---|---|
| Timestamp.ToIso | src/utils/database.ts:23 | `toISOString` yields text exactly for a valid date; the invalid date has none, so the save that calls it fails |
| Timestamp.IsoRoundTrip | src/utils/database.ts:21-39 | reading back the text written for a valid date gives the same instant |
| Collections.Filter | src/utils/database.ts:187-188 | `filter` keeps exactly the elements satisfying the predicate, each with its multiplicity, and is no longer than its input |
| Collections.FilterCount | src/utils/database.ts:187-188 | the length of `filter` is the number of indices whose element satisfies the predicate |
| Collections.Distinct | src/hooks/useDatabase.ts:32 | `Array.from(new Set(xs))` has no duplicates and the same elements as `xs` |
| Collections.DistinctIsFirstOccurrences | src/hooks/useDatabase.ts:32 | the Set round trip equals keeping each element only where no equal element precedes it, in input order |
| Collections.DistinctIdempotent | src/hooks/useDatabase.ts:32 | deduplicating twice gives the same list as deduplicating once |
| Collections.DistinctCount | src/utils/database.ts:189 | the length of the deduplicated list is the number of distinct elements |
| Database.SerializeLinks | src/utils/database.ts:21-24 | the save mapping succeeds exactly when every date is valid; it then keeps length, order and every field, with each date replaced by its text |
| Database.LinksRoundTrip | src/utils/database.ts:19-40 | links whose dates are all valid are written, and loading them back gives the same list with every `createdAt` preserved |
| Database.LoadLinks | src/utils/database.ts:31-45 | an absent or unreadable links slot loads as `[]`; a stored list loads with the same length |
| Database.LoadFolders | src/utils/database.ts:56-66 | an absent or unreadable folders slot loads as `Work, Study, Fun, Personal` in that order; a stored list loads verbatim |
| Database.LoadSettings | src/utils/database.ts:77-104 | a loaded record always has a language; the default record for an absent or unreadable slot; a stored record with a falsy language gets Arabic with its other fields unchanged; any other stored record loads as stored |
| Database.Reparse | src/utils/database.ts:133-163 | what `importData` parses from an exported text always passes its shape check |
| Database.ReparsedLinksRoundTrip | src/utils/database.ts:133-163 | exported links with valid dates are imported equal to what was exported |
| Database.InvalidDateExportsAsEpoch | src/utils/database.ts:136-162 | a link with the invalid date is exported as `null` and imported dated at the epoch |
| Database.AllTags | src/utils/database.ts:189 | `flatMap` over the tags holds exactly the tags of some link |
| Database.FavoriteCount | src/utils/database.ts:187 | `links.filter(link => link.isFavorite).length` is the number of favourite links |
| Database.ReadLaterCount | src/utils/database.ts:188 | `links.filter(link => link.readLater).length` is the number of read-later links |
| Database.ComputeStats | src/utils/database.ts:180-189 | the counts match the links and folders; `favoriteLinks` and `readLaterLinks` are the numbers of links marked favourite and read-later; `totalTags` is the number of distinct tag strings over all links |
| Database.Store.SaveLinks | src/utils/database.ts:19-29 | writes only the links key, and the whole list or nothing: an invalid date or a refused write leaves the slot unchanged; after a successful write the load returns the list saved |
| Database.Store.SaveFolders | src/utils/database.ts:48-54 | writes only the folders key; after a successful write the load returns the list verbatim |
| Database.Store.SaveSettings | src/utils/database.ts:69-75 | writes only the settings key; a record with a language loads back unchanged |
| Database.StorageKeysDistinct | src/utils/database.ts:4-8 | the three keys name different storage entries, and the list of keys that clearing walks holds each key exactly once |
| Database.Store.RemoveItem | src/utils/database.ts:110 | removes one key and leaves the other two unchanged |
| Database.Store.ClearDatabase | src/utils/database.ts:107-111 | the loop removes the three keys; afterwards the loads give `[]`, the four default folders and the default settings |
| Database.Store.ExportData | src/utils/database.ts:133-148 | the document holds the three loaded values, the export date from the clock and version `1.0` |
| Database.Store.ImportData | src/utils/database.ts:150-177 | returns true exactly for a parsed object whose three members are truthy and whose `links` is an array of link records (an array with a `null` element, like a non-array, makes the mapping throw); otherwise no key changes; on success links, folders and settings are each saved as `saveLinks`, `saveFolders` and `saveSettings` would |
| Database.Store.ImportDataAtomic | src/utils/database.ts:150-177 | corrected import: also rejects, writing nothing, a document with a link whose date cannot be saved; on success every accepted write holds the document's content |
| Database.Store.GetDatabaseStats | src/utils/database.ts:180-191 | the statistics of the loaded links and folders: their lengths, the numbers of favourite and read-later loaded links, and the number of distinct tags |
| Database.ImportKeepsOldLinksWitness | src/utils/database.ts:159-172 | the import as written returns true for a document whose link date is unreadable, writes its folders and keeps the old links |
| Database.AtomicImportRejectsWitness | src/utils/database.ts:150-177 | the corrected import rejects that document and writes nothing |
| Database.ExportImportRoundTrip | src/utils/database.ts:133-172 | importing the export restores every load, provided every loaded link date is valid |
| UseDatabase.FolderUnion | src/hooks/useDatabase.ts:31-32 | the written folder list starts with `Work, Study, Fun, Personal`, has no duplicates, and holds exactly the defaults and the previously loaded folders |
| UseDatabase.FolderUnionKeepsFirstOccurrences | src/hooks/useDatabase.ts:31-32 | the union is the defaults followed by the loaded folders, deduplicated keeping first occurrences in order |
| UseDatabase.FolderUnionIdempotent | src/hooks/useDatabase.ts:31-33 | taking the union of a union changes nothing |
| UseDatabase.MockLinksAreGoodSeed | src/data/mockData.ts:3-76 | the sample links are non-empty, all dated, and all in default folders |
| UseDatabase.InitializationIdempotent | src/hooks/useDatabase.ts:26-33 | after a start-up whose writes went through, a second start-up writes neither a different links slot nor a different folders slot |
| UseDatabase.SeededLinksHaveFolders | src/hooks/useDatabase.ts:26-33 | when the sample links were written, every loaded link's folder is in the written folder list |
| UseDatabase.DatabaseHook.constructor | src/hooks/useDatabase.ts:15 | `isInitialized` starts false |
| UseDatabase.DatabaseHook.InitializeDatabase | src/hooks/useDatabase.ts:19-49 | seeds only when the loaded links are empty; writes the folder union; never writes the settings; always ends with `isInitialized` true |
| UseDatabase.DatabaseHook.SaveLinksToDatabase | src/hooks/useDatabase.ts:55-57 | passes its argument unchanged to the store's links save |
| UseDatabase.DatabaseHook.SaveFoldersToDatabase | src/hooks/useDatabase.ts:59-61 | passes its argument unchanged to the store's folders save |
| UseDatabase.DatabaseHook.SaveSettingsToDatabase | src/hooks/useDatabase.ts:63-65 | passes its argument unchanged to the store's settings save |
| Sidebar.Trim | src/components/Sidebar.tsx:45 | the trimmed name is a slice of the name with only white space cut off before and after it; it is empty exactly when the name is all white space, and otherwise starts and ends with a non-white-space character |
| Sidebar.TrimIdempotent | src/components/Sidebar.tsx:45-46 | trimming a trimmed name changes nothing |
| Sidebar.DeleteButtons | src/components/Sidebar.tsx:299-309 | a folder gets a delete button exactly when it is listed and is not a default folder |
| Sidebar.SidebarState.constructor | src/components/Sidebar.tsx:32-35 | the input is closed and empty, nothing is dragged, the trash is not hovered |
| Sidebar.SidebarState.OpenAddFolder | src/components/Sidebar.tsx:199 | opens the new-folder input |
| Sidebar.SidebarState.EditNewFolderName | src/components/Sidebar.tsx:216 | the input holds the typed text |
| Sidebar.SidebarState.CancelAddFolder | src/components/Sidebar.tsx:234-237 | closes the input and clears the name |
| Sidebar.SidebarState.HandleAddFolder | src/components/Sidebar.tsx:44-50 | calls `onAddFolder` with the trimmed name exactly when it is non-empty and not already a folder (exact comparison), then clears and closes the input; a rejected add changes no field and calls nothing |
| Sidebar.SidebarState.HandleDeleteFolder | src/components/Sidebar.tsx:52-56 | calls `onDeleteFolder` with the folder exactly when the user confirms |
| Sidebar.SidebarState.ClickDeleteButton | src/components/Sidebar.tsx:299-301 | the click path deletes only a listed, non-default folder, and only on confirmation |
| Sidebar.SidebarState.HandleDragStart | src/components/Sidebar.tsx:58-69 | a default folder sets no payload and leaves `draggedFolder` unchanged; any other folder becomes both the payload and `draggedFolder` |
| Sidebar.SidebarState.HandleDragEnd | src/components/Sidebar.tsx:71-74 | clears `draggedFolder` and `isDragOverTrash` |
| Sidebar.SidebarState.HandleDragOver | src/components/Sidebar.tsx:76-80 | sets `isDragOverTrash` |
| Sidebar.SidebarState.HandleDragLeave | src/components/Sidebar.tsx:82-87 | clears `isDragOverTrash` only when the cursor left the trash area entirely |
| Sidebar.SidebarState.HandleDrop | src/components/Sidebar.tsx:89-97 | calls `onDeleteFolder` with the payload exactly when the payload is non-empty, a folder is being dragged and the user confirms; always clears `draggedFolder` and `isDragOverTrash`; a drop of the folder being dragged never deletes a default folder |
| Sidebar.DragToTrash | src/components/Sidebar.tsx:58-97 | a drag from a folder row to the trash deletes at most that folder, never a default one, and only on confirmation |

## Left out

- The JSON text itself is not modelled. Stored and imported content is a typed value, or `Corrupt`/`Unparsed` when it does not parse or has the wrong shape. Some content parses to a value of an unexpected type, and the source treats it differently from both:
  - a stored `null` folder list is returned as is, where the model gives the defaults;
  - a folder list stored as a non-iterable value (a number, an object) makes the start-up's spread throw, so the source skips the folder and settings steps; a folder list stored as a JSON string is spread into its characters, each added as a folder;
  - a stored or imported settings record that lacks `darkMode`, `viewLayout` or `currentView`, or holds a value outside their types (including a truthy `language` other than `"ar"` or `"en"`, such as `"fr"`), is returned by the loader as stored, with only a missing `language` filled in; `importData` writes such a record because it checks only that `settings` is truthy. The model reads such content as `Corrupt` and loads the default settings;
  - an imported `links` array is modelled as an array of link records, or as content on which the mapping throws (a non-array, or an array holding `null`); an element that is some other non-record value, such as a number, is mapped without error by the source and is not modelled;
  - a truthy non-array `folders` member or a non-record `settings` member is imported verbatim by the source.
- Timestamp.ToIso: the ISO-8601 calendar layout of the text is replaced by the signed decimal count of milliseconds. Only the inverse law is relied on. Numbers given as `createdAt` in an imported document are not modelled. Strings and `null` are, and so is a missing `createdAt`.
- Database.ComputeStats: `storageUsed`, the byte size of the pretty-printed export, is not modelled.
- Database.ExportImportRoundTrip: requires every loaded link date to be valid. A stored date text that does not parse loads as the invalid date. It is exported as `null` and comes back as the epoch (`InvalidDateExportsAsEpoch`).
- The clock (`new Date()` for `exportDate`) is the parameter `now` of `ExportData`. It takes no part in the round trip.
- `clearDatabase`'s browser side effects are out of scope: `sessionStorage.clear()`, `window.gc()` and the empty `revokeObjectURL` branch. So are `console.error` logging and the distinction between quota and other write failures (one `accepted` flag covers both).
- UseDatabase.DatabaseHook.InitializeDatabase: nothing in the model can throw inside the start-up sequence, so its `catch` path is not modelled separately. Its effect, `isInitialized` becoming true, is the same on both paths. The settings write it guards is dead (a loaded record always has a language), so the model proves that branch unreachable instead of modelling the write.
- React scheduling (`useState`, `useEffect`) is out of scope: start-up is one method call, and the sidebar state is a class. So are rendering, CSS, icons, translations, and the `window.innerWidth < 768` / `onClose` calls.
- Concurrent tabs writing the same storage are out of scope.
- `src/types.ts` contributes only the `Link` shape; its `User` and `Language` types are unused and not modelled.

## Findings

| source | as written | input that shows it | evidently intended | confidence | as-written member | corrected member |
|---|---|---|---|---|---|---|
| src/utils/database.ts:160-172 | `importData` maps the links to dates, then calls `saveLinks`, which throws on an invalid date inside its own `try` and swallows it; the import then writes folders and settings and returns true | a document `{"links":[{"createdAt":"soon", …}], "folders":["Archive"], "settings":{…}}` | an import that reports success has replaced all three records (the import is meant to be all or nothing), so such a document should be rejected | medium, not executed | Database.ImportKeepsOldLinksWitness | Database.Store.ImportDataAtomic |
