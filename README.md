# Ticketeria in Dafny

Ticketeria is an offline-first help-desk client written in React Native.
It has a small Express mock of its REST API. This project models its core
and proves properties of the model:

- **The two local stores.**
  - The SQLite store comes in two versions. `LegacyStore` models
    `services/SQLiteService.ts` and `SplitStore` models the split
    `services/SQLiteService/*.ts`. Both work over the tables of
    `Schema.Database`: tickets, comments, attachments and
    pending_actions.
  - The AsyncStorage caches are `KeyValue`, `StorageCache` and
    `TicketStorage`.
- **The offline queue and its replay.**
  - `OfflineQueue` is the SQLite queue of pending actions.
  - `OfflineSync` replays the AsyncStorage queue.
  - `SyncService` runs the sync pass: unsynced tickets, then comments,
    then pending actions, plus the connection listener.
- **The ticket hooks.**
  - The mutations are `CreateTicketHook`, `AddCommentHook`,
    `UpdateTicketHook` and `UpdateStatusHook`.
  - The detail query is `TicketDetailsHook`.
  - `QueryKeys` holds the React Query keys and the prefix matching that
    invalidation uses.
- **The screens' logic.**
  - The form validators are `CreateTicketScreen`, `RegisterScreen` and
    `LoginScreen`. `EmailRule` is the e-mail pattern the two sign-in
    screens share.
  - The header initials are `AppHeader`.
  - The toast list is `ToastStore`.
  - The CSV and HTML reports are `ExportService`.
- **The mock server** (`MockServer`): the list pipeline (filter,
  sort, page) and the handlers that write the database.

## How it is modelled

- Every store with state is a class:
  - a field of type `seq` per SQL table or key set;
  - `modifies` on the methods that change it.
- Each method is proved against a function of the old state, and the
  lemmas state what the source promises about those functions.
- The REST API is `Remote.Api`. It holds a script of answers, consumed
  one per request, and a log of the requests made. This is what lets
  "offline, nothing is sent" and "one request per action" be proved.
- The clock and the random text the source draws are parameters
  (`JsValues.Env`).
- The split files `services/SQLiteService/deleteTicketLocally.ts` and
  `services/SQLiteService/markAttachmentAsSynced.ts` run the same SQL
  statements as their legacy namesakes. So `LegacyStore.DeleteTicketLocally`
  and `LegacyStore.MarkAttachmentAsSynced` model both versions.
- JSON round-trips are the identity for the values the source stringifies (`serverData`, the cached lists and details, the queued `data`).
- Strings are sequences of characters.

## Model

| member | source | states |
|---|---|---|
| LegacyStore.RowKey | TicketeriaSystem/src/services/SQLiteService.ts:18 | a truthy given id is the key; otherwise the key is a fresh text starting 'local_' |
| LegacyStore.NewTicketRow | TicketeriaSystem/src/services/SQLiteService.ts:21-38 | the row carries the key as both id and localId and keeps the whole input as serverData; isSynced is 1 exactly when the input has an id; priority, status and the two stamps fall back to 'medium', 'open' and the clock |
| LegacyStore.SaveTicketLocally | TicketeriaSystem/src/services/SQLiteService.ts:15-47 | INSERT OR REPLACE: any row with the same key is dropped and the new row stored; the key is returned; the primary key stays unique |
| LegacyStore.TicketsQueryExact | TicketeriaSystem/src/services/SQLiteService.ts:52-79 | the query returns exactly the rows that meet every filter given (status, category, case-insensitive search in title or description), each as often as stored, newest first |
| LegacyStore.NoFiltersKeepAll | TicketeriaSystem/src/services/SQLiteService.ts:59-77 | with no filter every row is returned |
| LegacyStore.MatchesFilters | TicketeriaSystem/src/services/SQLiteService.ts:59-73 | definition: each truthy filter holds, status and category equal and the search a LIKE match in the title or the description |
| LegacyStore.TicketsQuery | TicketeriaSystem/src/services/SQLiteService.ts:59-77 | definition: the rows meeting MatchesFilters, newest first; TicketsQueryExact and NoFiltersKeepAll state it |
| LegacyStore.GetTicketsLocally | TicketeriaSystem/src/services/SQLiteService.ts:79-102 | one list entry per result row, in order, with no comments or attachments and `_isSynced` true exactly when isSynced is 1 |
| LegacyStore.CommentsQueryExact | TicketeriaSystem/src/services/SQLiteService.ts:279-282 | a ticket's comments are exactly the rows filed under its id, oldest first |
| LegacyStore.GetCommentsByTicketIdLocally | TicketeriaSystem/src/services/SQLiteService.ts:276-303 | one entry per comment row of the ticket, in query order |
| LegacyStore.GetAttachmentsByTicketIdLocally | TicketeriaSystem/src/services/SQLiteService.ts:360-389 | one entry per attachment row of the ticket, in table order |
| LegacyStore.GetTicketByIdLocally | TicketeriaSystem/src/services/SQLiteService.ts:112-151 | null exactly when no row has the id as id or localId; otherwise the first such row, with the comments and attachments filed under that row's id |
| LegacyStore.ApplyUpdate | TicketeriaSystem/src/services/SQLiteService.ts:164-197 | each field given replaces the stored one and an absent field stays; updatedAt becomes the clock and isSynced 0; id, localId, createdAt, createdBy and serverData are kept |
| LegacyStore.UpdateTicketLocally | TicketeriaSystem/src/services/SQLiteService.ts:156-206 | every row whose id or localId matches gets the update; no other row changes |
| LegacyStore.DeleteTicketLocally | TicketeriaSystem/src/services/SQLiteService.ts:211-220 | every row whose id or localId matches is removed; the others stay in order |
| LegacyStore.DeleteIdempotent | TicketeriaSystem/src/services/SQLiteService.ts:214 | deleting twice is deleting once; deleting an absent id changes nothing |
| LegacyStore.MarkTicketAsSynced | TicketeriaSystem/src/services/SQLiteService.ts:225-237 | the rows with that localId get the server id and isSynced 1; when the new id would collide with another row's key the statement fails and nothing changes |
| LegacyStore.MarkTickets | TicketeriaSystem/src/services/SQLiteService.ts:228-231 | definition: nothing when the new id would clash with another row's key; otherwise the rows with the localId get the server id and isSynced 1; MarkTicketAsSynced and MarkedTicketPastUnsynced state it |
| LegacyStore.GetUnsyncedTickets | TicketeriaSystem/src/services/SQLiteService.ts:413-443 | one entry per row with isSynced 0, with `_isSynced` false |
| LegacyStore.MarkedTicketPastUnsynced | TicketeriaSystem/src/services/SQLiteService.ts:225-237 | after marking, the unsynced rows are the old unsynced rows under any other localId |
| LegacyStore.SyncedTicketComesBack | TicketeriaSystem/src/services/SQLiteService.ts:188-231 | a ticket created locally keeps its 'local_' localId after marking, and any later edit makes it unsynced again, so the next pass creates it again |
| LegacyStore.NewCommentRow | TicketeriaSystem/src/services/SQLiteService.ts:254-262 | the comment row carries the key as id and localId, isSynced 1 exactly when the input has an id, and the clock when no createdAt is given |
| LegacyStore.SaveCommentLocally | TicketeriaSystem/src/services/SQLiteService.ts:244-271 | INSERT OR REPLACE of the comment row under the given id or a fresh local id, which is returned |
| LegacyStore.MarkCommentAsSynced | TicketeriaSystem/src/services/SQLiteService.ts:308-320 | the comment rows with that localId get the server id and isSynced 1, or the statement fails on a key collision and nothing changes |
| LegacyStore.GetUnsyncedComments | TicketeriaSystem/src/services/SQLiteService.ts:448-472 | one entry per comment row with isSynced 0, with `_isSynced` false |
| LegacyStore.NewAttachmentRow | TicketeriaSystem/src/services/SQLiteService.ts:336-346 | the attachment row carries the key as id and localId, isSynced 1 exactly when the input has an id, and size 0 when none is given |
| LegacyStore.SaveAttachmentLocally | TicketeriaSystem/src/services/SQLiteService.ts:327-355 | INSERT OR REPLACE of the attachment row under the given id or a fresh local id, which is returned |
| LegacyStore.MarkAttachmentAsSynced | TicketeriaSystem/src/services/SQLiteService.ts:394-406 | the attachment rows with that localId get the server id and isSynced 1, or the statement fails on a key collision and nothing changes |
| SplitStore.SaveTicketLocally | TicketeriaSystem/src/services/SQLiteService/saveTicketLocally.ts:8-42 | the key is `String(ticket.id)` when the id is truthy, else a fresh local id; the row is stored by INSERT OR REPLACE and the key stays unique |
| SplitStore.SaveTwiceKeepsSecond | TicketeriaSystem/src/services/SQLiteService/saveTicketLocally.ts:16-34 | saving twice under the same key leaves exactly one row, the second one |
| SplitStore.PageNumber | TicketeriaSystem/src/services/SQLiteService/getTicketsLocally.ts:39 | the page is the one given when positive, else 1 |
| SplitStore.PageLimit | TicketeriaSystem/src/services/SQLiteService/getTicketsLocally.ts:40 | the limit is the one given when positive, else 50 |
| SplitStore.PagesAdjacent | TicketeriaSystem/src/services/SQLiteService/getTicketsLocally.ts:41-43 | pages p and p + 1 together are the page of twice the size that starts where page p starts |
| SplitStore.PageQueryWindow | TicketeriaSystem/src/services/SQLiteService/getTicketsLocally.ts:39-46 | the page query returns at most `limit` rows, namely the filtered, newest-first rows from the offset on; with no page or limit it is the first 50 |
| SplitStore.PageQuery | TicketeriaSystem/src/services/SQLiteService/getTicketsLocally.ts:39-46 | definition: the filtered rows newest first, `limit` of them from `(page - 1) * limit`, with page 1 and limit 50 for a missing or non-positive value; PageQueryWindow and PagesAdjacent state it |
| SplitStore.GetTicketsLocally | TicketeriaSystem/src/services/SQLiteService/getTicketsLocally.ts:7-77 | `total` counts every row that meets the filters; `items` stays empty, because the loop body only logs |
| SplitStore.CommentOf | TicketeriaSystem/src/services/SQLiteService/getCommentsByTicketIdLocally.ts:18-23 | the comment carries the row's id, text and stamp, and an empty author when the row has none |
| SplitStore.AttachmentOf | TicketeriaSystem/src/services/SQLiteService/getAttachmentsByTicketIdLocally.ts:18-24 | the attachment carries the row's id, name, url, type and size |
| SplitStore.GetCommentsByTicketIdLocally | TicketeriaSystem/src/services/SQLiteService/getCommentsByTicketIdLocally.ts:7-31 | one comment per row filed under the ticket, oldest first |
| SplitStore.GetAttachmentsByTicketIdLocally | TicketeriaSystem/src/services/SQLiteService/getAttachmentsByTicketIdLocally.ts:7-32 | one attachment per row filed under the ticket, in table order |
| SplitStore.AttachmentsQueryExact | TicketeriaSystem/src/services/SQLiteService/getAttachmentsByTicketIdLocally.ts:10-13 | the query returns exactly the attachment rows of the ticket |
| SplitStore.GetTicketByIdLocally | TicketeriaSystem/src/services/SQLiteService/getTicketByIdLocally.ts:7-71 | null exactly when no row has the id as id or localId; otherwise the first such row's fields, with its comments oldest first and its attachments |
| SplitStore.BulkRow | TicketeriaSystem/src/services/SQLiteService/bulkUpsertTickets.ts:18-36 | the row is keyed by the ticket's own id as id and localId, marked synced, with an author object even when the ticket has none and priority 'medium' when empty |
| SplitStore.BulkAllRows | TicketeriaSystem/src/services/SQLiteService/bulkUpsertTickets.ts:14-37 | after the loop the key is still unique, the last ticket of each id is stored, and every earlier row whose id none of the tickets has is kept |
| SplitStore.BulkUpsertTickets | TicketeriaSystem/src/services/SQLiteService/bulkUpsertTickets.ts:7-44 | the table is the old one with one INSERT OR REPLACE per ticket, in order; an empty list changes nothing |
| SplitStore.SaveAllStep | TicketeriaSystem/src/services/SQLiteService/upsertTicketsLocally.ts:12-15 | one more ticket in the list is one more saveTicketLocally on the result so far |
| SplitStore.UpsertTicketsLocally | TicketeriaSystem/src/services/SQLiteService/upsertTicketsLocally.ts:8-22 | the table is the old one after saveTicketLocally of each ticket in order |
| SplitStore.UpsertedSyncFlag | TicketeriaSystem/src/services/SQLiteService/upsertTicketsLocally.ts:13-14 | the added `_isSynced` flag is ignored: the last row's isSynced follows only whether its ticket has an id |
| SplitStore.SaveAttachmentLocally | TicketeriaSystem/src/services/SQLiteService/saveAttachmentLocally.ts:8-38 | the key is `String(attachment.id)` or a fresh local id, and the row is stored by INSERT OR REPLACE |
| SplitStore.ApplyDbUpdate | TicketeriaSystem/src/services/SQLiteService/updateTicketLocally.ts:15-47 | each field given replaces the stored one; an author object replaces all three author columns, each falsy part by null; updated_at becomes the clock and sync_status 'pending'; id, server_id and created_at stay |
| SplitStore.UpdateTicketLocally | TicketeriaSystem/src/services/SQLiteService/updateTicketLocally.ts:7-60 | every row whose id or server_id equals the argument gets the update; no other row changes |
| SplitStore.MarkTicketAsSynced | TicketeriaSystem/src/services/SQLiteService/markTicketAsSynced.ts:6-18 | the rows with that id get the server id and status 'synced'; no other row changes |
| SplitStore.MarkedTicketLeavesPending | TicketeriaSystem/src/services/SQLiteService/markTicketAsSynced.ts:9-12 | after marking, no pending row has that id, the marked rows keep their id and carry the server id, and the others are unchanged |
| SplitStore.GetUnsyncedTickets | TicketeriaSystem/src/services/SQLiteService/getUnsyncedTickets.ts:4-30 | the result is exactly the rows with sync_status 'pending', in table order |
| SplitStore.NewCommentRow | TicketeriaSystem/src/services/SQLiteService/saveCommentLocally.ts:9-26 | the new comment is pending, has no server id, points at `Number(ticketId)`, and takes its stamp from the input or the clock |
| SplitStore.SaveCommentLocally | TicketeriaSystem/src/services/SQLiteService/saveCommentLocally.ts:4-39 | the row is appended under one more than the largest id in the table (1 when it is empty), the rowid an `INTEGER PRIMARY KEY` column would take; that id is above every stored id and is returned |
| SplitStore.SavedCommentIsFresh | TicketeriaSystem/src/services/SQLiteService/saveCommentLocally.ts:14-31 | the appended row keeps the ids unique, leaves the old rows as they were, and joins the pending comments at the end |
| SplitStore.GetUnsyncedComments | TicketeriaSystem/src/services/SQLiteService/getUnsyncedComments.ts:4-26 | the result is exactly the comment rows with sync_status 'pending', in table order |
| SplitStore.MarkCommentAsSynced | TicketeriaSystem/src/services/SQLiteService/markCommentAsSynced.ts:6-18 | the comment rows with that id get the server id and status 'synced'; no other row changes |
| SplitStore.MarkedCommentLeavesPending | TicketeriaSystem/src/services/SQLiteService/markCommentAsSynced.ts:9-12 | after marking, no pending comment has that id and the others are unchanged |
| SplitStore.ActionRecordOf | TicketeriaSystem/src/services/SQLiteService/getPendingActions.ts:11-21 | the record copies the row, with retry_count 0 when null |
| SplitStore.ActionsQueryAll | TicketeriaSystem/src/services/SQLiteService/getPendingActions.ts:6 | the query returns every action, oldest first |
| SplitStore.GetPendingActions | TicketeriaSystem/src/services/SQLiteService/getPendingActions.ts:4-25 | one record per action row, in query order |
| KeyValue.Store.SetItem | TicketeriaSystem/src/helpers/AsyncStorageCache.ts:44 | `setItem(key, v)` maps the key to the value and leaves every other key alone |
| KeyValue.Store.RemoveItem | TicketeriaSystem/src/helpers/AsyncStorageCache.ts:138 | `removeItem(key)` drops the key and leaves every other key alone |
| KeyValue.Store.MultiRemove | TicketeriaSystem/src/helpers/AsyncStorageCache.ts:144 | `multiRemove(keys)` drops exactly the keys given |
| TicketStorage.DetailKeyDistinct | TicketeriaSystem/src/helpers/ticketStorage.ts:4-10 | a detail key `@ticketeria:ticket_details:<id>` is none of the four fixed keys and starts with the details prefix |
| TicketStorage.DetailKeyOfSameText | TicketeriaSystem/src/helpers/ticketStorage.ts:48 | two ids share a detail key exactly when they print the same, so `7` and `'7'` share one |
| TicketStorage.SavedTickets | TicketeriaSystem/src/helpers/ticketStorage.ts:22-33 | the list reads back with `cachedAt` set to the first clock reading, the last-sync entry holds the second reading, taken after the list is written, and no other key changes |
| TicketStorage.SaveTicketsToStorage | TicketeriaSystem/src/helpers/ticketStorage.ts:22-33 | the storage becomes SavedTickets of the old storage |
| TicketStorage.SavedDetails | TicketeriaSystem/src/helpers/ticketStorage.ts:46-57 | the ticket reads back under its id, and no other key changes |
| TicketStorage.SaveTicketDetailsToStorage | TicketeriaSystem/src/helpers/ticketStorage.ts:46-57 | the storage becomes SavedDetails of the old storage |
| TicketStorage.ValidAfterSave | TicketeriaSystem/src/helpers/ticketStorage.ts:71-85 | right after a save the cache is valid exactly when the LAST_SYNC reading parses and less than `maxAge` minutes have passed since it; the `cachedAt` reading plays no part |
| TicketStorage.ClearedTickets | TicketeriaSystem/src/helpers/ticketStorage.ts:88-95 | the list and the last sync are gone; no other key changes and no key appears |
| TicketStorage.ClearTicketsCache | TicketeriaSystem/src/helpers/ticketStorage.ts:88-95 | the storage becomes ClearedTickets of the old storage |
| TicketStorage.InvalidAfterClear | TicketeriaSystem/src/helpers/ticketStorage.ts:71-74 | after clearing, the cache is not valid whatever the clock says |
| TicketStorage.ClearedDetails | TicketeriaSystem/src/helpers/ticketStorage.ts:98-106 | every key with the details prefix is gone and no other key changes |
| TicketStorage.ClearAllTicketDetailsCache | TicketeriaSystem/src/helpers/ticketStorage.ts:98-106 | the storage becomes ClearedDetails of the old storage |
| TicketStorage.NoDetailsAfterClear | TicketeriaSystem/src/helpers/ticketStorage.ts:59-68 | after clearing the details no ticket's details read back |
| TicketStorage.ClearedAll | TicketeriaSystem/src/helpers/ticketStorage.ts:109-116 | the list, the last sync and every detail are gone; no other key changes |
| TicketStorage.ClearAllCache | TicketeriaSystem/src/helpers/ticketStorage.ts:109-116 | the storage becomes ClearedAll of the old storage |
| TicketStorage.ClearAllKeepsOfflineWork | TicketeriaSystem/src/helpers/ticketStorage.ts:109-116 | clearing the whole cache keeps the action queue and the offline tickets |
| TicketStorage.AddedAction | TicketeriaSystem/src/helpers/ticketStorage.ts:134-138 | the queue reads back as the old queue with the action at the end, and no other key changes |
| TicketStorage.AddPendingAction | TicketeriaSystem/src/helpers/ticketStorage.ts:126-146 | the returned id is the generated `offline_<time>_<random>` id, and the queue gains the action with that id and the clock as timestamp |
| TicketStorage.RemovedAction | TicketeriaSystem/src/helpers/ticketStorage.ts:160-169 | the queue keeps, in order, exactly the actions with another id; the key is written even when nothing matched |
| TicketStorage.RemovePendingAction | TicketeriaSystem/src/helpers/ticketStorage.ts:160-169 | the storage becomes RemovedAction of the old storage |
| TicketStorage.RemoveDropsExactly | TicketeriaSystem/src/helpers/ticketStorage.ts:163 | an action survives removal exactly when it was queued and has another id |
| TicketStorage.AddThenRemove | TicketeriaSystem/src/helpers/ticketStorage.ts:126-169 | adding an action with a fresh id and then removing that id gives back the old queue |
| TicketStorage.ClearedActions | TicketeriaSystem/src/helpers/ticketStorage.ts:172-179 | the queue reads back empty, its key is gone, and no other key changes |
| TicketStorage.ClearPendingActions | TicketeriaSystem/src/helpers/ticketStorage.ts:172-179 | the storage becomes ClearedActions of the old storage |
| TicketStorage.SavedOffline | TicketeriaSystem/src/helpers/ticketStorage.ts:182-195 | the offline list gains the ticket at the end, its details read back under its id, and no other key changes |
| TicketStorage.SaveOfflineTicket | TicketeriaSystem/src/helpers/ticketStorage.ts:182-195 | the storage becomes SavedOffline of the old storage |
| TicketStorage.FindById | TicketeriaSystem/src/helpers/ticketStorage.ts:213 | `findIndex` by printed id: the first index whose id prints like the argument, or none when no id does |
| TicketStorage.UpdateFirst | TicketeriaSystem/src/helpers/ticketStorage.ts:213-216 | the list keeps its length; only the first ticket whose id prints like the argument is merged with the update |
| TicketStorage.UpdatedOfflineList | TicketeriaSystem/src/helpers/ticketStorage.ts:212-218 | the offline list becomes UpdateFirst of itself, and no other key changes |
| TicketStorage.UpdateOfflineTicket | TicketeriaSystem/src/helpers/ticketStorage.ts:209-241 | the storage becomes UpdatedOffline of the old storage |
| TicketStorage.UpdateOfflineList | TicketeriaSystem/src/helpers/ticketStorage.ts:212-218 | after the whole update the offline list is UpdateFirst of the old one |
| TicketStorage.UpdateOfflineQueue | TicketeriaSystem/src/helpers/ticketStorage.ts:209-241 | the update leaves the action queue as it was |
| TicketStorage.UpdateOfflineDetail | TicketeriaSystem/src/helpers/ticketStorage.ts:221-225 | cached details whose own id prints like the argument read back merged with the update |
| TicketStorage.UpdateOfflineRestampsList | TicketeriaSystem/src/helpers/ticketStorage.ts:228-235 | a cached list holding the ticket gets it merged and, by going through saveTicketsToStorage, a new `cachedAt` and a new last-sync stamp, the save's two clock readings |
| TicketStorage.RemovedOffline | TicketeriaSystem/src/helpers/ticketStorage.ts:244-253 | the offline list keeps, in order, exactly the tickets whose printed id differs; the key is written even when nothing matched |
| TicketStorage.RemoveOfflineTicket | TicketeriaSystem/src/helpers/ticketStorage.ts:244-253 | the storage becomes RemovedOffline of the old storage |
| TicketStorage.RemoveOfflineKeepsDetail | TicketeriaSystem/src/helpers/ticketStorage.ts:244-253 | removing an offline ticket leaves every ticket's details cache alone |
| TicketStorage.SaveThenRemoveOffline | TicketeriaSystem/src/helpers/ticketStorage.ts:182-253 | saving then removing a ticket by its printed id leaves it out of the list and keeps every other listed ticket |
| TicketStorage.OfflineIdIsOffline | TicketeriaSystem/src/helpers/ticketStorage.ts:121-123 | every generated id is recognised by isOfflineTicket |
| TicketStorage.ServerIdNotOffline | TicketeriaSystem/src/helpers/ticketStorage.ts:256-258 | a numeric server id is never taken for an offline one |
| TicketStorage.GetTicketsFromStorage | TicketeriaSystem/src/helpers/ticketStorage.ts:35-43 | definition: the cached list under the list key, or nothing when it is missing; SavedTickets states that a saved list reads back |
| TicketStorage.IsCacheValid | TicketeriaSystem/src/helpers/ticketStorage.ts:71-85 | definition: a truthy last-sync stamp that parses to a time less than `maxAge` minutes old; ValidAfterSave and InvalidAfterClear state it after a save and after a clear |
| TicketStorage.IsOfflineTicket | TicketeriaSystem/src/helpers/ticketStorage.ts:256-258 | definition: the id prints with the 'offline_' prefix; OfflineIdIsOffline and ServerIdNotOffline state which ids pass |
| TicketStorage.UpdatedOffline | TicketeriaSystem/src/helpers/ticketStorage.ts:209-241 | definition: the offline list, then the cached detail, then the cached list updated in turn; UpdateOfflineList, UpdateOfflineDetail, UpdateOfflineRestampsList and UpdateOfflineQueue state the result |
| StorageCache.SharedKeys | TicketeriaSystem/src/helpers/AsyncStorageCache.ts:5-10 | the list and last-sync keys are the ones ticketStorage uses |
| StorageCache.DetailKeysApart | TicketeriaSystem/src/helpers/AsyncStorageCache.ts:7 | this helper's detail keys never collide with ticketStorage's, nor share its prefix, and the other way round |
| StorageCache.DetailKeyDistinct | TicketeriaSystem/src/helpers/AsyncStorageCache.ts:5-10 | a detail key is none of the fixed keys of either helper and starts with the detail prefix |
| StorageCache.SavedList | TicketeriaSystem/src/helpers/AsyncStorageCache.ts:38-49 | the list reads back with `timestamp` set to the clock, and no other key changes |
| StorageCache.SaveTicketsList | TicketeriaSystem/src/helpers/AsyncStorageCache.ts:38-49 | the storage becomes SavedList of the old storage |
| StorageCache.ListSharedBetweenHelpers | TicketeriaSystem/src/helpers/AsyncStorageCache.ts:54-67 | either helper reads the list the other saved, with the other's stamp field set |
| StorageCache.SavedDetail | TicketeriaSystem/src/helpers/AsyncStorageCache.ts:72-84 | the ticket reads back under its id, and no other key changes |
| StorageCache.SaveTicketDetail | TicketeriaSystem/src/helpers/AsyncStorageCache.ts:72-84 | the storage becomes SavedDetail of the old storage |
| StorageCache.SavedPreferences | TicketeriaSystem/src/helpers/AsyncStorageCache.ts:108-115 | the preferences read back, and no other key changes |
| StorageCache.SaveUserPreferences | TicketeriaSystem/src/helpers/AsyncStorageCache.ts:108-115 | the storage becomes SavedPreferences of the old storage |
| StorageCache.ClearedCache | TicketeriaSystem/src/helpers/AsyncStorageCache.ts:136-151 | the list and every key with the detail prefix are gone; no other key changes |
| StorageCache.ClearTicketsCache | TicketeriaSystem/src/helpers/AsyncStorageCache.ts:136-151 | the storage becomes ClearedCache of the old storage |
| StorageCache.NoDetailAfterClear | TicketeriaSystem/src/helpers/AsyncStorageCache.ts:89-103 | after clearing no ticket detail reads back |
| StorageCache.ClearCacheKeeps | TicketeriaSystem/src/helpers/AsyncStorageCache.ts:136-151 | a key that is neither the list nor a detail key is kept with its value |
| StorageCache.ClearCacheAcrossHelpers | TicketeriaSystem/src/helpers/AsyncStorageCache.ts:136-151 | clearing here removes ticketStorage's list too, but keeps its details, its last sync, its queue and its offline tickets |
| StorageCache.TicketStorageClearKeepsCacheDetails | TicketeriaSystem/src/helpers/ticketStorage.ts:98-106 | ticketStorage's detail clearing keeps this helper's details |
| StorageCache.ClearedDetail | TicketeriaSystem/src/helpers/AsyncStorageCache.ts:156-164 | that ticket's detail is gone, and no other key changes |
| StorageCache.ClearTicketDetail | TicketeriaSystem/src/helpers/AsyncStorageCache.ts:156-164 | the storage becomes ClearedDetail of the old storage |
| StorageCache.UpdatedLastSync | TicketeriaSystem/src/helpers/AsyncStorageCache.ts:169-188 | getLastSync reads back the clock that was stored, and no other key changes |
| StorageCache.UpdateLastSync | TicketeriaSystem/src/helpers/AsyncStorageCache.ts:169-175 | the storage becomes UpdatedLastSync of the old storage |
| StorageCache.LastSyncAfterIsoStamp | TicketeriaSystem/src/helpers/AsyncStorageCache.ts:180-188 | after ticketStorage writes an ISO stamp, getLastSync returns only its year, since parseInt stops at the first '-' |
| StorageCache.FreshnessGap | TicketeriaSystem/src/helpers/AsyncStorageCache.ts:193-198 | at an age of exactly `maxAge` minutes the cache is neither valid for ticketStorage nor stale here |
| StorageCache.FreshnessComplement | TicketeriaSystem/src/helpers/AsyncStorageCache.ts:193-198 | at every other age exactly one of the two tests holds |
| StorageCache.LoadTicketDetail | TicketeriaSystem/src/helpers/AsyncStorageCache.ts:89-103 | definition: the `ticket` member of the entry under the detail key, or nothing; SavedDetail and NoDetailAfterClear state it after a save and a clear |
| StorageCache.GetLastSync | TicketeriaSystem/src/helpers/AsyncStorageCache.ts:180-188 | definition: `parseInt(stamp, 10)` of a non-empty stamp, NaN when no digit leads, nothing when missing; UpdatedLastSync and LastSyncAfterIsoStamp state what it reads back |
| StorageCache.IsCacheStale | TicketeriaSystem/src/helpers/AsyncStorageCache.ts:193-198 | definition: more than `maxAge` minutes have passed since the stamp; FreshnessGap and FreshnessComplement compare it with isCacheValid |
| OfflineQueue.EnqueuePendingAction | TicketeriaSystem/src/services/OfflineQueue.ts:20-44 | the row is appended with the next AUTOINCREMENT id, which is above every queued id and is returned; it carries the clock as createdAt, 0 attempts and no error |
| OfflineQueue.QueueOrderAll | TicketeriaSystem/src/services/OfflineQueue.ts:52-54 | `ORDER BY createdAt ASC` returns a permutation of the table, sorted by createdAt |
| OfflineQueue.EntityQueueIsSubsequence | TicketeriaSystem/src/services/OfflineQueue.ts:87-90 | the per-entity query is the full ordered queue with the other entity types filtered out |
| OfflineQueue.GetPendingActions | TicketeriaSystem/src/services/OfflineQueue.ts:49-77 | the actions are the table's rows in createdAt order |
| OfflineQueue.GetPendingActionsByEntity | TicketeriaSystem/src/services/OfflineQueue.ts:82-112 | the actions are the rows of that entity type in createdAt order; each is a queued row of that type |
| OfflineQueue.RemovePendingAction | TicketeriaSystem/src/services/OfflineQueue.ts:117-126 | the rows with that id are deleted and the others kept in order |
| OfflineQueue.RemoveOnlyThat | TicketeriaSystem/src/services/OfflineQueue.ts:120 | a row survives exactly when it has another id |
| OfflineQueue.UpdatePendingActionAttempt | TicketeriaSystem/src/services/OfflineQueue.ts:131-146 | the rows with that id get one more attempt and the error, or null; nothing else changes |
| OfflineQueue.AttemptCountsOne | TicketeriaSystem/src/services/OfflineQueue.ts:137-140 | a matching row differs only by attempts + 1 and the new error; another row is unchanged |
| OfflineQueue.ClearPendingActions | TicketeriaSystem/src/services/OfflineQueue.ts:151-160 | the table becomes empty |
| OfflineQueue.CountPendingActions | TicketeriaSystem/src/services/OfflineQueue.ts:165-175 | the count is the number of queued rows |
| OfflineQueue.CleanupFailedActions | TicketeriaSystem/src/services/OfflineQueue.ts:180-195 | the rows with at least `maxAttempts` attempts are deleted, and their number is returned |
| OfflineQueue.CleanupExact | TicketeriaSystem/src/services/OfflineQueue.ts:183-186 | a row survives exactly when it has fewer than `maxAttempts` attempts |
| OfflineSync.Calls | TicketeriaSystem/src/services/OfflineSyncService.ts:40-51 | a run makes at most one request per action |
| OfflineSync.CallsStep | TicketeriaSystem/src/services/OfflineSyncService.ts:40-51 | one more action adds exactly the requests of that action, after the others' |
| OfflineSync.SyncActionEffect | TicketeriaSystem/src/services/OfflineSyncService.ts:66-134 | an unknown type or a missing ticketId makes no request, and only an unknown type resolves; otherwise the next answer decides; only a created ticket with a localTicketId touches the store |
| OfflineSync.RunActionsStep | TicketeriaSystem/src/services/OfflineSyncService.ts:40-51 | one more action is one more turn of the loop on the tally so far |
| OfflineSync.TallyCounts | TicketeriaSystem/src/services/OfflineSyncService.ts:36-51 | every action is counted once, as a success or as a failure |
| OfflineSync.StepQueue | TicketeriaSystem/src/services/OfflineSyncService.ts:41-50 | after one turn the succeeded action is filtered out of the queue, and a failed one leaves the queue as it was |
| OfflineSync.KeepThenDrop | TicketeriaSystem/src/services/OfflineSyncService.ts:43 | filtering out a set of ids and then one more id is filtering out their union |
| OfflineSync.RunQueue | TicketeriaSystem/src/services/OfflineSyncService.ts:40-51 | after the loop the queue holds exactly the actions that did not go through, in their order |
| OfflineSync.StepScript | TicketeriaSystem/src/services/OfflineSyncService.ts:66-83 | a turn consumes one answer exactly when it makes a request |
| OfflineSync.RunScript | TicketeriaSystem/src/services/OfflineSyncService.ts:40-51 | the loop uses the first answers, one per request it makes |
| OfflineSync.OfflineTargetsNaN | TicketeriaSystem/src/services/OfflineSyncService.ts:103-134 | an update, status or comment action aimed at an offline ticket id is sent to `/tickets/NaN`, because `Number` of that id is NaN |
| OfflineSync.PendingCountAfterChanges | TicketeriaSystem/src/services/OfflineSyncService.ts:139-150 | queuing an action adds one to the count and makes hasPendingActions true; clearing the queue makes both zero |
| OfflineSync.OfflineSyncService.SyncAction | TicketeriaSystem/src/services/OfflineSyncService.ts:66-134 | the requests made and the effect on the store and the answers are SyncActionEffect's |
| OfflineSync.OfflineSyncService.SyncStep | TicketeriaSystem/src/services/OfflineSyncService.ts:41-50 | one turn of the loop performs NextTally: the action's requests, its removal on success, one more success or failure |
| OfflineSync.OfflineSyncService.ReplayActions | TicketeriaSystem/src/services/OfflineSyncService.ts:36-51 | the loop over the snapshot performs RunActions, in order, and makes exactly its requests |
| OfflineSync.OfflineSyncService.SyncAll | TicketeriaSystem/src/services/OfflineSyncService.ts:19-61 | while a sync runs another one returns 0 and 0 and touches nothing; otherwise the outcome is SyncAllRun on the queue read at the start, and the flag is cleared again |
| OfflineSync.PatchOf | TicketeriaSystem/src/services/OfflineSyncService.ts:109 | definition: `action.data` read as ticket fields; comment data carries none of them |
| OfflineSync.CallOf | TicketeriaSystem/src/services/OfflineSyncService.ts:66-134 | definition: no request for an unknown type or for a targeted action with a falsy ticketId; a create for a create; otherwise an update, a status-only update or a comment post to `Number(ticketId)`; SyncActionEffect, StepScript and OfflineTargetsNaN state its use |
| OfflineSync.RunActions | TicketeriaSystem/src/services/OfflineSyncService.ts:40-51 | definition: the loop over the actions, oldest first, one NextTally turn each; RunActionsStep, TallyCounts, RunQueue and RunScript state its outcome |
| OfflineSync.SyncAllRun | TicketeriaSystem/src/services/OfflineSyncService.ts:29-57 | definition: nothing on an empty queue; otherwise RunActions over the queue read at the start, then the AsyncStorage cache cleared; OfflineSyncService.SyncAll performs it |
| SyncService.SyncTicket | TicketeriaSystem/src/services/SyncService.ts:147-176 | one ticket turn sends a create for a `local_` ticket and an update otherwise; on an answer the rows are marked synced under the server id, on an error nothing changes |
| SyncService.SyncTicketList | TicketeriaSystem/src/services/SyncService.ts:147-177 | the loop over the unsynced tickets performs TicketsRun and sends one request per ticket, in order |
| SyncService.SyncTickets | TicketeriaSystem/src/services/SyncService.ts:136-182 | syncTickets reads the unsynced tickets first and then runs the loop over that snapshot |
| SyncService.SyncComment | TicketeriaSystem/src/services/SyncService.ts:198-206 | one comment turn posts `(ticketId, text)`; on an answer the rows with the comment's local id are marked synced, on an error nothing changes |
| SyncService.SyncCommentList | TicketeriaSystem/src/services/SyncService.ts:198-206 | the loop over the unsynced comments performs CommentsRun and sends one request per comment, in order |
| SyncService.SyncComments | TicketeriaSystem/src/services/SyncService.ts:187-211 | syncComments reads the unsynced comments first and then runs the loop over that snapshot |
| SyncService.ProcessAction | TicketeriaSystem/src/services/SyncService.ts:247-267 | a ticket create or update and a comment create send their request; on an answer the rows are marked synced, on an error the tables stay; every other action sends nothing and resolves |
| SyncService.ProcessOne | TicketeriaSystem/src/services/SyncService.ts:228-236 | one turn performs ActionAfter: a resolved action leaves the queue, a failed one gets an attempt and 'Unknown error' |
| SyncService.ProcessActionList | TicketeriaSystem/src/services/SyncService.ts:227-237 | the loop performs ActionsRun over the actions, in order, and sends their requests |
| SyncService.ProcessPendingActions | TicketeriaSystem/src/services/SyncService.ts:216-242 | processPendingActions runs the loop over the queue in createdAt order, as read at the start |
| SyncService.PushRecords | TicketeriaSystem/src/services/SyncService.ts:112-116 | the first two stages: unsynced tickets, then unsynced comments |
| SyncService.ReplayQueue | TicketeriaSystem/src/services/SyncService.ts:118-122 | the last two stages: the queue, then the cleanup of actions with 5 or more attempts |
| SyncService.PassCallsInOrder | TicketeriaSystem/src/services/SyncService.ts:112-122 | a pass sends the ticket requests, then the comment requests, then the queue's requests |
| SyncService.RunStages | TicketeriaSystem/src/services/SyncService.ts:109-124 | the four stages together perform PassRun and send PassCalls |
| SyncService.SyncService.AddSyncListener | TicketeriaSystem/src/services/SyncService.ts:66-68 | the listener is appended |
| SyncService.SyncService.RemoveSyncListener | TicketeriaSystem/src/services/SyncService.ts:73-75 | every registration of the listener is removed and the others stay in order |
| SyncService.SyncService.NotifyListeners | TicketeriaSystem/src/services/SyncService.ts:80-90 | one report of the current flags, the queue length and the ISO clock reading as `lastSync` is broadcast |
| SyncService.SyncService.GetSyncStatus | TicketeriaSystem/src/services/SyncService.ts:280-287 | the status holds the two flags and the queue length, and no `lastSync` stamp |
| SyncService.SyncService.SyncPendingData | TicketeriaSystem/src/services/SyncService.ts:95-131 | while syncing or offline nothing happens; otherwise one pass runs, the flag is set and cleared, and the listeners hear the queue length before and after, each report with its own clock reading |
| SyncService.SyncService.InitialConnection | TicketeriaSystem/src/services/SyncService.ts:57-60 | the online flag becomes the fetched connection state |
| SyncService.SyncService.OnConnectionChange | TicketeriaSystem/src/services/SyncService.ts:41-54 | the online flag follows the event; going from offline to online starts a pass; the listeners hear the pass's two reports and then one more, each with its own clock reading; a reconnect while a pass runs changes nothing but the flag and sends one report with isSyncing still set |
| SyncService.TicketsRunOffline | TicketeriaSystem/src/services/SyncService.ts:147-177 | when every request fails the ticket rows stay as they were |
| SyncService.CommentsRunOffline | TicketeriaSystem/src/services/SyncService.ts:198-206 | when every request fails the comment rows stay as they were |
| SyncService.ActionsRunOfflineTables | TicketeriaSystem/src/services/SyncService.ts:227-237 | when every request fails the queue pass leaves the tables alone |
| SyncService.PassOfflineKeepsRecords | TicketeriaSystem/src/services/SyncService.ts:109-124 | a pass in which every request fails keeps every ticket and comment row |
| SyncService.ActionsRunShrinks | TicketeriaSystem/src/services/SyncService.ts:227-237 | the queue never grows during the pass |
| SyncService.ActionsRunKeepsAbsent | TicketeriaSystem/src/services/SyncService.ts:227-237 | an id absent from the queue stays absent |
| SyncService.SilentActionsLeave | TicketeriaSystem/src/services/SyncService.ts:263-266 | an action that sends nothing, such as any attachment action, leaves the queue on its turn |
| SyncService.OtherTurnKeeps | TicketeriaSystem/src/services/SyncService.ts:228-236 | another action's turn keeps a queued row |
| SyncService.OfflineActionsCounted | TicketeriaSystem/src/services/SyncService.ts:232-235 | when every request fails each sending action stays queued with one more attempt and 'Unknown error' |
| SyncService.KeptThroughOthers | TicketeriaSystem/src/services/SyncService.ts:227-237 | a row no turn is about is still queued after the loop |
| SyncService.SyncedLocalTicketIsCreatedAgain | TicketeriaSystem/src/services/SyncService.ts:150-160 | a `local_` ticket that was synced and then edited offline is sent again as a create, since its localId still starts with `local_` |
| SyncService.CommentPostedWithStoredTicketId | TicketeriaSystem/src/services/SyncService.ts:198-201 | each unsynced comment is posted in the pass, to the ticket id stored in its row |
| SyncService.TicketCall | TicketeriaSystem/src/services/SyncService.ts:150-172 | definition: a create of the row's fields for a `local_` ticket, an update of its id otherwise; SyncTicket and SyncedLocalTicketIsCreatedAgain state its use |
| SyncService.TicketsRun | TicketeriaSystem/src/services/SyncService.ts:147-177 | definition: one SyncTicket turn per unsynced ticket, in order; TicketsRunOffline states that failed requests change nothing |
| SyncService.CommentsRun | TicketeriaSystem/src/services/SyncService.ts:198-206 | definition: one SyncComment turn per unsynced comment, in order; CommentsRunOffline states that failed requests change nothing |
| SyncService.ActionAfter | TicketeriaSystem/src/services/SyncService.ts:228-236 | definition: a resolved action leaves the queue; a failed one stays with one more attempt and 'Unknown error'; OtherTurnKeeps and SilentActionsLeave state its effect on the queue |
| SyncService.ActionsRun | TicketeriaSystem/src/services/SyncService.ts:227-237 | definition: one ActionAfter turn per queued action, in order; ActionsRunShrinks, ActionsRunKeepsAbsent, KeptThroughOthers and OfflineActionsCounted state its outcome |
| SyncService.PassRun | TicketeriaSystem/src/services/SyncService.ts:109-124 | definition: the ticket, comment, queue and cleanup stages in order; RunStages proves the four stages perform it, and PassOfflineKeepsRecords states an offline pass |
| Session.Nullish | TicketeriaSystem/src/hooks/tickets/useAddComment.ts:41-43 | `user?.part ?? fallback`: the fallback exactly when there is no user, else the part, even an empty one |
| Session.Falsy | TicketeriaSystem/src/hooks/tickets/useCreateTicket.ts:71-73 | `user?.part \|\| fallback`: the part when there is a user and the part is not empty, else the fallback |
| CreateTicketHook.OnlineCreate | TicketeriaSystem/src/hooks/tickets/useCreateTicket.ts:42-54 | online, the next answer decides: an error leaves the storage alone and is reported; a success clears the ticket cache and hands `ticket.id` on only when it is truthy |
| CreateTicketHook.CreateTicket.Mutate | TicketeriaSystem/src/hooks/tickets/useCreateTicket.ts:31-113 | online it sends one create with the form's fields and then behaves as OnlineCreate; offline it sends nothing, stores OfflineCreate and reports the offline id; `isPending` ends false |
| CreateTicketHook.OfflineCreateFiles | TicketeriaSystem/src/hooks/tickets/useCreateTicket.ts:55-92 | offline the ticket joins the offline list and the detail cache under an id isOfflineTicket recognises, and a create action is queued at the end |
| CreateTicketHook.OfflineCreatePrepends | TicketeriaSystem/src/hooks/tickets/useCreateTicket.ts:80-85 | a cached list gets the offline ticket at its head and the list save's `cachedAt` reading; without a cached list none appears |
| CreateTicketHook.QueuedCreateReplaysOnline | TicketeriaSystem/src/hooks/tickets/useCreateTicket.ts:88-92 | replaying the queued create sends the form once and, on success, removes the offline ticket from the offline list |
| CreateTicketHook.OfflineTicket | TicketeriaSystem/src/hooks/tickets/useCreateTicket.ts:57-75 | definition: the offline id, the form's fields, status 'open', the clock as both stamps, no comments or attachments, and the author with the `||` fallbacks '0', 'Você' and '' |
| CreateTicketHook.Prepended | TicketeriaSystem/src/hooks/tickets/useCreateTicket.ts:80-85 | definition: a cached list gets the ticket in front and is saved again; with no list nothing changes; OfflineCreatePrepends states it |
| CreateTicketHook.OfflineCreate | TicketeriaSystem/src/hooks/tickets/useCreateTicket.ts:55-92 | definition: the ticket saved offline, then put in front of the cached list, then the create action queued; OfflineCreateFiles, OfflineCreatePrepends and QueuedCreateReplaysOnline state the result |
| AddCommentHook.OnlineAdd | TicketeriaSystem/src/hooks/tickets/useAddComment.ts:35-51 | online, an error leaves the storage alone and fails; a success clears the ticket's detail cache under `Number(ticketId)` |
| AddCommentHook.AddComment.Mutate | TicketeriaSystem/src/hooks/tickets/useAddComment.ts:26-94 | online and for a server ticket it sends one comment and behaves as OnlineAdd; otherwise it sends nothing, stores OfflineAdd, with the later clock reading of the detail save, and succeeds; `isPending` ends false |
| AddCommentHook.OfflineAddQueues | TicketeriaSystem/src/hooks/tickets/useAddComment.ts:53-70 | offline an addComment action with the new comment is queued at the end, and the comment's id starts with `offline_comment_` |
| AddCommentHook.OfflineAddAppends | TicketeriaSystem/src/hooks/tickets/useAddComment.ts:72-80 | a cached detail gets the comment after its others; without one none appears |
| AddCommentHook.OfflineTicketCommentHitsNaN | TicketeriaSystem/src/hooks/tickets/useAddComment.ts:66-70 | replaying a comment on an offline ticket posts it to `/tickets/NaN/comments` |
| AddCommentHook.OfflineTicketStaysLocal | TicketeriaSystem/src/hooks/tickets/useAddComment.ts:33-35 | a comment on an offline ticket always takes the local path, even online |
| AddCommentHook.CommentsNeverReachServer | TicketeriaSystem/src/hooks/tickets/useAddComment.ts:37-45 | the comment object the hook sends, online or replayed, fails the mock server's text check, because `text` is an object there |
| AddCommentHook.TakesApiPath | TicketeriaSystem/src/hooks/tickets/useAddComment.ts:33-35 | definition: online and the ticket id not an offline one; OfflineTicketStaysLocal states that an offline ticket never takes it |
| AddCommentHook.OfflineAdd | TicketeriaSystem/src/hooks/tickets/useAddComment.ts:53-80 | definition: the addComment action queued first, then the comment appended to the cached detail when there is one, saved with its own `Date.now()` reading; OfflineAddQueues and OfflineAddAppends state the result |
| UpdateTicketHook.OnlineUpdate | TicketeriaSystem/src/hooks/tickets/useUpdateTicket.ts:31-41 | online, an error leaves the storage alone and fails; a success clears the ticket's detail and the list |
| UpdateTicketHook.UpdateTicket.Mutate | TicketeriaSystem/src/hooks/tickets/useUpdateTicket.ts:24-72 | online and for a server ticket it sends one update to `Number(ticketId)` and behaves as OnlineUpdate; otherwise it sends nothing, stores OfflineUpdate and succeeds |
| UpdateTicketHook.OnlineUpdateDropsCaches | TicketeriaSystem/src/hooks/tickets/useUpdateTicket.ts:37-39 | after a successful online update neither the list nor any detail reads back from the cache |
| UpdateTicketHook.OfflineUpdateMergesAndQueues | TicketeriaSystem/src/hooks/tickets/useUpdateTicket.ts:42-51 | offline the first listed offline ticket with that id is merged with the update, and an update action is queued at the end |
| UpdateTicketHook.OfflineTicketEditHitsNaN | TicketeriaSystem/src/hooks/tickets/useUpdateTicket.ts:47-51 | replaying an edit of an offline ticket sends it to `/tickets/NaN` |
| UpdateTicketHook.ServerTicketGoesOnline | TicketeriaSystem/src/hooks/tickets/useUpdateTicket.ts:29-33 | a numeric id takes the online path and is sent as that number |
| UpdateTicketHook.OfflineUpdate | TicketeriaSystem/src/hooks/tickets/useUpdateTicket.ts:42-51 | definition: updateOfflineTicket first, then the update action queued; OfflineUpdateMergesAndQueues states the result |
| UpdateStatusHook.NoHits | TicketeriaSystem/src/hooks/tickets/useUpdateTicketStatus.ts:27-28 | with no row matching the id or local id, the local lookup finds nothing |
| UpdateStatusHook.UpdateTicketStatus.Mutate | TicketeriaSystem/src/hooks/tickets/useUpdateTicketStatus.ts:21-62 | the local row is updated first; when connected one status update is sent; the rows become StatusRows; the hook always reports success |
| UpdateStatusHook.StatusRowsOutcome | TicketeriaSystem/src/hooks/tickets/useUpdateTicketStatus.ts:27-43 | only the matching rows change: they become pending, keep their ids, take the server's status when the update came back, else the chosen one, and the stamp of the later write |
| UpdateStatusHook.NoLocalRecordNoChange | TicketeriaSystem/src/hooks/tickets/useUpdateTicketStatus.ts:27-38 | with no local row nothing changes locally, whatever the server answers |
| UpdateStatusHook.LocalStep | TicketeriaSystem/src/hooks/tickets/useUpdateTicketStatus.ts:27-30 | definition: when a row has the id, every matching row gets that row's own fields with the new status; otherwise nothing changes |
| UpdateStatusHook.StatusRows | TicketeriaSystem/src/hooks/tickets/useUpdateTicketStatus.ts:27-43 | definition: the local step, then, when connected and the server accepts, the answer's fields written over the matching rows; StatusRowsOutcome and NoLocalRecordNoChange state the result |
| TicketDetailsHook.FetchedTicket | TicketeriaSystem/src/hooks/tickets/useTicketDetails.ts:85 | the fetch succeeds exactly when the answer is a ticket; the error for another answer exists only because the oracle's answers are a union of shapes |
| TicketDetailsHook.FromList | TicketeriaSystem/src/hooks/tickets/useTicketDetails.ts:47-50 | a list hit is a ticket of the cached list whose id prints like the argument |
| TicketDetailsHook.Fetched | TicketeriaSystem/src/hooks/tickets/useTicketDetails.ts:20-145 | after fetchData the screen is never loading |
| TicketDetailsHook.TicketDetails.FallBack | TicketeriaSystem/src/hooks/tickets/useTicketDetails.ts:102-135 | after a failed fetch with no cache hit the state and the storage are Fallback's and FallbackEntries' |
| TicketDetailsHook.TicketDetails.FetchData | TicketeriaSystem/src/hooks/tickets/useTicketDetails.ts:20-145 | the new state, storage, answers and requests are Fetched's |
| TicketDetailsHook.OfflineNeverFetches | TicketeriaSystem/src/hooks/tickets/useTicketDetails.ts:21-67 | a missing or offline id sends no request; a missing id only stops loading |
| TicketDetailsHook.OnlineFetchesOnce | TicketeriaSystem/src/hooks/tickets/useTicketDetails.ts:82-92 | any other id sends exactly one fetch |
| TicketDetailsHook.AnswerWins | TicketeriaSystem/src/hooks/tickets/useTicketDetails.ts:83-92 | a fetched ticket is shown, not marked cached, and saved to the detail cache |
| TicketDetailsHook.CacheHitSurvivesFailure | TicketeriaSystem/src/hooks/tickets/useTicketDetails.ts:69-100 | with a cache hit a failed fetch keeps the cached ticket and shows no error |
| TicketDetailsHook.ErrorIffAllMiss | TicketeriaSystem/src/hooks/tickets/useTicketDetails.ts:20-145 | the error shows exactly when every source misses; otherwise a ticket is shown |
| TicketDetailsHook.ListHitIsCopied | TicketeriaSystem/src/hooks/tickets/useTicketDetails.ts:45-59 | a ticket found only in the list is shown from cache and copied to the detail cache |
| Query.LeTotal | TicketeriaSystem/src/services/SQLiteService/getTicketsLocally.ts:43 | text order is total |
| Query.LeTrans | TicketeriaSystem/src/services/SQLiteService/getTicketsLocally.ts:43 | text order is transitive |
| Query.InOrderTotal | TicketeriaSystem/src/services/SQLiteService/getTicketsLocally.ts:43 | the ascending or descending order of a column is total |
| Query.InOrderTrans | TicketeriaSystem/src/services/SQLiteService/getTicketsLocally.ts:43 | the ascending or descending order of a column is transitive |
| Query.Filter | TicketeriaSystem/src/services/SQLiteService/getTicketsLocally.ts:20-33 | a WHERE keeps exactly the rows that meet it, and no more rows than there were |
| Query.FilterMultiset | TicketeriaSystem/src/services/SQLiteService/getTicketsLocally.ts:20-33 | a WHERE adds no row |
| Query.FilterAll | TicketeriaSystem/src/services/SQLiteService/getTicketsLocally.ts:20-33 | a WHERE every row meets keeps the table |
| Query.FilterConcat | TicketeriaSystem/src/services/SQLiteService/getTicketsLocally.ts:20-33 | a WHERE over two runs of rows is the WHERE of each, in order |
| Query.FilterFilter | TicketeriaSystem/src/services/SQLiteService/getTicketsLocally.ts:20-33 | two WHERE clauses in turn are their conjunction |
| Query.FilterIdempotent | TicketeriaSystem/src/services/SQLiteService/getTicketsLocally.ts:20-33 | applying a WHERE twice is applying it once |
| Query.MapWhere | TicketeriaSystem/src/services/SQLiteService/updateTicketLocally.ts:52-55 | an UPDATE ... WHERE changes exactly the matching rows and keeps the table's length |
| Query.FilterSnoc | TicketeriaSystem/src/services/SQLiteService/getTicketsLocally.ts:20-33 | one more row at the end is kept at the end exactly when it meets the WHERE |
| Query.UpsertKeys | TicketeriaSystem/src/services/SQLiteService/saveTicketLocally.ts:16-34 | INSERT OR REPLACE keeps the key unique, puts the new row last, and keeps every row with another key |
| Query.FilterStrictIndex | TicketeriaSystem/src/services/SQLiteService/getTicketsLocally.ts:20-33 | rows kept in one order were in that order before |
| Query.FilterOrder | TicketeriaSystem/src/services/SQLiteService/getTicketsLocally.ts:20-33 | every row kept meets the WHERE |
| Query.UpsertTwice | TicketeriaSystem/src/services/SQLiteService/saveTicketLocally.ts:16-34 | two INSERT OR REPLACE with the same key leave only the second row |
| Query.FilterSame | TicketeriaSystem/src/services/SQLiteService/getTicketsLocally.ts:20-33 | two equivalent WHERE clauses keep the same rows |
| Query.FilterUnique | TicketeriaSystem/src/services/SQLiteService/getTicketsLocally.ts:20-33 | a WHERE keeps a key unique |
| Query.UniqueAppend | TicketeriaSystem/src/services/SQLiteService/saveCommentLocally.ts:14-31 | appending a row with a new key keeps the key unique |
| Query.MapWhereKeepsKeys | TicketeriaSystem/src/services/SQLiteService/updateTicketLocally.ts:52-55 | an UPDATE that does not touch the key keeps it unique |
| Query.RekeyUnique | TicketeriaSystem/src/services/SQLiteService/markTicketAsSynced.ts:9-12 | an UPDATE that sets the key of the matching rows keeps it unique when no clash arises |
| Query.InsertMultiset | TicketeriaSystem/src/services/SQLiteService/getTicketsLocally.ts:43 | inserting into the sorted output adds exactly that row |
| Query.InsertSorted | TicketeriaSystem/src/services/SQLiteService/getTicketsLocally.ts:43 | inserting into sorted rows keeps them sorted, and the head is the new row or the old head |
| Query.OrderBySorted | TicketeriaSystem/src/services/SQLiteService/getTicketsLocally.ts:43 | ORDER BY sorts the rows |
| Query.OrderByPermutation | TicketeriaSystem/src/services/SQLiteService/getTicketsLocally.ts:43 | ORDER BY is a permutation of the rows |
| Query.OrderByLength | TicketeriaSystem/src/services/SQLiteService/getTicketsLocally.ts:43 | ORDER BY keeps the number of rows |
| Query.OrderByMembers | TicketeriaSystem/src/services/SQLiteService/getTicketsLocally.ts:43 | ORDER BY keeps exactly the rows it was given |
| Query.FilterCons | TicketeriaSystem/src/services/SQLiteService/getTicketsLocally.ts:20-33 | one more row at the front is kept at the front exactly when it meets the WHERE |
| Query.FilterHeadAfter | TicketeriaSystem/src/services/SQLiteService/getTicketsLocally.ts:20-43 | a WHERE over sorted rows does not bring a row that sorts before the inserted one to the front |
| Query.InsertFilterFront | TicketeriaSystem/src/services/SQLiteService/getTicketsLocally.ts:20-43 | a row inserted at the front and then filtered is the filtered rows with it inserted, when it meets the WHERE |
| Query.SortedTail | TicketeriaSystem/src/services/SQLiteService/getTicketsLocally.ts:43 | the rest of sorted rows is sorted |
| Query.InsertFilter | TicketeriaSystem/src/services/SQLiteService/getTicketsLocally.ts:20-43 | inserting and then filtering is filtering and then inserting, when the row meets the WHERE |
| Query.FilterBehindStep | TicketeriaSystem/src/services/SQLiteService/getTicketsLocally.ts:20-43 | inserting behind the head and filtering keeps the head first when it meets the WHERE |
| Query.FilterFirst | TicketeriaSystem/src/services/SQLiteService/getTicketsLocally.ts:20-33 | a WHERE looks at the head and then the rest |
| Query.InsertFilterBehind | TicketeriaSystem/src/services/SQLiteService/getTicketsLocally.ts:20-43 | the step of InsertFilter for a row that goes behind the head |
| Query.InsertUnfoldBehind | TicketeriaSystem/src/services/SQLiteService/getTicketsLocally.ts:43 | a row that sorts after the head is inserted into the rest |
| Query.OrderByFilter | TicketeriaSystem/src/services/SQLiteService/getTicketsLocally.ts:20-43 | ORDER BY after WHERE is WHERE after ORDER BY, so the filtered page is the sorted table's filtered rows |
| Query.FilterCount | TicketeriaSystem/src/services/SQLiteService/getTicketsLocally.ts:35-37 | a WHERE and its negation split the rows between them |
| Query.LimitOffset | TicketeriaSystem/src/services/SQLiteService/getTicketsLocally.ts:41-46 | LIMIT and OFFSET keep the rows from the offset on, at most `limit` of them |
| Query.SliceBound | api-mock/src/server.ts:93-95 | a slice bound is clamped to the length, and a bound within it is kept |
| Query.Slice | api-mock/src/server.ts:93-95 | `slice(start, end)` keeps the elements between the two clamped bounds |
| MockServer.FindIndex | api-mock/src/server.ts:189 | `findIndex` by id: the first ticket with the parsed id, or none exactly when no ticket has it |
| MockServer.PageCountOf | api-mock/src/server.ts:102 | with a positive limit, `Math.ceil(total / limit)` pages: 0 for no tickets, else just enough pages to hold them |
| MockServer.PageData | api-mock/src/server.ts:91-95 | with a page and a limit of at least 1, the page holds the tickets from `(page - 1) * limit` on, at most `limit` of them |
| MockServer.GetTicket | api-mock/src/server.ts:113-128 | 404 exactly when no ticket has the parsed id; a 200 carries a stored ticket with that id |
| MockServer.GetComments | api-mock/src/server.ts:274-290 | 404 exactly when no ticket has the parsed id; a 200 carries that ticket's comments |
| MockServer.CreateError | api-mock/src/server.ts:137-151 | no error exactly when the title has 5 characters, the description 10 and the category is present; otherwise the first failing check's message, in that order |
| MockServer.MaxId | api-mock/src/server.ts:155 | `Math.max(...ids, 0)`: at least every id, and 0 or one of them |
| MockServer.NewTicket | api-mock/src/server.ts:154-170 | the new id is above every stored id, and 1 for an empty table; the ticket is open with no comments or attachments, and priority 'medium' when none or an empty one is given; createdAt and updatedAt are the handler's two clock readings |
| MockServer.Merged | api-mock/src/server.ts:196-200 | each field the body gives (title, description, category, priority, status) replaces the stored one and each it leaves out is kept; the id, creation stamp, author, comments and attachments stay, and updatedAt is set; an empty body changes nothing else |
| MockServer.FindUser | api-mock/src/server.ts:316 | the first user with that address, or none exactly when no user has it |
| MockServer.RegisterError | api-mock/src/server.ts:299-319 | no error exactly when the name has 2 characters, the address an '@', the password 6 characters and the address is not taken; a short or missing name is reported first |
| MockServer.Login | api-mock/src/server.ts:344-373 | 400 exactly when the address or the password is missing or empty; a 200 carries the user without the password |
| MockServer.Server.CreateTicket | api-mock/src/server.ts:131-180 | an invalid body gets 400 with CreateError's message and changes nothing; a valid one appends NewTicket, stamped with the two given clock readings, and answers 201 with it; the ids stay unique |
| MockServer.Server.UpdateTicket | api-mock/src/server.ts:183-209 | an unknown id gets 404 and changes nothing; otherwise the first ticket with the id becomes Merged and is returned with 200 |
| MockServer.Server.DeleteTicket | api-mock/src/server.ts:212-231 | an unknown id gets 404; otherwise the first ticket with the id is spliced out and the answer is 204 |
| MockServer.Server.AddComment | api-mock/src/server.ts:234-271 | an unknown ticket gets 404; a text that is not a string makes `trim` throw and gives 500; an empty or blank one gives 400; otherwise the comment is appended and answered with 201, and the ticket's updatedAt takes the clock reading made after the comment's |
| MockServer.Server.Register | api-mock/src/server.ts:293-341 | an invalid body gets 400 with RegisterError's message; a valid one appends the user and answers 201 without the password |
| MockServer.RemoveKeepsUnique | api-mock/src/server.ts:223 | splicing out a ticket keeps the ids unique |
| MockServer.FilteredIsMatches | api-mock/src/server.ts:60-75 | the status filter and then the search filter keep exactly the tickets that pass both; the search lowers text as `toLowerCase` does for characters up to U+00FF, so 'MANUTENÇÃO' finds 'manutenção' |
| MockServer.SameTest | api-mock/src/server.ts:60-75 | two equivalent tests keep the same tickets |
| MockServer.ListOrder | api-mock/src/server.ts:77-88 | the listed tickets are a permutation of the matches, sorted newest first by default or oldest first on request; any other sort keeps the stored order |
| MockServer.PagePosition | api-mock/src/server.ts:91-95 | with limit `l`, the k-th ticket sits at position k mod l of page k div l + 1 |
| MockServer.PageParams | api-mock/src/server.ts:58 | the page and limit written as decimal text are read back as those numbers |
| MockServer.EveryTicketOnItsPage | api-mock/src/server.ts:52-110 | every listed ticket appears on the page where its position puts it |
| MockServer.DeleteRemovesExactly | api-mock/src/server.ts:217-223 | with unique ids, splicing out the found ticket is filtering out its id |
| MockServer.KeptBefore | api-mock/src/server.ts:217 | no ticket before the found one has the id |
| MockServer.KeptAfter | api-mock/src/server.ts:217-223 | with unique ids no ticket after the found one has the id |
| MockServer.ObjectTextThrows | api-mock/src/server.ts:246 | a comment text that is not a string fails the text check by throwing |
| MockServer.FindUserAppend | api-mock/src/server.ts:316-330 | a user registered under a new address is found at the end |
| MockServer.RegisterThenLogin | api-mock/src/server.ts:293-373 | right after a registration the same address and password log in as the new user, with the token `mock_token_<id>_<clock>` |
| MockServer.LoginIff | api-mock/src/server.ts:344-373 | with unique addresses, login answers 200 exactly when both credentials are present and some user has that address and password |
| MockServer.SearchHit | api-mock/src/server.ts:66-74 | definition: the lowered search text occurs in the lowered title, in the id's decimal text or in the lowered description; FilteredIsMatches states what the search keeps |
| MockServer.Matches | api-mock/src/server.ts:60-74 | definition: each truthy filter holds, the status equal and the search a hit; an absent or empty filter does not apply |
| MockServer.Filtered | api-mock/src/server.ts:60-74 | definition: the status filter when it is truthy, then the search filter when it is truthy; FilteredIsMatches proves it keeps exactly the Matches tickets, in stored order |
| MockServer.Ordered | api-mock/src/server.ts:76-88 | definition: the filtered tickets by createdAt, newest first for the default 'createdAt_desc', oldest first for 'createdAt_asc', stored order for any other mode; ListOrder proves it a sorted permutation of the matches |
| MockServer.ListTickets | api-mock/src/server.ts:52-110 | definition: status 200 with the page of the ordered tickets, their total, the page and limit read by `parseInt` (defaults '1' and '20') and the page count; PageData, PageCountOf, PagePosition and EveryTicketOnItsPage state the paging |
| MockServer.CommentTextOk | api-mock/src/server.ts:246 | definition: a missing, empty or blank text fails, and a text that is not a string makes `trim` throw; ObjectTextThrows and Server.AddComment state the answers |
| MockServer.NewComment | api-mock/src/server.ts:250-259 | definition: the clock as id and stamp, the text, and the fixed current-user author; Server.AddComment states that it is stored and returned |
| MockServer.Commented | api-mock/src/server.ts:261-262 | definition: the comment goes after the ticket's comments and updatedAt becomes the given stamp, a reading of its own; Server.AddComment states the new table |
| MockServer.NewUser | api-mock/src/server.ts:322-328 | definition: id `user_<clock>`, the body's name, address and password, the clock as createdAt; FindUserAppend and RegisterThenLogin state what the stored user allows |
| ToastStore.Store.ShowToast | TicketeriaSystem/src/stores/useToastStore.ts:22-38 | the toast is appended with the duration given, or 3000; a removal is scheduled after that duration exactly when it is positive |
| ToastStore.Store.HideToast | TicketeriaSystem/src/stores/useToastStore.ts:40-44 | the toasts become Hidden of the old ones |
| ToastStore.Store.ClearAll | TicketeriaSystem/src/stores/useToastStore.ts:46-48 | no toast is left |
| ToastStore.HiddenExactly | TicketeriaSystem/src/stores/useToastStore.ts:42 | hiding keeps exactly the toasts with another id, and drops as many as have that id |
| ToastStore.FilterComplement | TicketeriaSystem/src/stores/useToastStore.ts:42 | the toasts with and without an id split the list between them |
| ToastStore.HideIdempotent | TicketeriaSystem/src/stores/useToastStore.ts:40-44 | hiding twice is hiding once |
| ToastStore.ShowThenHide | TicketeriaSystem/src/stores/useToastStore.ts:22-44 | showing a toast with a fresh id and hiding it gives back the old list |
| ToastStore.HidesCommute | TicketeriaSystem/src/stores/useToastStore.ts:40-44 | hiding two ids in either order gives the same list |
| ExportService.StatusLabel | TicketeriaSystem/src/services/ExportService.ts:11-19 | the label differs from the status exactly when the status is one of the four known ones |
| ExportService.PriorityLabel | TicketeriaSystem/src/services/ExportService.ts:21-29 | the label differs from the priority exactly when the priority is one of the four known ones |
| ExportService.DoubleQuotes | TicketeriaSystem/src/services/ExportService.ts:164-165 | doubling the quotes never shortens the text |
| ExportService.Rows | TicketeriaSystem/src/services/ExportService.ts:63-75 | one table row per ticket, in order |
| ExportService.QuotedRoundTrip | TicketeriaSystem/src/services/ExportService.ts:164-165 | a CSV reader gets back the title or description from its quoted field, and stops right after it |
| ExportService.CsvLines | TicketeriaSystem/src/services/ExportService.ts:160-177 | no tickets give the header alone; one more ticket adds a newline and its line |
| ExportService.CsvStartsWithHeader | TicketeriaSystem/src/services/ExportService.ts:171-174 | the CSV always starts with the header |
| ExportService.RowsInOrder | TicketeriaSystem/src/services/ExportService.ts:63-75 | one more ticket adds its row after the others |
| ExportService.PdfStatesCount | TicketeriaSystem/src/services/ExportService.ts:112 | the document states the number of tickets |
| ExportService.Quoted | TicketeriaSystem/src/services/ExportService.ts:164-165 | definition: the text between double quotes with each quote doubled; QuotedRoundTrip proves a CSV reader gets the text back |
| ExportService.Join | TicketeriaSystem/src/services/ExportService.ts:171-174 | definition: `join(sep)`, the parts with `sep` between neighbours; CsvLines states the newline join one line at a time |
| ExportService.CsvLine | TicketeriaSystem/src/services/ExportService.ts:162-173 | definition: the id, the quoted title and description, the two labels and the formatted date, joined by commas |
| ExportService.GenerateCsv | TicketeriaSystem/src/services/ExportService.ts:160-177 | definition: the header, then one CsvLine per ticket in order, joined by newlines; CsvStartsWithHeader and CsvLines state its shape |
| ExportService.RowHtml | TicketeriaSystem/src/services/ExportService.ts:65-73 | definition: one table row with the id, the title unescaped, the two labels and the formatted date, each in a cell |
| ExportService.GeneratePdfHtml | TicketeriaSystem/src/services/ExportService.ts:62-136 | definition: the fixed head, the count paragraph, the generation time, the rows in order and the fixed tail; PdfStatesCount and RowsInOrder state the count and the row order |
| CreateTicketScreen.FindPriority | TicketeriaSystem/src/pages/Ticketeria/CreateTicket/index.tsx:87 | `priorities.find` by value: the first entry with that value, or none exactly when no entry has it |
| CreateTicketScreen.Screen.Validate | TicketeriaSystem/src/pages/Ticketeria/CreateTicket/index.tsx:49-64 | the errors become ErrorsOf the form, and the result says whether there are none |
| CreateTicketScreen.Screen.HandleSubmit | TicketeriaSystem/src/pages/Ticketeria/CreateTicket/index.tsx:66-85 | the form's four fields are handed to the create hook exactly when validation passes |
| CreateTicketScreen.ValidIff | TicketeriaSystem/src/pages/Ticketeria/CreateTicket/index.tsx:52-60 | a title message exactly when the title has fewer than 5 characters, a description message below 10, a category message when none is chosen; valid exactly when none applies |
| CreateTicketScreen.ErrorsOf | TicketeriaSystem/src/pages/Ticketeria/CreateTicket/index.tsx:49-60 | definition: one message per failing field; ValidIff states each flag's condition |
| CreateTicketScreen.DisabledImpliesInvalid | TicketeriaSystem/src/pages/Ticketeria/CreateTicket/index.tsx:209 | when the button is disabled, validation would fail too |
| CreateTicketScreen.PriorityLabels | TicketeriaSystem/src/pages/Ticketeria/CreateTicket/index.tsx:42-47 | the four priorities have their labels, and any other value is shown as it is |
| CreateTicketScreen.SubmittedFormAccepted | TicketeriaSystem/src/pages/Ticketeria/CreateTicket/index.tsx:66-85 | the fields of a form the screen submits pass the mock server's create checks when they reach it as a JSON body |
| CreateTicketScreen.SubmittedFormRefusedAsMultipart | TicketeriaSystem/src/services/TicketApi.ts:93-114 | the create request carries the submitted fields as multipart form data; the mock server parses JSON bodies only and, with the body parser of Express 4, reads a body without fields, so it answers 400 with the title message whatever the form held |
| CreateTicketScreen.CriticalLabelledOnlyHere | TicketeriaSystem/src/pages/Ticketeria/CreateTicket/index.tsx:46 | the screen labels 'critical', but the export service shows it as it is |
| RegisterScreen.Screen.ValidateForm | TicketeriaSystem/src/pages/Auth/Register/index.tsx:53-82 | the errors become ErrorsOf the form, and the result says whether there are none |
| RegisterScreen.Screen.HandleRegister | TicketeriaSystem/src/pages/Auth/Register/index.tsx:84-99 | `register` gets the whole form exactly when validation passes; the screen goes back only when it succeeds; `loading` is not left set |
| RegisterScreen.Screen.UpdateField | TicketeriaSystem/src/pages/Auth/Register/index.tsx:105-108 | the field takes the value and that field's message is cleared |
| RegisterScreen.ValidIff | TicketeriaSystem/src/pages/Auth/Register/index.tsx:53-82 | valid exactly when the trimmed name has 2 characters, the address is not blank and matches the pattern, the password has 6 characters and the confirmation repeats it |
| RegisterScreen.ErrorsOf | TicketeriaSystem/src/pages/Auth/Register/index.tsx:53-82 | definition: the first failing check's message per field; FieldMessages and ValidIff state each condition |
| RegisterScreen.FieldMessages | TicketeriaSystem/src/pages/Auth/Register/index.tsx:56-78 | each field gets its "missing" message exactly when it is empty, and its second message exactly when it is present but malformed |
| RegisterScreen.RequirementsAgreeWithValidation | TicketeriaSystem/src/pages/Auth/Register/index.tsx:48-51 | both hints are on exactly when neither password field has a message, and the length hint follows the password's own check |
| RegisterScreen.UpdateFieldOnlyTouchesField | TicketeriaSystem/src/pages/Auth/Register/index.tsx:105-108 | the edit changes only that field and clears only its message |
| RegisterScreen.ServerChecksPass | api-mock/src/server.ts:299-319 | a body with a 2-character name, an address with '@' and a 6-character password is rejected only for a taken address |
| RegisterScreen.SentFormAccepted | TicketeriaSystem/src/pages/Auth/Register/index.tsx:84-91 | a form the screen sends passes the mock server's name, address and password checks; only a taken address is left to refuse it |
| LoginScreen.Screen.ValidateForm | TicketeriaSystem/src/pages/Auth/Login/index.tsx:53-70 | the errors become ErrorsOf the inputs, and the result says whether there are none |
| LoginScreen.Screen.HandleLogin | TicketeriaSystem/src/pages/Auth/Login/index.tsx:72-86 | `login` gets the trimmed address, the password as typed and `true` exactly when validation passes; `loading` is not left set |
| LoginScreen.Screen.EditEmail | TicketeriaSystem/src/pages/Auth/Login/index.tsx:130-133 | the address takes the text and only its message is cleared |
| LoginScreen.Screen.EditPassword | TicketeriaSystem/src/pages/Auth/Login/index.tsx:147-150 | the password takes the text and only its message is cleared |
| LoginScreen.ValidIff | TicketeriaSystem/src/pages/Auth/Login/index.tsx:53-70 | valid exactly when the address is not blank and matches the pattern, and the password is not blank and has 6 characters as typed |
| LoginScreen.ErrorsOf | TicketeriaSystem/src/pages/Auth/Login/index.tsx:53-70 | definition: the blank test and then the pattern for the address, the blank test and then the length for the password; ValidIff states the conditions |
| LoginScreen.BlankPasswordRefused | TicketeriaSystem/src/pages/Auth/Login/index.tsx:62-66 | example: six spaces are long enough but blank, so the blank message wins |
| LoginScreen.SentAddressTrimmed | TicketeriaSystem/src/pages/Auth/Login/index.tsx:79 | the address sent is already trimmed and never blank |
| LoginScreen.SentCallNotRejectedAsMissing | TicketeriaSystem/src/pages/Auth/Login/index.tsx:79 | the mock server never answers 400 to a call the screen makes |
| EmailRule.ContainsAt | TicketeriaSystem/src/pages/Auth/Login/index.tsx:58 | a text holds a piece found at some position |
| EmailRule.MatchHasAtAndDot | TicketeriaSystem/src/pages/Auth/Register/index.tsx:64 | an address matching `/\S+@\S+\.\S+/` holds an '@' and a '.' |
| EmailRule.MatchSurvivesContext | TicketeriaSystem/src/pages/Auth/Register/index.tsx:64 | the pattern is unanchored: text around a match still matches |
| EmailRule.DefaultAddressMatches | api-mock/src/server.ts:166 | example: the server's default address matches the pattern |
| EmailRule.NoDotRefused | TicketeriaSystem/src/pages/Auth/Login/index.tsx:58 | example: an address without a dot after the '@' does not match |
| EmailRule.SpaceBeforeAtRefused | TicketeriaSystem/src/pages/Auth/Login/index.tsx:58 | example: an address with a space right before the '@' does not match |
| AppHeader.Initials | TicketeriaSystem/src/components/AppHeader/index.tsx:25-37 | the avatar text has at most four characters: two initials, each of which `toUpperCase` may turn into two letters ('ß' gives "SS") |
| AppHeader.FirstPiece | TicketeriaSystem/src/components/AppHeader/index.tsx:27 | the first word of a trimmed, non-blank name starts with its first character |
| AppHeader.TrimEnds | TicketeriaSystem/src/components/AppHeader/index.tsx:27 | a non-blank name trims to text that starts and ends with a non-space |
| AppHeader.OneWord | TicketeriaSystem/src/components/AppHeader/index.tsx:28 | a one-word name gives the upper case of its first character, as `toUpperCase` maps characters up to U+00FF |
| AppHeader.SeveralWords | TicketeriaSystem/src/components/AppHeader/index.tsx:29 | a name of several words gives the upper cases of the first characters of its first and last words, one after the other |
| AppHeader.BlankName | TicketeriaSystem/src/components/AppHeader/index.tsx:26-29 | a name of white space only gives an empty avatar, and the address is not used |
| AppHeader.NoName | TicketeriaSystem/src/components/AppHeader/index.tsx:31-37 | without a name, an empty name counts as none, the address gives the upper case of its first character, and without either the avatar is '?' |
| QueryKeys.Shapes | TicketeriaSystem/src/hooks/tickets/keys.ts:4-10 | each key extends its family's key by one element |
| QueryKeys.AllReachesEverything | TicketeriaSystem/src/hooks/tickets/useInvalidateTickets.ts:27-29 | invalidateAll reaches every list and every detail |
| QueryKeys.BuildersMakeShapes | TicketeriaSystem/src/hooks/tickets/keys.ts:6-9 | the builders produce exactly the keys of the two shapes, and no key has both |
| QueryKeys.ListsReachOnlyLists | TicketeriaSystem/src/hooks/tickets/useInvalidateTickets.ts:34-36 | invalidateLists reaches every list key and no detail key |
| QueryKeys.DetailReachesOnlyItself | TicketeriaSystem/src/hooks/tickets/useInvalidateTickets.ts:41-43 | invalidateDetail(id) reaches the key of that detail and no other key |
| QueryKeys.KeysInjective | TicketeriaSystem/src/hooks/tickets/keys.ts:7-9 | different parameters or ids give different keys, and no list key is a detail key |
| Text.ContainsInfix | api-mock/src/server.ts:70-72 | a text contains each of its infixes |
| Text.TrimStart | TicketeriaSystem/src/pages/Auth/Register/index.tsx:56 | the leading white space is dropped, and what is left starts with no space |
| Text.TrimEnd | TicketeriaSystem/src/pages/Auth/Register/index.tsx:56 | the trailing white space is dropped, and what is left ends with no space |
| Text.TrimOfTrimmed | TicketeriaSystem/src/pages/Auth/Login/index.tsx:79 | trimming text that starts and ends with a non-space keeps it |
| Text.TrimKeepsFirst | TicketeriaSystem/src/pages/Auth/Login/index.tsx:79 | trimming keeps a non-space first character |
| Text.SplitWs | TicketeriaSystem/src/components/AppHeader/index.tsx:27 | `split(/\s+/)` always gives at least one piece |
| Text.SplitAcc | TicketeriaSystem/src/components/AppHeader/index.tsx:27 | the splitting loop always gives at least one piece |
| Text.SplitAccNoSpace | TicketeriaSystem/src/components/AppHeader/index.tsx:27 | text without white space is one piece |
| Text.SplitAccFirst | TicketeriaSystem/src/components/AppHeader/index.tsx:27 | the first piece starts with the word being read |
| Text.SplitAccLast | TicketeriaSystem/src/components/AppHeader/index.tsx:27 | the last piece is the text after the last white space |
| Text.NatToString | TicketeriaSystem/src/helpers/AsyncStorageCache.ts:171 | `toString()` of a natural number is a non-empty run of digits |
| Text.IntToString | TicketeriaSystem/src/services/SyncService.ts:159 | `toString()` of an integer is non-empty, starts with '-' or a digit, and ends with a digit |
| Text.DigitsValueOfNat | TicketeriaSystem/src/helpers/AsyncStorageCache.ts:171-183 | the digits of a number read back as that number |
| Text.DigitPrefix | api-mock/src/server.ts:116 | the leading digits are a prefix of the text, followed by a non-digit or the end |
| Text.DigitPrefixOfDigits | api-mock/src/server.ts:116 | the leading digits of digits followed by a non-digit are those digits |
| Text.ParseIntDecimalOfNatPrefix | TicketeriaSystem/src/helpers/AsyncStorageCache.ts:183 | `parseInt(…, 10)` of a number's digits followed by a non-digit reads back the number |
| Text.NumberOfIntString | TicketeriaSystem/src/services/OfflineSyncService.ts:109 | `Number` of an integer's text is that integer |
| Text.NumberOfNegativeString | TicketeriaSystem/src/services/OfflineSyncService.ts:109 | the same for a negative integer |
| Text.NumberOfLetterLed | TicketeriaSystem/src/services/OfflineSyncService.ts:109 | `Number` of text starting with a lower-case letter is NaN |
| Text.Contains | api-mock/src/server.ts:70-72 | definition: `includes`, some position where the needle starts; ContainsInfix states it |
| Text.Trim | TicketeriaSystem/src/pages/Auth/Login/index.tsx:79 | definition: `trim()`, white space dropped at both ends; TrimStart, TrimEnd, TrimOfTrimmed and TrimKeepsFirst state it |
| Text.Lower | api-mock/src/server.ts:67-72 | `toLowerCase` for characters up to U+00FF keeps the length; the ASCII capitals and the Latin-1 capitals except '×' move to their small letters |
| Text.LowerIdempotent | api-mock/src/server.ts:67-72 | lower-casing twice is lower-casing once |
| Text.LowerFoldsLatin1 | api-mock/src/server.ts:67-72 | a Latin-1 capital and its small letter lower-case alike, and upper-casing gives the capital back |
| Text.Upper | TicketeriaSystem/src/components/AppHeader/index.tsx:28-32 | `toUpperCase` for characters up to U+00FF is never shorter than the text and at most twice as long, since 'ß' gives "SS" |
| Text.UpperOfFew | TicketeriaSystem/src/components/AppHeader/index.tsx:28-29 | upper-casing one or two characters gives their upper cases one after the other |
| Text.UpperConcat | TicketeriaSystem/src/components/AppHeader/index.tsx:29 | upper-casing a concatenation concatenates the upper cases |
| Text.ParseInt | api-mock/src/server.ts:91-92 | definition: `parseInt(s)` with no radix skips leading white space and reads an optional sign, then hexadecimal digits after "0x" or "0X", otherwise decimal digits, up to the first non-digit; no digit is NaN (None) |
| Text.ParseIntDecimal | TicketeriaSystem/src/helpers/AsyncStorageCache.ts:183 | definition: `parseInt(s, 10)`, the same with decimal digits only, so "0x" stops at the 'x' |
| Text.ParseIntOfDigitStart | api-mock/src/server.ts:116 | text starting with a digit reads as its leading digits under `parseInt(…, 10)`, and under `parseInt` too unless it starts with "0x" |
| Text.ParseIntDecimalOfNat | TicketeriaSystem/src/helpers/AsyncStorageCache.ts:171-183 | `parseInt(…, 10)` reads back a printed number |
| Text.ParseIntOfNat | api-mock/src/server.ts:91-92 | `parseInt` reads back a printed number |
| Text.ParseIntReadsHex | api-mock/src/server.ts:91-92 | "0x" followed by hexadecimal digits is that hexadecimal number for `parseInt`, and 0 for `parseInt(…, 10)` |
| Text.ToNumber | TicketeriaSystem/src/services/OfflineSyncService.ts:109 | definition: `Number(s)` for integer literals: blank text is 0, an optionally signed run of decimal digits is its value, and an unsigned "0x", "0o" or "0b" literal is its value; anything else is NaN (None) |
| Text.NumberOfHexLiteral | TicketeriaSystem/src/services/OfflineSyncService.ts:109 | `Number` reads a hexadecimal literal, and a minus sign in front of it makes NaN |
| JsValues.OrNull | TicketeriaSystem/src/services/OfflineQueue.ts:139 | `x \|\| null`: the value exactly when it is truthy, else null |
| JsValues.NumberText | TicketeriaSystem/src/services/OfflineSyncService.ts:109 | the path text of `Number(id)` is "NaN" exactly when the id is not a number |
| JsValues.OfflineIdIsNaN | TicketeriaSystem/src/helpers/ticketStorage.ts:121-123 | an offline id is not a number, so its path text is "NaN" |
| JsValues.LocalIdIsNaN | TicketeriaSystem/src/services/SQLiteService.ts:6-8 | a `local_` id is not a number either |
| Schema.MaxCommentId | TicketeriaSystem/src/services/SQLiteService/saveCommentLocally.ts:28-31 | the largest comment id, at least every id and at least 0 |
| Schema.Database.constructor | TicketeriaSystem/src/database/database.ts:57-139 | a fresh database has the four tables of database.ts empty, with the pending_actions AUTOINCREMENT counter at 0, and the assumed newer tables empty too |
| Remote.Next | TicketeriaSystem/src/services/TicketApi.ts:65-151 | the next request gets the first scripted answer, or 'Network Error' when none is left |
| Remote.Api.Call | TicketeriaSystem/src/services/TicketApi.ts:65-151 | a request is logged in order and gets Next's answer |
| LegacyStore.MarkedFilter | TicketeriaSystem/src/services/SQLiteService.ts:413-416 | after marking a local id synced, the unsynced query returns the other unsynced rows |

## Left out

- The SQLite engine and AsyncStorage. Tables are sequences and the key store is a map. The only storage failure modelled is a primary-key clash. Disk faults, which the source logs and rethrows, are not modelled, because no code of the core decides when they happen.
- The driver's `insertId` for pending_actions is its AUTOINCREMENT counter. For the newer comments table it is the rowid of an `id INTEGER PRIMARY KEY`, one more than the largest id.
- The newer tables of the SQLiteService/ directory (`Tickets`, `TicketComments`, `PendingTicketActions`, with columns such as server_id and sync_status) are created nowhere in the source. database.ts creates only `tickets`, `comments`, `attachments` and `pending_actions`, and SQLite would read `Tickets` as the legacy `tickets`, which has none of those columns. Against that schema the newer statements fail. The model assumes a separate newer schema with the columns of interfaces/database.ts (`Schema.Database`'s dbTickets, dbComments and dbActions), never merged with the legacy tables.
- SplitStore.SaveCommentLocally: it assumes the `id INTEGER PRIMARY KEY` column of that assumed schema. A driver that reports no insertId, which makes the source return -1, is not modelled.
- JSON.parse and JSON.stringify. A round trip through them is the identity, so a stored `serverData` or queued `data` comes back as it was written.
- LegacyStore.NewTicketRow: the legacy store binds `createdBy || ''` as it is, without JSON.stringify, and reads it back unparsed. The model keeps the author as given: the driver's text for an author object is not modelled, and a missing author, which the source stores and reads back as '', is None here.
- LegacyStore.NewCommentRow: the same holds for a comment's `createdBy`.
- Date.now, `new Date().toISOString()` and Math.random are parameters of type `JsValues.Env` or plain stamps; the two readings of saveTicketsToStorage are the pair `TicketStorage.ListStamps`. Such ids are fresh to the model only by their 'local_', 'offline_' and 'offline_comment_' prefixes.
- Dates are compared as their ISO text. This equals time order only for well-formed stamps of one time zone.
- The minutes divisions in isCacheValid and isCacheStale. Both are compared over integer milliseconds rather than floating point.
- ExportService.formatDate and toLocaleString depend on the locale; the formatted date is a parameter.
- SQL LIKE is an ASCII case-insensitive substring test. '%' and '_' inside the search text are not treated as wildcards.
- String lengths count characters, not UTF-16 code units.
- In the mock server, floating-point limits and numbers past 2^53 are not modelled. `parseInt` is modelled with its "0x" hexadecimal prefix; a text with no leading digit is NaN (None), and a NaN page or limit gives an empty page.
- Text.ToNumber: `Number` is modelled for integer literals only. Decimal fractions ("1.5"), exponents ("1e3"), "Infinity" and numeric separators, all numbers in JavaScript, are NaN in the model. The ids the hooks and the sync service convert are integers or offline ids, so these forms do not reach it from the core.
- Text.ParseInt: the fraction or exponent after the digits is ignored, as `parseInt` does. Numbers past 2^53, where `parseInt` loses precision, are not modelled.
- NetInfo, the network and the axios clients (TicketApi.ts, AuthApi.ts, Api.ts) are the oracle `Remote.Api`: a scripted answer per request. The HTTP encoding and the interceptors are not modelled.
- Concurrency. The busy flags (`isSyncing`) are checks made in sequence.
  - The source does not await `notifyListeners()`. Here each broadcast is recorded in `notices` when it is issued, and the listeners' own code is not run.
  - Two overlapping sync passes are not modelled.
- Timers. `ToastStore.Store.ShowToast` returns the removal it schedules, and that removal is a later `HideToast` call. The wait itself is not modelled, and neither is useDebounce.ts.
- useSync.ts is an effect over React state (`isOnline`, `wasOffline`) and is not modelled. Its trigger rule is the one `SyncService` has, which this model does cover.
- useTicketsList.ts is not modelled, because its `fetchData` is never invoked.
- pages/Ticketeria/TicketDetails/index.tsx is not modelled: `loadTicket` reads stale React state, so it is not a self-contained procedure.
- useUserPreferences.ts, useToast.ts and useInvalidateTickets.ts are thin wrappers over library calls. The only logic of useInvalidateTickets.ts, the prefix each call invalidates, is modelled in `QueryKeys`.
- useAuthStore.ts, BiometricService.ts and secureStorage.ts take every transition from foreign results, so they are not modelled.
  - Which screen the register and login screens navigate to is not modelled.
  - `LoginScreen.ShowsBiometric` is a definition only.
- exportToPDF and exportToCSV are not modelled: they write a file and open the share sheet. Only the text they produce (`GenerateCsv`, `GeneratePdfHtml`) is modelled.
- The mock server's file read and write (the database is a value held by `MockServer.Server`), its middleware, the artificial delay, `listen`, the health route and the 404 fallback.
- A mock-server PUT body is a record of the known ticket fields. Extra keys in `...body`, including an `id` that would overwrite the ticket's, are not modelled, and neither is JSON `null` as a field value.
- CreateTicketHook.OfflineTicket: the source reads the clock once for `createdAt` and once more for `updatedAt` (useCreateTicket.ts:66-67), and saveOfflineTicket reads it again for the detail's `cachedAt`. The model takes the one reading `env.nowIso` for all three.
- The mock server is taken to run Express 4, whose body parser leaves `req.body` an empty object for a request `express.json()` skips. The repository does not pin the version; under Express 5 a multipart create would answer 500 instead of 400.
- Rendering, styles, navigation, the theme and the display-only components (badges, cards, modals, the loading bar).
- Inherited properties of the label objects (`'toString' in labels`) are not modelled: a label lookup sees only the table's own keys.
- OfflineSync.Calls: its contract only bounds the number of requests by the number of actions. `OfflineSync.CallsStep` states the exact requests.
- ExportService.DoubleQuotes: its contract is only the length bound. `ExportService.QuotedRoundTrip` and the CSV lemmas state the content.
- AppHeader.Initials: its contract is only the length bound of four. `AppHeader.OneWord`, `SeveralWords`, `BlankName` and `NoName` state the content.
- AppHeader.OneWord: `toUpperCase` is modelled for characters up to U+00FF only. JavaScript maps every letter of Unicode, so an initial beyond Latin-1 (Greek, Cyrillic, ...) is left as it is in the model.
- AppHeader.SeveralWords: the same limit of the upper-casing to characters up to U+00FF.
- AppHeader.NoName: the same limit of the upper-casing to characters up to U+00FF.
- MockServer.FilteredIsMatches: the search lowers text as `toLowerCase` does for characters up to U+00FF only; letters beyond Latin-1 are not folded in the model, while JavaScript folds them.
- MockServer.SearchHit: the same limit of the lower-casing to characters up to U+00FF.
- TicketDetailsHook.Fetched: its contract is only that loading ends. The hook's lemmas state what is shown and when the error is set.
