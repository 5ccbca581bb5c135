# crm-clients in Dafny

A verified model of the client-management core of a small CRM single-page
application. The core covers:

- the client store hook: the ordered client collection and the operations on it, which are
  - add (prepend a new record),
  - update (spread a partial record over every record with the id),
  - delete (filter the id out),
  - lookup (first record with the id);
- the follow-up rules: whole days since the last contact, and the three-level overdue
  classification with a warning and a danger threshold;
- the status filter;
- the main page:
  - the per-status counts record;
  - the display order of the filtered list. Danger comes first, then warning, then none.
    Within a level the oldest contact comes first, and ties keep their order (a stable sort);
  - the form and delete-confirmation handlers;
- the dashboard tallies: total, active, closed, and active clients without contact for seven days or more;
- the client form:
  - its seven fields and per-field error record;
  - the three validation rules: name not blank, e-mail empty or matching `^[^\s@]+@[^\s@]+\.[^\s@]+$`, date present;
  - the submit gate, the field-change handler, and the reset when it opens.

Modules:

| file | module | models |
|---|---|---|
| `wrappers.dfy` | `Wrappers` | `Option` |
| `filtering.dfy` | `Filtering` | `Array.prototype.filter` as `Select`, with its algebra |
| `types.dfy` | `Types` | status, client record, label and style maps |
| `use_clients.dfy` | `UseClients` | the hook: pure operations, and the class `ClientStore` holding the hook's state |
| `stats_cards.dfy` | `StatsCards` | the four dashboard tallies |
| `index_page.dfy` | `IndexPage` | the sort, the counts (a loop, as in the source), and the class `Page` with the page's state and handlers |
| `client_form.dfy` | `ClientForm` | trimming, the e-mail pattern, validation, and the class `Form` with the form's state and handlers |

Time is a whole number of milliseconds since the epoch (`Millis`). The current instant, the new
record's id and the ISO-8601 text a date renders to are parameters of the operations that read
them.

Where the code and its comments disagree, the model follows the code:

- Index.tsx line 60 says "newest first otherwise", but the comparator always orders by last contact ascending. The model orders ascending.
- `updateClient` and `deleteClient` act on every record carrying the id, not only the first one. `Updated` and `Without` do the same. With unique ids this is the same thing: `DeleteExistingRemovesOne` shows a delete then removes one record, and `UpdateUniqueChangesOne` shows an update then replaces one record.

The sort is modelled by a particular stable sort, `SortBy`. `SortByIsTheStableSort` proves that
every sorted arrangement that keeps the relative order of equal keys equals it. So the result
does not depend on which stable algorithm the JavaScript engine uses.

## Model

| member | source | states |
|---|---|---|
| Types.AllStatusesEnumerates | src/components/crm/ClientForm.tsx:23 | the status options list every one of the five statuses exactly once |
| Types.ParseStatus | src/types/client.ts:1 | a status key reads back to its status, and every other string to none |
| Types.StatusMapsInjective | src/types/client.ts:16-30 | labels and style classes are defined and pairwise distinct for the five statuses, and so are the keys |
| Types.StatusLabel | src/types/client.ts:16-22 | the label of each status, the source's strings; total and injective by StatusMapsInjective |
| Types.StatusClass | src/types/client.ts:24-30 | the style class of each status, the source's strings; total and injective by StatusMapsInjective |
| Filtering.Select | src/hooks/useClients.ts:118-120 | the filter's result keeps only elements satisfying the predicate, keeps all of them, and is no longer than the input |
| UseClients.DaysWithoutContact | src/hooks/useClients.ts:97-102 | the result is the floor of elapsed milliseconds over a day: `days * day <= elapsed < (days + 1) * day` |
| UseClients.DaysNegativeIffFuture | src/hooks/useClients.ts:100-101 | the day count is negative exactly when the last contact lies in the future, and is at most 0 under one day |
| UseClients.OverdueLevel | src/hooks/useClients.ts:105-115 | the classification; characterised by ClosedOrLostNeverOverdue and OverdueLevelThresholds, with CrossedThresholdsSkipWarning and OverdueLevelMonotone |
| UseClients.ClosedOrLostNeverOverdue | src/hooks/useClients.ts:106-109 | closed and lost clients are never overdue |
| UseClients.OverdueLevelThresholds | src/hooks/useClients.ts:111-114 | for an active client: danger iff days reach the danger threshold, warning iff between the two, none iff below both |
| UseClients.CrossedThresholdsSkipWarning | src/hooks/useClients.ts:112-113 | with danger below warning the warning level never occurs, because danger is tested first |
| UseClients.OverdueLevelMonotone | src/hooks/useClients.ts:105-115 | as time passes the level never goes down |
| UseClients.FilterByStatus | src/hooks/useClients.ts:117-120 | with a status every kept record has that status; every matching record is kept; `all` keeps all |
| UseClients.FilterByStatusExact | src/hooks/useClients.ts:118-120 | the filter distributes over concatenation and keeps each matching record with its multiplicity, dropping the others |
| UseClients.Find | src/hooks/useClients.ts:92-94 | none iff no record has the id; otherwise the record at the first index with that id |
| UseClients.NewClient | src/hooks/useClients.ts:62-68 | the record `addClient` builds; characterised by NewClientKeepsData |
| UseClients.Merge | src/hooks/useClients.ts:75-81 | the spread of a partial record over one record; characterised by MergeFormData, MergeStatusOnly and MergeIgnoresUpdatedAt |
| UseClients.NewClientKeepsData | src/hooks/useClients.ts:61-68 | the new record carries the submitted fields, the given id, and `now` as both timestamps |
| UseClients.AddThenFind | src/hooks/useClients.ts:61-70 | after prepending, the id finds the new record; with a fresh id, ids stay unique |
| UseClients.MergeFormData | src/hooks/useClients.ts:75-81 | merging form data replaces the seven form fields and keeps id and creation time; `updatedAt` becomes `now` |
| UseClients.MergeStatusOnly | src/hooks/useClients.ts:75-81 | a status-only partial record changes just the status and the update time |
| UseClients.MergeIgnoresUpdatedAt | src/hooks/useClients.ts:76-80 | `updatedAt` from the partial record is overridden by `now` |
| UseClients.Updated | src/hooks/useClients.ts:74-83 | the mapped collection has the same length |
| UseClients.UpdateKeepsOthers | src/hooks/useClients.ts:74-83 | records with another id are untouched, those with the id are merged, an unknown id changes nothing |
| UseClients.UpdateKeepsIds | src/hooks/useClients.ts:74-83 | an update without an id field keeps all ids, and so their uniqueness |
| UseClients.UpdateUniqueChangesOne | src/hooks/useClients.ts:74-83 | with unique ids, an update of a present id replaces exactly that record by its merge and leaves the rest |
| UseClients.UpdateThenFind | src/hooks/useClients.ts:73-84 | after an update, looking up the id yields the merged version of what it yielded before |
| UseClients.DeleteRemovesOnlyId | src/hooks/useClients.ts:87-89 | no record with the id remains, every other record remains, and delete distributes over concatenation |
| UseClients.DeleteUnknownIsNoop | src/hooks/useClients.ts:87-89 | deleting an absent id leaves the collection as it is |
| UseClients.DeleteExistingRemovesOne | src/hooks/useClients.ts:87-89 | with unique ids, deleting a present id removes exactly one record |
| UseClients.DeleteKeepsUniqueIds | src/hooks/useClients.ts:87-89 | deleting preserves unique ids |
| UseClients.Without | src/hooks/useClients.ts:88 | the collection without the id; characterised by DeleteRemovesOnlyId, DeleteUnknownIsNoop and DeleteExistingRemovesOne |
| UseClients.ClientStore.constructor | src/hooks/useClients.ts:44-46 | a new store is empty, shows all statuses, and keeps the two thresholds it was given |
| UseClients.ClientStore.AddClient | src/hooks/useClients.ts:61-70 | the new record is prepended to the old collection and found by its id; a fresh id keeps ids unique |
| UseClients.ClientStore.UpdateClient | src/hooks/useClients.ts:73-84 | the collection becomes the update of the old one; an unknown id changes nothing; unique ids survive an id-less update |
| UseClients.ClientStore.DeleteClient | src/hooks/useClients.ts:87-89 | the collection becomes the old one without the id; the id is gone; an unknown id changes nothing; unique ids survive |
| UseClients.ClientStore.SetStatusFilter | src/hooks/useClients.ts:46 | the selected filter becomes the given one |
| UseClients.ClientStore.GetClient | src/hooks/useClients.ts:92-94 | the store's lookup; what it returns is stated by Find's contract |
| UseClients.ClientStore.GetOverdueLevel | src/hooks/useClients.ts:105-115 | the classification at the store's two thresholds; characterised by the OverdueLevel lemmas |
| UseClients.ClientStore.FilteredClients | src/hooks/useClients.ts:117-120 | the store's list under its selected filter; what it keeps is stated by FilterByStatus's contract and FilterByStatusExact |
| StatsCards.ClosedIsStatusCount | src/components/crm/StatsCards.tsx:14 | the closed tally equals the one-per-record count of `fechado` clients that the page's counts loop computes |
| StatsCards.TotalClients | src/components/crm/StatsCards.tsx:10 | the number of clients; related to the other tallies by ActiveClosedLostPartition |
| StatsCards.ActiveClients | src/components/crm/StatsCards.tsx:11-13 | the number of clients neither closed nor lost; characterised by ActiveClosedLostPartition |
| StatsCards.ClosedClients | src/components/crm/StatsCards.tsx:14 | the number of closed clients; characterised by ClosedIsStatusCount |
| StatsCards.OverdueClients | src/components/crm/StatsCards.tsx:15-18 | the number of active clients idle seven days or more; characterised by OverdueAtMostActive, OverdueMatchesHookAtSevenDays and OverdueIgnoresHookThresholds |
| StatsCards.ActiveClosedLostPartition | src/components/crm/StatsCards.tsx:10-14 | active + closed + lost = total |
| StatsCards.OverdueAtMostActive | src/components/crm/StatsCards.tsx:15-18 | inactive clients never need follow-up, so the follow-up tally is at most the active tally |
| StatsCards.OverdueMatchesHookAtSevenDays | src/components/crm/StatsCards.tsx:15-18 | the tally equals the number of clients the hook flags, when the hook warns at 7 days and dangers at 7 or later |
| StatsCards.OverdueIgnoresHookThresholds | src/components/crm/StatsCards.tsx:17 | with thresholds 14/30 a client idle for ten days is tallied but not flagged: the tally's 7 is fixed |
| IndexPage.SortByMultiset | src/pages/Index.tsx:50 | the sorted copy is a permutation of the list |
| IndexPage.SortBySorted | src/pages/Index.tsx:50-64 | the sorted copy is ordered by (level rank, last contact) |
| IndexPage.SortByStable | src/pages/Index.tsx:50 | for each key, the records with that key keep their relative order |
| IndexPage.SortBySortedIsIdentity | src/pages/Index.tsx:50 | sorting an already ordered list changes nothing |
| IndexPage.SortedStableUnique | src/pages/Index.tsx:50-64 | two ordered lists that agree key by key on their subsequences are equal |
| IndexPage.SortByIsTheStableSort | src/pages/Index.tsx:50-64 | any ordered, stable rearrangement of the list is exactly `SortBy`'s result |
| IndexPage.SortBy | src/pages/Index.tsx:50 | the stable sort by key; characterised by SortByMultiset, SortBySorted, SortByStable and SortByIsTheStableSort |
| IndexPage.DisplayKey | src/pages/Index.tsx:51-63 | what the comparator compares: level rank (danger 0, warning 1, none 2), then last contact; its order is stated by DisplayOrder |
| IndexPage.SortForDisplay | src/pages/Index.tsx:49-65 | the display list is a permutation of the filtered list, ordered by the comparator, and stable |
| IndexPage.DisplayOrder | src/pages/Index.tsx:54-63 | earlier entries are at least as urgent (danger, warning, none) and, at equal level, contacted no later |
| IndexPage.SortForDisplayIdempotent | src/pages/Index.tsx:49-65 | sorting the display list again yields it unchanged |
| IndexPage.SortScenario | src/pages/Index.tsx:49-65 | a client idle 20 days and one idle 2 days at thresholds 7/14 are danger and none, listed in that order |
| IndexPage.CountKeysCoverStatuses | src/pages/Index.tsx:32-39 | the counts record has a key for every status |
| IndexPage.Tally | src/pages/Index.tsx:41-43 | the per-status running count of the loop; characterised by TallyIsFilterSize and TalliesSumToLength |
| IndexPage.TallyIsFilterSize | src/pages/Index.tsx:41-43 | counting a status one client at a time gives the size of that status's filter |
| IndexPage.ClientCounts | src/pages/Index.tsx:31-46 | the record has exactly the six keys; `all` is the length; each status's count is the size of its filter |
| IndexPage.TalliesSumToLength | src/pages/Index.tsx:41-43 | the five running counts add up to the number of clients counted |
| IndexPage.StatusCountsSumToAll | src/pages/Index.tsx:31-46 | the five status counts add up to `all` |
| IndexPage.Page.constructor | src/pages/Index.tsx:24-28 | the page owns a fresh, empty store with thresholds 7 and 14; form closed, nothing being edited or deleted |
| IndexPage.Page.SortedClients | src/pages/Index.tsx:49-65 | the list the page shows; its order is stated by SortForDisplay's contract and DisplayOrder |
| IndexPage.Page.HandleAddClient | src/pages/Index.tsx:67-70 | the form opens with no client being edited |
| IndexPage.Page.HandleEditClient | src/pages/Index.tsx:72-75 | the form opens on the given client |
| IndexPage.Page.HandleDeleteClick | src/pages/Index.tsx:77-82 | the client with the id, if any, awaits confirmation; an unknown id changes nothing |
| IndexPage.Page.HandleConfirmDelete | src/pages/Index.tsx:84-90 | the pending client's id is deleted from the store and the pending client cleared; with none pending the store is unchanged |
| IndexPage.Page.HandleCancelDelete | src/pages/Index.tsx:163 | the pending client is cleared |
| IndexPage.Page.HandleFormSubmit | src/pages/Index.tsx:92-102 | when editing, the store is updated with the form data under the edited id; otherwise the new record is prepended; the form closes |
| IndexPage.Page.HandleFormClose | src/pages/Index.tsx:104-107 | the form closes and nothing is being edited |
| IndexPage.Page.HandleFilterChange | src/pages/Index.tsx:123 | the store's filter becomes the selected one |
| ClientForm.TrimStart | src/components/crm/ClientForm.tsx:67 | the result is a suffix; everything dropped is whitespace; it does not start with whitespace |
| ClientForm.TrimEnd | src/components/crm/ClientForm.tsx:67 | the result is a prefix; everything dropped is whitespace; it does not end with whitespace |
| ClientForm.TrimEmptyIffBlank | src/components/crm/ClientForm.tsx:67 | the trimmed name is empty exactly when the name is all whitespace |
| ClientForm.Trim | src/components/crm/ClientForm.tsx:67 | `trim`; characterised by TrimStart, TrimEnd and TrimEmptyIffBlank |
| ClientForm.EmailShapeIsPattern | src/components/crm/ClientForm.tsx:71 | the checkable e-mail rules accept exactly the strings the regular expression matches |
| ClientForm.EmailShapeHasOneAt | src/components/crm/ClientForm.tsx:71 | an accepted address has exactly one `@` |
| ClientForm.MatchesEmailPattern | src/components/crm/ClientForm.tsx:71 | the regular expression as a predicate: three non-empty runs free of whitespace and `@`, around an `@` and a `.`; examples in BadEmailRejected and WellFormedEmailAccepted |
| ClientForm.IsEmailShape | src/components/crm/ClientForm.tsx:71 | the same test as checkable rules; equal to the pattern by EmailShapeIsPattern |
| ClientForm.BadEmailRejected | src/components/crm/ClientForm.tsx:71-73 | the form with e-mail `bad-email` is invalid |
| ClientForm.WellFormedEmailAccepted | src/components/crm/ClientForm.tsx:71 | `ana@loja.com` matches the pattern |
| ClientForm.DatePart | src/components/crm/ClientForm.tsx:48 | the result is the prefix before the first `T`, or the whole string when there is none |
| ClientForm.FieldTextDeterminesForm | src/components/crm/ClientForm.tsx:26-34 | two forms whose seven fields read the same are equal |
| ClientForm.WithField | src/components/crm/ClientForm.tsx:95 | the changed field reads the new value and every other field is unchanged |
| ClientForm.ClearError | src/components/crm/ClientForm.tsx:96-98 | the field's error is no longer shown; the keys and every other entry are unchanged |
| ClientForm.CollectErrors | src/components/crm/ClientForm.tsx:64-81 | there is an entry, with its exact message, for each broken rule and for no other field; the record is empty iff the form is valid |
| ClientForm.IsValid | src/components/crm/ClientForm.tsx:64-81 | the three rules together; CollectErrors and ValidateForm report exactly its failures |
| ClientForm.PrefillRoundTrip | src/components/crm/ClientForm.tsx:40-49 | submitting an untouched edit form hands back the client's name, phone, e-mail, product, status and notes; the last contact is the instant the converted date gives |
| ClientForm.EmptyForm | src/components/crm/ClientForm.tsx:51-59 | the new-client form; characterised by EmptyFormNeedsName and Form.Reset |
| ClientForm.Prefilled | src/components/crm/ClientForm.tsx:41-49 | the edit form; characterised by PrefillRoundTrip and Form.Reset |
| ClientForm.Submission | src/components/crm/ClientForm.tsx:88-91 | what `onSubmit` receives; characterised by PrefillRoundTrip and Form.HandleSubmit |
| ClientForm.EmptyFormNeedsName | src/components/crm/ClientForm.tsx:51-59 | the new-client form is invalid until a name is typed |
| ClientForm.Form.constructor | src/components/crm/ClientForm.tsx:26-36 | the form starts empty with status `novo`, the date part of the current instant's ISO text, and no errors |
| ClientForm.Form.Reset | src/components/crm/ClientForm.tsx:39-62 | the form is prefilled from the client, with the date part of its last contact's ISO text, or emptied with the date part of the current instant's ISO text; errors are cleared |
| ClientForm.Form.ValidateForm | src/components/crm/ClientForm.tsx:64-81 | the error record reports exactly the broken rules; the result is true iff the form is valid |
| ClientForm.Form.HandleSubmit | src/components/crm/ClientForm.tsx:83-92 | data is handed over iff the form is valid, and it is the form's fields with the converted last contact |
| ClientForm.Form.HandleChange | src/components/crm/ClientForm.tsx:94-99 | the field takes the new value; a shown error on that field is blanked and nothing else changes |

## Left out

- Persistence: `localStorage` loading, saving, the save guard and the storage key (src/hooks/useClients.ts:4, 11-29, 48-58). The store starts empty, and JSON handling is browser I/O.
- Id generation (src/hooks/useClients.ts:6-9) uses the clock and a random source. The id is a parameter of `AddClient`. Ids stay unique only if the caller supplies a fresh one, and `AddClient` states exactly that.
- Dates: ISO-8601 parsing and rendering, `toISOString`, and the conversion of the entered date to local noon (src/components/crm/ClientForm.tsx:90). Timestamps are milliseconds. The ISO text of a date and the instant of the noon conversion are parameters.
- Invalid dates: an unparseable timestamp makes the source's arithmetic `NaN`. Model timestamps are always numbers.
- The wall clock: every "now" is a parameter.
- Toast notifications (src/pages/Index.tsx:87, 95, 98) and all rendering: the header, status filter buttons, client cards, empty state, dialogs and the form's markup, including `if (!isOpen) return null`.
- React scheduling: batched state updates, memoisation, and when effects run. The form's reset effect is the method `Reset`, run by its caller.
- ClientForm.Form.HandleChange: requires a status value to be a status key and the field to be one of the seven. The source's inputs only send those; an arbitrary field name or status string would extend the form object there.
- ClientForm.WithField: the same restriction as `HandleChange`.
- ClientForm.PrefillRoundTrip: the last contact's round trip through the form is not modelled. The form shows the UTC calendar date of the stored instant (src/components/crm/ClientForm.tsx:48) and submits local noon of that date (line 90), so the time of day is replaced. Where local noon falls on another UTC day (offsets of +13, +14 or -12 hours) an untouched save moves the contact by one day. The lemma takes the converted instant as a parameter and promises nothing about it.
- UseClients.Merge: a partial record's field is either present or absent. A field present with the value `undefined`, which overwrites in a JavaScript spread, is not modelled.
- IndexPage.ClientCounts: statuses outside the five, which stored data could hold, do not exist in the model, so the extra key the source would create for them is not modelled.
