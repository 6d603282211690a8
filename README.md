# Inventory lifecycle store, modelled in Dafny

This project models the in-memory inventory of a small fundraiser-box tracker. The inventory is a map from an
item id (a barcode) to an item record. The record holds a status (`checked-in`, `checked-out`, `missing`), the
borrower holding the item, `returnedBy`, the initial and current counts, and a `lastModified` stamp.

The model covers two layers:

- **The store** (`src/ui/stores/useInventory.ts`). Its operations are `createItem`, `deleteItem` and `updateItem`.
  Each checks the id, then edits the map in place. `pushRemote` and `pullRemote` copy the whole map to and from the
  remote document. In `inventory.dfy`, each operation is a pure function from the old map to a new map or an error
  (`Create`, `Delete`, `Update`). Class `Store` holds the map in a field. Its methods make the same edits step by
  step and are proved to agree with those functions.
- **The lifecycle** (`src/ui/components/App.tsx`). The check-out, check-in, mark-missing and set-count record
  transformers passed to `updateItem` are pure functions returning `Result<Item, Error>`; a thrown message is an
  `Err`. The `try*` handlers that drive the store are methods (`lifecycle.dfy`). The dashboard tallies, the option
  and dashboard filters, and the status badge are in `dashboard.dfy`.

`Step` replays one handler on the pure map and `Run` replays a sequence of them. Using them, the invariant `Sound`
is proved to hold across every sequence of form-submitted handlers of the model. This holds only because the model
refuses an update of an inherited `Object.prototype` name that is not a key; in the source such an id typed into the
check-out, check-in or mark-missing form stores a partial record, which breaks `Sound` (see "## Left out"). `Sound` says that counts satisfy
`1 <= initialCount`, `0 <= currentCount <= initialCount`, and that no borrower holds two records.

Parameters stand in for what the model cannot see:

- the clock is a `now: Stamp` argument;
- the fetched remote document is an object of class `Remote`;
- the case-insensitive query test of the option filters is a `matches: string -> bool` argument;
- `Object.entries(items)` is a sequence of `(id, item)` pairs, tied to the map by `EntriesOf`.

In three places the code does less than the data model suggests; the model follows the code:

- A record marked missing keeps its `borrowedBy`. So a non-empty holder does not imply `checked-out`, and that
  borrower cannot check out again while that record stays in the map (`MissingKeepsBorrower`). Deleting it, or
  pulling a document without it, frees the borrower (`DeleteFreesBorrower`).
- Check-in tests the count before the status. So checking in a missing item with a count above its current count
  fails with "Cannot check in more than …", not "is missing" (`MissingThenCheckIn`).
- The check-in and create closures accept any integer count. The lower bounds (0 for check-in, 1 for creation) come
  only from the HTML form (`src/ui/components/App.tsx:509`, `src/ui/components/App.tsx:583`). The soundness lemmas
  take those bounds as `FormInput`.

## Model

| member | source | states |
|---|---|---|
| `Inventory.Truthy` | src/ui/stores/useInventory.ts:48 | the store's guard `get().items[id]`: the id is a key, or a name every object inherits from `Object.prototype` (`Inherited`) |
| `Inventory.Create` | src/ui/stores/useInventory.ts:47-54 | fails with "already exists" exactly when the guard finds the id (a key, or an inherited name such as "constructor"); otherwise the id is added, holding the given record with the fresh stamp, and every other key keeps its record |
| `Inventory.Delete` | src/ui/stores/useInventory.ts:56-61 | fails with "does not exist" exactly when the id is neither a key nor an inherited name; otherwise exactly that key is removed (no status check, no stamp) and the others keep their records; an inherited name that is not a key succeeds and changes nothing |
| `Inventory.Update` | src/ui/stores/useInventory.ts:63-71 | commits exactly when the id is present and the transformer does not throw; an absent id gives "does not exist" and a throw passes the transformer's error through; on commit the keys are the same, the record is the transformer's result with the fresh stamp, and no other key changes |
| `Inventory.CreateThenDeleteRestores` | src/ui/stores/useInventory.ts:47-61 | creating an id that is neither a key nor an inherited name, and then deleting it, gives back the original map |
| `Inventory.DeleteTwiceFails` | src/ui/stores/useInventory.ts:56-61 | the second delete of the same id fails with "does not exist", except for an inherited name, where it succeeds and changes nothing |
| `Inventory.InheritedNameAlreadyExists` | src/ui/stores/useInventory.ts:48 | `createItem("constructor", …)` fails with "already exists" on every map, the empty one included |
| `Inventory.CreateOverwritesStamp` | src/ui/stores/useInventory.ts:49-53 | the stamp in the record handed to createItem never reaches the map |
| `Inventory.Store.constructor` | src/ui/stores/useInventory.ts:35 | the store starts with an empty map |
| `Inventory.Store.CreateItem` | src/ui/stores/useInventory.ts:47-54 | the in-place insert-then-stamp leaves exactly the map `Create` gives, or the old map and the error |
| `Inventory.Store.DeleteItem` | src/ui/stores/useInventory.ts:56-61 | the in-place removal leaves exactly the map `Delete` gives, or the old map and the error |
| `Inventory.Store.UpdateItem` | src/ui/stores/useInventory.ts:63-71 | the in-place replace-then-stamp leaves exactly the map `Update` gives; when the transformer throws, the map is unchanged and nothing is stamped |
| `Inventory.Store.PullRemote` | src/ui/stores/useInventory.ts:42-45 | the whole map is replaced by the remote document |
| `Inventory.Store.PushRemote` | src/ui/stores/useInventory.ts:37-40 | the remote document becomes the whole local map |
| `Inventory.PullDiscardsLocalEdits` | src/ui/stores/useInventory.ts:42-45 | a record created locally and not pushed is gone after a pull |
| `Lifecycle.NewItem` | src/ui/components/App.tsx:166-172 | the record tryCreateItem builds has no holder, and its counts are in range exactly when the given count is at least 1 |
| `Lifecycle.HoldsItem` | src/ui/components/App.tsx:204 | the borrower scan: some record, of any status, names the borrower as holder |
| `Lifecycle.CheckOut` | src/ui/components/App.tsx:199-207 | succeeds exactly for a checked-in record with a positive count when no record names the borrower; errors in the order checked out, missing, empty, borrower already holds an item; success changes only status (to checked-out) and holder (to the borrower) |
| `Lifecycle.CheckIn` | src/ui/components/App.tsx:217-221 | succeeds exactly when the count does not exceed the current count and the record is checked out; errors in the order count too high, already checked in, missing; success changes only status (to checked-in), count (to the given one) and holder (to none) |
| `Lifecycle.MarkMissing` | src/ui/components/App.tsx:231 | never fails; the status becomes missing and every other field is kept |
| `Lifecycle.SetCount` | src/ui/components/App.tsx:190 | never fails; the current count becomes the given one, with no check, and every other field is kept |
| `Lifecycle.Step` | src/ui/components/App.tsx:164-236 | the map one handler leaves, or its error; a committed handler leaves every record other than the one it names as it was, and adds or removes no other key |
| `Lifecycle.Run` | src/ui/components/App.tsx:164-236 | handlers in sequence, a failed one leaving the map as it was; a record that no handler in the sequence names keeps its key and its value |
| `Lifecycle.TryCreateItem` | src/ui/components/App.tsx:164-177 | creates through the store a checked-in record with no holder and both counts equal to the given count |
| `Lifecycle.TryDeleteItem` | src/ui/components/App.tsx:179-186 | deletes through the store, with the store's outcome |
| `Lifecycle.TryUpdateItemCount` | src/ui/components/App.tsx:188-195 | updates through the store with the unchecked set-count closure |
| `Lifecycle.TryCheckOutItem` | src/ui/components/App.tsx:197-213 | updates through the store with the check-out closure; the borrower scan reads the store's map as it was before this update |
| `Lifecycle.TryCheckInItem` | src/ui/components/App.tsx:215-227 | updates through the store with the check-in closure |
| `Lifecycle.TryMarkMissingItem` | src/ui/components/App.tsx:229-236 | updates through the store with the mark-missing closure |
| `Lifecycle.CreatedItemIsFull` | src/ui/components/App.tsx:166-172 | a created record is checked in, held by nobody, and has initial count = current count = the given count |
| `Lifecycle.InitialCountNeverChanges` | src/ui/components/App.tsx:164-236 | no handler changes the initial count of any record it keeps |
| `Lifecycle.CheckInNeverRaisesCount` | src/ui/components/App.tsx:215-227 | after a check-in, no record's current count is higher than before |
| `Lifecycle.BorrowerConflictRefused` | src/ui/components/App.tsx:204-205 | a check-out to a borrower named by any record fails with "has already checked out an item" and leaves the map unchanged |
| `Lifecycle.CheckOutThenCheckIn` | src/ui/components/App.tsx:207-221 | check-out and then check-in of the unchanged count gives back the map; only the holder (now none) and the stamp differ |
| `Lifecycle.MarkMissingTwice` | src/ui/components/App.tsx:229-236 | marking missing a second time changes only the stamp |
| `Lifecycle.MissingKeepsBorrower` | src/ui/components/App.tsx:204-231 | a held record marked missing keeps its holder, and that borrower's check-out of any other available record is refused |
| `Lifecycle.DeleteFreesBorrower` | src/ui/stores/useInventory.ts:56-61 | on a sound map, after a held record is marked missing and then deleted, its former holder's check-out of another available record succeeds |
| `Lifecycle.MissingThenCheckIn` | src/ui/components/App.tsx:217-231 | checking in a missing record fails with "count too high" if the count exceeds the current count, and with "is missing" otherwise |
| `Lifecycle.UpdateCountBreaksSoundness` | src/ui/components/App.tsx:188-195 | the set-count handler can raise a count past the initial count of a sound map |
| `Lifecycle.CheckOutKeepsSound` | src/ui/components/App.tsx:197-208 | a check-out keeps counts in range and keeps each borrower to at most one record |
| `Lifecycle.UpdateKeepsSound` | src/ui/components/App.tsx:215-236 | check-in with a count from 0 and mark-missing keep the map sound |
| `Lifecycle.StepKeepsSound` | src/ui/components/App.tsx:164-236 | every handler step of the model that the forms can trigger keeps the map sound, whether it commits or fails (the inherited-name case the model refuses is under "## Left out") |
| `Lifecycle.RunKeepsSound` | src/ui/components/App.tsx:164-236 | every sequence of form-triggered handler steps of the model keeps a sound map sound (the inherited-name case the model refuses is under "## Left out") |
| `Lifecycle.LastWriterWins` | src/ui/stores/useInventory.ts:37-45 | two stores pull the same document and check out X001 to alice and to bob, then push in turn; both check-outs are proved error-free (`errA == None && errB == None`), the model's push cannot fail (network failure and the `sha` rejection are left out), and the remote ends with bob as holder and no record held by alice: the first check-out is overwritten silently |
| `Dashboard.Sum` | src/ui/components/App.tsx:101-154 | the `reduce` fold from 0 that adds one weight per record; each tally below is this fold with its own weight |
| `Dashboard.SoldBox` | src/ui/components/App.tsx:101-105 | a record adds one completed box when checked in with count 0 |
| `Dashboard.InBox` | src/ui/components/App.tsx:107-111 | a record adds one available box when checked in with a positive count |
| `Dashboard.OutBox` | src/ui/components/App.tsx:113-117 | a record adds one box out when checked out |
| `Dashboard.MissingBox` | src/ui/components/App.tsx:119-123 | a record adds one missing box when missing |
| `Dashboard.AnyBox` | src/ui/components/App.tsx:148-150 | every record adds one box to the total |
| `Dashboard.SoldBars` | src/ui/components/App.tsx:125-127 | a record adds its initial less its current count to the bars sold |
| `Dashboard.InBars` | src/ui/components/App.tsx:130-134 | a checked-in record with a positive count adds that count to the bars available |
| `Dashboard.OutBars` | src/ui/components/App.tsx:136-140 | a checked-out record with a positive count adds that count to the bars out |
| `Dashboard.MissingBars` | src/ui/components/App.tsx:142-146 | a missing record with a positive count adds that count to the bars missing |
| `Dashboard.AllBars` | src/ui/components/App.tsx:152-154 | a record adds its initial count to the total bars |
| `Dashboard.BoxesSold` | src/ui/components/App.tsx:101-105 | the completed-boxes tally |
| `Dashboard.BoxesCheckedIn` | src/ui/components/App.tsx:107-111 | the available-boxes tally |
| `Dashboard.BoxesCheckedOut` | src/ui/components/App.tsx:113-117 | the boxes-out tally |
| `Dashboard.BoxesMissing` | src/ui/components/App.tsx:119-123 | the missing-boxes tally |
| `Dashboard.TotalBoxes` | src/ui/components/App.tsx:148-150 | the total-boxes tally |
| `Dashboard.BarsSold` | src/ui/components/App.tsx:125-127 | the bars-sold tally |
| `Dashboard.BarsCheckedIn` | src/ui/components/App.tsx:130-134 | the bars-available tally |
| `Dashboard.BarsCheckedOut` | src/ui/components/App.tsx:136-140 | the bars-out tally |
| `Dashboard.BarsMissing` | src/ui/components/App.tsx:142-146 | the bars-missing tally |
| `Dashboard.TotalBars` | src/ui/components/App.tsx:152-154 | the total-bars tally |
| `Dashboard.BoxesAccount` | src/ui/components/App.tsx:101-150 | the completed, available, out and missing box tallies never exceed the total, and equal it exactly when no checked-in count is negative |
| `Dashboard.BarsAccount` | src/ui/components/App.tsx:125-154 | the four bar tallies add up to the total bars less the sum of the negative counts; that sum is zero exactly when no count is negative |
| `Dashboard.TotalBoxesIsSize` | src/ui/components/App.tsx:148-150 | the total box tally is the number of records in the map |
| `Dashboard.SoundInventoryBalances` | src/ui/components/App.tsx:101-154 | on a sound map the four box tallies sum to the total, which is the number of records, and the four bar tallies sum to the total bars |
| `Dashboard.Filter` | src/ui/components/App.tsx:77-99 | keeps exactly the entries that pass the test, each as many times as in the input, in the input's order |
| `Dashboard.Mentions` | src/ui/components/App.tsx:79-80 | the query matches the id, or the holder when there is one |
| `Dashboard.CheckInOptions` | src/ui/components/App.tsx:77-82 | exactly the checked-out entries with a positive count whose id or holder matches the query, in the order of the entries |
| `Dashboard.CheckOutOptions` | src/ui/components/App.tsx:83-87 | exactly the checked-in entries with a positive count whose id matches the query, in the order of the entries |
| `Dashboard.MissingOptions` | src/ui/components/App.tsx:88-93 | exactly the entries that are not missing, have a positive count, and whose id or holder matches the query, in the order of the entries |
| `Dashboard.DeleteOptions` | src/ui/components/App.tsx:94-99 | exactly the entries whose id or holder matches the query, of any status, in the order of the entries |
| `Dashboard.DashboardList` | src/ui/components/App.tsx:156-162 | exactly the checked-out entries and the checked-in entries with 0 < count < initial count, in the order of the entries |
| `Dashboard.CheckOutOptionsCanCheckOut` | src/ui/components/App.tsx:83-87 | a check-out option fails check-out only when the borrower already holds a record |
| `Dashboard.CheckInOptionsCanCheckIn` | src/ui/components/App.tsx:77-82 | every check-in option accepts a check-in of any count up to its current count |
| `Dashboard.CheckInOfCheckedOut` | src/ui/components/App.tsx:217-221 | a checked-out record accepts a check-in of any count up to its current count |
| `Dashboard.StatusBadge` | src/ui/components/App.tsx:12-27 | the badge is "missing" exactly for missing records; "completed" exactly for checked-in records with a count of 0 or less; "incomplete" exactly for checked-in records with 0 < count < initial count; "checked-in" exactly for checked-in records with a positive count equal to the initial count; "checked-out" for checked-out records, and also for checked-in records whose positive count exceeds the initial count, where the switch falls through |
| `Dashboard.OverfullShowsCheckedOut` | src/ui/components/App.tsx:15-25 | a checked-in record with count 61 of 60 shows the checked-out badge |
| `Dashboard.BadgeAgreesWithTallies` | src/ui/components/App.tsx:12-27 | when counts are in range, the badge is "completed" exactly when the record counts as a sold box, "incomplete" or "checked-in" exactly when it counts as an available box, and "checked-out" or "missing" exactly when it counts in that box tally |
| `Dashboard.DashboardByBadge` | src/ui/components/App.tsx:156-162 | with counts in range, the dashboard lists a record exactly when its badge is "checked-out" or "incomplete" |

## Left out

- The remote document client, `src/ghdb/index.ts`, is not part of this model. It covers HTTP GET/PUT, the `sha` version token checked by the remote, base64, and JSON. Push and pull are modelled as whole-map copies to and from a `Remote` object.
- Network failures of push and pull are not modelled. A failed pull leaves the map unchanged; a failed push leaves the remote unchanged.
- The `pushRemote(...).then(alert)` at the end of each `try*` handler is not modelled. It is asynchronous and is not awaited. Callers push explicitly with `Store.PushRemote`.
- The capture of `get().items` at push time inside the asynchronous call is not modelled separately.
- `alert`, forms, dialogs, JSX rendering, `useEffect`, and the credential in `localStorage` are left out. They are presentation and I/O.
- The `Time` component is left out. It depends on the clock, on `setInterval`, and on floating-point rounding.
- The percentage displays are left out; they use floating-point division and `Math.round`.
- `src/ui/components/Receipt.tsx` is not part of this model.
- Counts are unbounded integers. JavaScript numbers being floats, and `parseInt` yielding `NaN`, are not modelled. A NaN count would pass the check-in guard. A checked-in record with a NaN count would fail every test of the badge's checked-in case and fall through to the checked-out badge; missing and checked-out records would still show their own badges.
- Case-insensitive substring matching (`toLowerCase().includes`) is the caller-supplied `matches` predicate.
- Timestamps are opaque strings supplied by the caller; no ISO-8601 format is modelled. `tryCreateItem` takes its own clock reading, and `createItem` takes another; both are the one `now` argument, since the store overwrites the first.
- Records are values, so immer drafts, freezing, and the aliasing of the object handed to `createItem` are not modelled.
- Dashboard.Filter, Dashboard.CheckInOptions, Dashboard.CheckOutOptions, Dashboard.MissingOptions, Dashboard.DeleteOptions, Dashboard.DashboardList: these keep the order of the entry sequence they are given. Which order `Object.entries` produces (integer-like keys first, then insertion order) is not modelled; `EntriesOf` allows any order. The tallies do not depend on the order.
- `returnedBy` is never written by the core. `tryCreateItem` leaves it undefined, which is modelled as `None`.
- Inventory.Update: for an id that is an inherited `Object.prototype` name but not a key (such as "toString"), the source's guard passes and the transformer runs on the inherited function. Each transformer then stores a partial record: check-out stores status and holder with no counts, check-in stores status, count and a null holder with no initial count, mark-missing stores only the status. For `__proto__`, the assignment replaces the object's prototype instead of adding a key. The model does not represent such records, and returns "does not exist" for this case instead.
- Lifecycle.StepKeepsSound, Lifecycle.RunKeepsSound: these hold for the model only. In the source, the check-out and check-in forms pass any typed id to their handlers (src/ui/components/App.tsx:387-396, 462-471), and the mark-missing form checks the id with the same truthiness test (src/ui/components/App.tsx:596, 728). An inherited name such as "toString" therefore reaches updateItem, whose guard passes, and the closure commits a record with no `initialCount` or no `currentCount`. That record is not `Sound`, and it makes the bar tallies NaN. The model's `Step` returns "does not exist" for these ids (see `Inventory.Update` above), and the soundness results rely on it.
- Inventory.Store.UpdateItem: the same inherited-name case as `Inventory.Update`, with the same deviation. It reaches `Lifecycle.TryUpdateItemCount`, `Lifecycle.TryCheckOutItem`, `Lifecycle.TryCheckInItem` and `Lifecycle.TryMarkMissingItem`, and `Lifecycle.Step` for their operations.
- Assignment to an own key named `__proto__` is also not modelled: in the source it would change the object's prototype instead of adding a key. The model's create refuses that name, as the source's guard does.
- Lifecycle.TryCheckOutItem: the source's borrower scan reads the component's `items` from its last render, not the store. The model scans the store's map just before the update. The two agree whenever a handler runs after the render that followed the previous change.
