/**
 * The lifecycle transitions of src/ui/components/App.tsx: the record
 * transformers that the try* handlers hand to updateItem, the record
 * tryCreateItem hands to createItem, and the handlers themselves driving a
 * Store. Step and Run replay the handlers on the pure map, so that the
 * invariants of the lifecycle can be stated over any sequence of them.
 */
module Lifecycle {
  import opened Wrappers
  import opened Inventory

  /** The record tryCreateItem builds: checked in, nobody holding it, full. */
  function NewItem(count: int, now: Stamp): (r: Item)
    ensures CountsInRange(r) <==> 1 <= count
    ensures r.borrowedBy == None
  {
    Item(CheckedIn, None, None, count, count, now)
  }

  /** Some record of `snapshot`, of any status, names `borrower` as its holder. */
  predicate HoldsItem(snapshot: Items, borrower: string) {
    exists k :: k in snapshot && snapshot[k].borrowedBy == Some(borrower)
  }

  /**
   * The check-out closure. Its checks run in the order: already checked out,
   * missing, empty, borrower already holds a record of `snapshot`.
   */
  function CheckOut(snapshot: Items, id: string, borrower: string, item: Item): (r: Result<Item, Error>)
    ensures r.Ok? <==> item.status.CheckedIn? && item.currentCount > 0 && !HoldsItem(snapshot, borrower)
    ensures r.Ok? ==> r.value.status.CheckedOut? && r.value.borrowedBy == Some(borrower)
    ensures r.Ok? ==> r.value.(status := item.status, borrowedBy := item.borrowedBy) == item
    ensures item.status.CheckedOut? ==> r == Err(IsCheckedOut(id))
    ensures item.status.Missing? ==> r == Err(IsMissing(id))
    ensures item.status.CheckedIn? && item.currentCount <= 0 ==> r == Err(IsEmpty(id))
    ensures item.status.CheckedIn? && item.currentCount > 0 && HoldsItem(snapshot, borrower) ==>
              r == Err(HasItem(borrower))
  {
    if item.status.CheckedOut? then Err(IsCheckedOut(id))
    else if item.status.Missing? then Err(IsMissing(id))
    else if item.currentCount <= 0 then Err(IsEmpty(id))
    else if HoldsItem(snapshot, borrower) then Err(HasItem(borrower))
    else Ok(item.(status := CheckedOut, borrowedBy := Some(borrower)))
  }

  /**
   * The check-in closure: the count may only go down or stay, then the item
   * must be neither checked in nor missing.
   */
  function CheckIn(id: string, count: int, item: Item): (r: Result<Item, Error>)
    ensures r.Ok? <==> count <= item.currentCount && item.status.CheckedOut?
    ensures r.Ok? ==> r.value.status.CheckedIn? && r.value.borrowedBy == None
    ensures r.Ok? ==> r.value.currentCount == count <= item.currentCount
    ensures r.Ok? ==> r.value.(status := item.status, currentCount := item.currentCount, borrowedBy := item.borrowedBy) == item
    ensures count > item.currentCount ==> r == Err(CountTooHigh(item.currentCount))
    ensures count <= item.currentCount && item.status.CheckedIn? ==> r == Err(IsCheckedIn(id))
    ensures count <= item.currentCount && item.status.Missing? ==> r == Err(IsMissing(id))
  {
    if count > item.currentCount then Err(CountTooHigh(item.currentCount))
    else if item.status.CheckedIn? then Err(IsCheckedIn(id))
    else if item.status.Missing? then Err(IsMissing(id))
    else Ok(item.(status := CheckedIn, currentCount := count, borrowedBy := None))
  }

  /** The mark-missing closure: any status becomes missing; holder and counts are kept. */
  function MarkMissing(item: Item): (r: Result<Item, Error>)
    ensures r.Ok? && r.value.status.Missing?
    ensures r.value.(status := item.status) == item
  {
    Ok(item.(status := Missing))
  }

  /** The closure of tryUpdateItemCount: any count at all, no check. */
  function SetCount(count: int, item: Item): (r: Result<Item, Error>)
    ensures r.Ok? && r.value.currentCount == count
    ensures r.value.(currentCount := item.currentCount) == item
  {
    Ok(item.(currentCount := count))
  }

  // The closures as values, one per handler.
  function CheckOutUpdate(snapshot: Items, id: string, borrower: string): Transform {
    item => CheckOut(snapshot, id, borrower, item)
  }

  function CheckInUpdate(id: string, count: int): Transform {
    item => CheckIn(id, count, item)
  }

  function MarkMissingUpdate(): Transform {
    item => MarkMissing(item)
  }

  function SetCountUpdate(count: int): Transform {
    item => SetCount(count, item)
  }

  /** One handler invocation of the UI, with its form inputs. */
  datatype Op =
    | CreateOp(id: string, count: int)
    | DeleteOp(id: string)
    | UpdateCountOp(id: string, count: int)
    | CheckOutOp(id: string, borrower: string)
    | CheckInOp(id: string, count: int)
    | MarkMissingOp(id: string)

  /** The store operation a handler performs, on the pure map. It touches only the record it names. */
  function Step(items: Items, op: Op, now: Stamp): (r: Result<Items, Error>)
    ensures r.Ok? ==> forall k :: k != op.id ==> (k in r.value <==> k in items)
    ensures r.Ok? ==> forall k :: k in items && k != op.id ==> r.value[k] == items[k]
  {
    match op
    case CreateOp(id, count) => Create(items, id, NewItem(count, now), now)
    case DeleteOp(id) => Delete(items, id)
    case UpdateCountOp(id, count) => Update(items, id, SetCountUpdate(count), now)
    case CheckOutOp(id, borrower) => Update(items, id, CheckOutUpdate(items, id, borrower), now)
    case CheckInOp(id, count) => Update(items, id, CheckInUpdate(id, count), now)
    case MarkMissingOp(id) => Update(items, id, MarkMissingUpdate(), now)
  }

  /** Handlers one after another; a failed one only alerts, so the map carries on unchanged. */
  function Run(items: Items, ops: seq<(Op, Stamp)>): (r: Items)
    ensures forall k :: (forall i :: 0 <= i < |ops| ==> ops[i].0.id != k) ==> (k in r <==> k in items)
    ensures forall k :: k in items && (forall i :: 0 <= i < |ops| ==> ops[i].0.id != k) ==> r[k] == items[k]
    decreases |ops|
  {
    if ops == [] then items
    else Run(After(Step(items, ops[0].0, ops[0].1), items), ops[1..])
  }

  // The handlers, driving the store in place. The trailing pushRemote of each
  // is asynchronous and is left to the caller (Store.PushRemote).

  method TryCreateItem(store: Store, id: string, count: int, now: Stamp) returns (err: Option<Error>)
    modifies store
    ensures Applied(Step(old(store.items), CreateOp(id, count), now), old(store.items), store.items, err)
  {
    err := store.CreateItem(id, NewItem(count, now), now);
  }

  method TryDeleteItem(store: Store, id: string) returns (err: Option<Error>)
    modifies store
    // deleteItem takes no stamp; the "" only fills Step's stamp argument, which Delete ignores.
    ensures Applied(Step(old(store.items), DeleteOp(id), ""), old(store.items), store.items, err)
  {
    err := store.DeleteItem(id);
  }

  method TryUpdateItemCount(store: Store, id: string, count: int, now: Stamp) returns (err: Option<Error>)
    modifies store
    ensures Applied(Step(old(store.items), UpdateCountOp(id, count), now), old(store.items), store.items, err)
  {
    err := store.UpdateItem(id, SetCountUpdate(count), now);
  }

  method TryCheckOutItem(store: Store, id: string, borrower: string, now: Stamp) returns (err: Option<Error>)
    modifies store
    ensures Applied(Step(old(store.items), CheckOutOp(id, borrower), now), old(store.items), store.items, err)
  {
    var snapshot := store.items;
    err := store.UpdateItem(id, CheckOutUpdate(snapshot, id, borrower), now);
  }

  method TryCheckInItem(store: Store, id: string, count: int, now: Stamp) returns (err: Option<Error>)
    modifies store
    ensures Applied(Step(old(store.items), CheckInOp(id, count), now), old(store.items), store.items, err)
  {
    err := store.UpdateItem(id, CheckInUpdate(id, count), now);
  }

  method TryMarkMissingItem(store: Store, id: string, now: Stamp) returns (err: Option<Error>)
    modifies store
    ensures Applied(Step(old(store.items), MarkMissingOp(id), now), old(store.items), store.items, err)
  {
    err := store.UpdateItem(id, MarkMissingUpdate(), now);
  }

  // ---------------------------------------------------------------------------
  // Invariants of the lifecycle

  /** Counts as the data model intends them: a positive capacity, and 0 <= current <= initial. */
  predicate CountsInRange(item: Item) {
    1 <= item.initialCount && 0 <= item.currentCount <= item.initialCount
  }

  /** No borrower is named as holder by two records. */
  predicate OneItemPerBorrower(items: Items) {
    forall j, k ::
      j in items && k in items && items[j].borrowedBy.Some? && items[j].borrowedBy == items[k].borrowedBy
      ==> j == k
  }

  predicate Sound(items: Items) {
    (forall k :: k in items ==> CountsInRange(items[k])) && OneItemPerBorrower(items)
  }

  /** The inputs the forms can submit: creation counts from 1, check-in counts from 0. */
  predicate FormInput(op: Op) {
    match op
    case CreateOp(_, count) => 1 <= count
    case CheckInOp(_, count) => 0 <= count
    case UpdateCountOp(_, _) => false   // tryUpdateItemCount has no form
    case _ => true
  }

  /** A created item is checked in, held by nobody, and full. */
  lemma CreatedItemIsFull(items: Items, id: string, count: int, now: Stamp)
    requires id !in items && id !in Inherited
    ensures Step(items, CreateOp(id, count), now).Ok?
    ensures var it := Step(items, CreateOp(id, count), now).value[id];
            it.status.CheckedIn? && it.borrowedBy == None &&
            it.initialCount == count && it.currentCount == count
  {
  }

  /** No handler changes the initial count of a record it keeps. */
  lemma InitialCountNeverChanges(items: Items, op: Op, now: Stamp, k: string)
    requires k in items
    requires Step(items, op, now).Ok? && k in Step(items, op, now).value
    ensures Step(items, op, now).value[k].initialCount == items[k].initialCount
  {
  }

  /** A check-in never raises a count, and leaves every other record alone. */
  lemma CheckInNeverRaisesCount(items: Items, id: string, count: int, now: Stamp, k: string)
    requires k in items
    requires Step(items, CheckInOp(id, count), now).Ok?
    ensures Step(items, CheckInOp(id, count), now).value[k].currentCount <= items[k].currentCount
  {
  }

  /** A refused check-out leaves the whole map as it was; a borrower holding any record is refused. */
  lemma BorrowerConflictRefused(items: Items, id: string, borrower: string, now: Stamp)
    requires id in items && items[id].status.CheckedIn? && items[id].currentCount > 0
    requires HoldsItem(items, borrower)
    ensures Step(items, CheckOutOp(id, borrower), now) == Err(HasItem(borrower))
    ensures After(Step(items, CheckOutOp(id, borrower), now), items) == items
  {
  }

  /** Check-out followed by a check-in of the unchanged count restores the record but for holder and stamp. */
  lemma CheckOutThenCheckIn(items: Items, id: string, borrower: string, t1: Stamp, t2: Stamp)
    requires id in items && items[id].status.CheckedIn? && items[id].currentCount > 0
    requires !HoldsItem(items, borrower)
    ensures Step(items, CheckOutOp(id, borrower), t1).Ok?
    ensures var out := Step(items, CheckOutOp(id, borrower), t1).value;
            Step(out, CheckInOp(id, items[id].currentCount), t2) ==
              Ok(items[id := items[id].(borrowedBy := None, lastModified := t2)])
  {
    var out := Step(items, CheckOutOp(id, borrower), t1).value;
    var back := Step(out, CheckInOp(id, items[id].currentCount), t2);
    assert back.Ok?;
    assert back.value == items[id := items[id].(borrowedBy := None, lastModified := t2)];
  }

  /** Marking missing twice: the second time only the stamp changes. */
  lemma MarkMissingTwice(items: Items, id: string, t1: Stamp, t2: Stamp)
    requires id in items
    ensures Step(items, MarkMissingOp(id), t1).Ok?
    ensures var once := Step(items, MarkMissingOp(id), t1).value;
            Step(once, MarkMissingOp(id), t2) == Ok(once[id := once[id].(lastModified := t2)])
  {
    var once := Step(items, MarkMissingOp(id), t1).value;
    var twice := Step(once, MarkMissingOp(id), t2);
    assert twice.value == once[id := once[id].(lastModified := t2)];
  }

  /**
   * A checked-out item that goes missing keeps its holder, so that borrower
   * is refused the next check-out of any other item.
   */
  lemma MissingKeepsBorrower(items: Items, id: string, other: string, borrower: string, t1: Stamp, t2: Stamp)
    requires id in items && items[id].borrowedBy == Some(borrower)
    requires other in items && other != id
    requires items[other].status.CheckedIn? && items[other].currentCount > 0
    ensures Step(items, MarkMissingOp(id), t1).Ok?
    ensures var lost := Step(items, MarkMissingOp(id), t1).value;
            lost[id].status.Missing? && lost[id].borrowedBy == Some(borrower) &&
            Step(lost, CheckOutOp(other, borrower), t2) == Err(HasItem(borrower))
  {
    var lost := Step(items, MarkMissingOp(id), t1).value;
    assert lost[id].borrowedBy == Some(borrower);
    assert HoldsItem(lost, borrower);
  }

  /**
   * Deleting the missing record frees its holder: delete checks no status, so
   * the scan no longer finds the borrower, and a check-out of another
   * available record goes through.
   */
  lemma DeleteFreesBorrower(items: Items, id: string, other: string, borrower: string, t1: Stamp, t2: Stamp)
    requires Sound(items)
    requires id in items && items[id].borrowedBy == Some(borrower)
    requires other in items && other != id
    requires items[other].status.CheckedIn? && items[other].currentCount > 0
    ensures var lost := Step(items, MarkMissingOp(id), t1).value;
            Step(lost, DeleteOp(id), t2).Ok? &&
            Step(Step(lost, DeleteOp(id), t2).value, CheckOutOp(other, borrower), t2).Ok?
  {
  }

  /** Checking in a missing item fails: on the count first, then on being missing. */
  lemma MissingThenCheckIn(items: Items, id: string, count: int, t1: Stamp, t2: Stamp)
    requires id in items
    ensures var lost := Step(items, MarkMissingOp(id), t1).value;
            Step(lost, CheckInOp(id, count), t2) ==
              if count > items[id].currentCount then Err(CountTooHigh(items[id].currentCount))
              else Err(IsMissing(id))
  {
  }

  /** tryUpdateItemCount validates nothing: from a sound map it can raise a count past the capacity. */
  lemma UpdateCountBreaksSoundness()
    ensures var items := map["B01" := Item(CheckedIn, None, None, 60, 60, "")];
            Sound(items) && Step(items, UpdateCountOp("B01", 61), "").Ok? &&
            !Sound(Step(items, UpdateCountOp("B01", 61), "").value)
  {
    var items := map["B01" := Item(CheckedIn, None, None, 60, 60, "")];
    var after := Step(items, UpdateCountOp("B01", 61), "").value;
    assert !CountsInRange(after["B01"]);
  }

  lemma CheckOutKeepsSound(items: Items, id: string, borrower: string, now: Stamp)
    requires Sound(items)
    ensures Step(items, CheckOutOp(id, borrower), now).Ok? ==> Sound(Step(items, CheckOutOp(id, borrower), now).value)
  {
    var r := Step(items, CheckOutOp(id, borrower), now);
    if r.Ok? {
      var m := r.value;
      assert !HoldsItem(items, borrower);
      assert m[id].borrowedBy == Some(borrower);
    }
  }

  lemma UpdateKeepsSound(items: Items, op: Op, now: Stamp)
    requires Sound(items) && FormInput(op)
    requires op.CheckInOp? || op.MarkMissingOp?
    ensures Step(items, op, now).Ok? ==> Sound(Step(items, op, now).value)
  {
    var r := Step(items, op, now);
    if r.Ok? {
      var m := r.value;
      forall j, k | j in m && k in m && m[j].borrowedBy.Some? && m[j].borrowedBy == m[k].borrowedBy
        ensures j == k
      {
        assert items[j].borrowedBy == m[j].borrowedBy && items[k].borrowedBy == m[k].borrowedBy;
      }
    }
  }

  /** Every handler a form can trigger keeps the map sound. */
  lemma StepKeepsSound(items: Items, op: Op, now: Stamp)
    requires Sound(items) && FormInput(op)
    ensures Sound(After(Step(items, op, now), items))
  {
    match op
    case CreateOp(id, count) =>
    case DeleteOp(id) =>
    case CheckOutOp(id, borrower) => CheckOutKeepsSound(items, id, borrower, now);
    case CheckInOp(id, count) => UpdateKeepsSound(items, op, now);
    case MarkMissingOp(id) => UpdateKeepsSound(items, op, now);
  }

  /** Any sequence of form-submitted handlers keeps a sound map sound. */
  lemma {:induction false} RunKeepsSound(items: Items, ops: seq<(Op, Stamp)>)
    requires Sound(items)
    requires forall i :: 0 <= i < |ops| ==> FormInput(ops[i].0)
    ensures Sound(Run(items, ops))
    decreases |ops|
  {
    if ops != [] {
      StepKeepsSound(items, ops[0].0, ops[0].1);
      RunKeepsSound(After(Step(items, ops[0].0, ops[0].1), items), ops[1..]);
    }
  }

  /**
   * Two clients pull the same document and each checks out X001 to a
   * different borrower, then pushes. The second push overwrites the first:
   * the remote shows only bob, and alice's check-out is lost without error.
   */
  method LastWriterWins(remote: Remote, a: Store, b: Store, t1: Stamp, t2: Stamp)
    returns (errA: Option<Error>, errB: Option<Error>)
    requires a != b
    requires "X001" in remote.document
    requires remote.document["X001"].status.CheckedIn? && remote.document["X001"].currentCount == 60
    requires !HoldsItem(remote.document, "alice") && !HoldsItem(remote.document, "bob")
    modifies remote, a, b
    ensures "X001" in remote.document && remote.document["X001"].borrowedBy == Some("bob")
    ensures !HoldsItem(remote.document, "alice")
    ensures errA == None && errB == None
  {
    a.PullRemote(remote);
    b.PullRemote(remote);
    errA := TryCheckOutItem(a, "X001", "alice", t1);
    a.PushRemote(remote);
    errB := TryCheckOutItem(b, "X001", "bob", t2);
    b.PushRemote(remote);
    assert remote.document == b.items;
    assert forall k :: k in b.items && k != "X001" ==> b.items[k].borrowedBy != Some("alice");
  }
}
