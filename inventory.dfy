/**
 * The inventory store of src/ui/stores/useInventory.ts: a map from item id
 * (a barcode) to an item record, with createItem, deleteItem and updateItem
 * guarding and then editing that map in place, and pushRemote / pullRemote
 * copying the whole map to and from the remote document.
 *
 * Each store operation is given twice: as a pure function from the old map to
 * the new map or an error (Create, Delete, Update), and as a method of class
 * Store that edits its `items` field the way the source's immer producer does
 * and is proved to agree with that function.
 */
module Inventory {
  import opened Wrappers

  datatype Status = Missing | CheckedIn | CheckedOut

  /** An ISO-8601 timestamp; the clock is outside the model, so callers supply it. */
  type Stamp = string

  /** One tracked unit. `null` (and a field left undefined) is `None`. */
  datatype Item = Item(
    status: Status,
    borrowedBy: Option<string>,
    returnedBy: Option<string>,
    initialCount: int,
    currentCount: int,
    lastModified: Stamp)

  type Items = map<string, Item>

  /** The messages the store and the lifecycle closures throw. */
  datatype Error =
    | AlreadyExists(id: string)      // createItem: "Item with id '…' already exists"
    | DoesNotExist(id: string)       // deleteItem, updateItem: "… does not exist"
    | IsCheckedOut(id: string)       // check-out closure
    | IsMissing(id: string)          // check-out and check-in closures
    | IsEmpty(id: string)            // check-out closure
    | HasItem(borrower: string)      // check-out closure: "Person '…' has already checked out an item"
    | CountTooHigh(count: int)       // check-in closure: "Cannot check in more than '…'"
    | IsCheckedIn(id: string)        // check-in closure

  /** A record transformer as passed to updateItem; `Err` stands for a throw. */
  type Transform = Item -> Result<Item, Error>

  /**
   * The names every plain object inherits from Object.prototype. Reading one
   * of them from the items object gives a truthy value even when it is not a
   * key of the map.
   */
  const Inherited: set<string> := {
    "constructor", "__proto__", "toString", "toLocaleString", "valueOf", "hasOwnProperty",
    "isPrototypeOf", "propertyIsEnumerable", "__defineGetter__", "__defineSetter__",
    "__lookupGetter__", "__lookupSetter__"
  }

  /** The store's guard `get().items[id]`: a key of the map, or an inherited name. */
  predicate Truthy(items: Items, id: string) {
    id in items || id in Inherited
  }

  /** createItem: refuse an id the guard finds, else store `item` under `id` with a fresh stamp. */
  function Create(items: Items, id: string, item: Item, now: Stamp): (r: Result<Items, Error>)
    ensures r.Err? <==> id in items || id in Inherited
    ensures r.Err? ==> r.error == AlreadyExists(id)
    ensures r.Ok? ==> r.value.Keys == items.Keys + {id}
    ensures r.Ok? ==> r.value[id] == item.(lastModified := now)
    ensures r.Ok? ==> forall k :: k in items ==> r.value[k] == items[k]
  {
    if Truthy(items, id) then Err(AlreadyExists(id))
    else Ok(items[id := item.(lastModified := now)])
  }

  /**
   * deleteItem: refuse an id the guard does not find, else drop that key; no
   * status check, no stamp. An inherited name that is not a key passes the
   * guard, and the delete then removes nothing.
   */
  function Delete(items: Items, id: string): (r: Result<Items, Error>)
    ensures r.Err? <==> id !in items && id !in Inherited
    ensures r.Err? ==> r.error == DoesNotExist(id)
    ensures r.Ok? ==> r.value.Keys == items.Keys - {id}
    ensures r.Ok? ==> forall k :: k in r.value ==> r.value[k] == items[k]
    ensures id in Inherited && id !in items ==> r == Ok(items)
  {
    if !Truthy(items, id) then Err(DoesNotExist(id))
    else
      assert id !in items ==> items - {id} == items;
      Ok(items - {id})
  }

  /**
   * updateItem: refuse an absent id; otherwise run `f` on the record. The
   * model refuses an inherited name that is not a key; the source's guard
   * lets it through (see README). A throw
   * aborts the producer, so the map is unchanged and nothing is stamped;
   * else the record becomes f's result with a fresh stamp.
   */
  function Update(items: Items, id: string, f: Transform, now: Stamp): (r: Result<Items, Error>)
    ensures r.Ok? <==> id in items && f(items[id]).Ok?
    ensures id !in items ==> r == Err(DoesNotExist(id))
    ensures id in items && f(items[id]).Err? ==> r == Err(f(items[id]).error)
    ensures r.Ok? ==> r.value.Keys == items.Keys
    ensures r.Ok? ==> r.value[id] == f(items[id]).value.(lastModified := now)
    ensures r.Ok? ==> forall k :: k in items && k != id ==> r.value[k] == items[k]
  {
    if id !in items then Err(DoesNotExist(id))
    else match f(items[id])
      case Err(e) => Err(e)
      case Ok(item) => Ok(items[id := item.(lastModified := now)])
  }

  /** The map after an operation: its new map when it committed, the old one when it threw. */
  function After(r: Result<Items, Error>, before: Items): Items {
    if r.Ok? then r.value else before
  }

  /** What a caller observes: the new map, and the thrown error if there was one. */
  predicate Applied(r: Result<Items, Error>, before: Items, after: Items, err: Option<Error>) {
    after == After(r, before) && err == (if r.Ok? then None else Some(r.error))
  }

  /** A create that succeeds and the delete of the same id give back the map created from. */
  lemma CreateThenDeleteRestores(items: Items, id: string, item: Item, now: Stamp)
    requires id !in items && id !in Inherited
    ensures Create(items, id, item, now).Ok?
    ensures Delete(Create(items, id, item, now).value, id) == Ok(items)
  {
    var m := Create(items, id, item, now).value;
    assert m - {id} == items;
  }

  /**
   * The second delete of an id fails with "does not exist"; for an inherited
   * name kept as a key (a pulled document may hold one) it succeeds silently.
   */
  lemma DeleteTwiceFails(items: Items, id: string)
    requires id in items
    ensures Delete(items, id).Ok?
    ensures Delete(Delete(items, id).value, id) ==
              if id in Inherited then Ok(items - {id}) else Err(DoesNotExist(id))
  {
  }

  /** createItem("constructor", …) on any map fails with "already exists". */
  lemma InheritedNameAlreadyExists(item: Item, now: Stamp)
    ensures forall items: Items :: Create(items, "constructor", item, now) == Err(AlreadyExists("constructor"))
  {
    assert "constructor" in Inherited;
  }

  /** The stamp the caller writes into the record never reaches the map. */
  lemma CreateOverwritesStamp(items: Items, id: string, item: Item, stamp: Stamp, now: Stamp)
    ensures Create(items, id, item.(lastModified := stamp), now) == Create(items, id, item, now)
  {
  }

  /** The remote JSON document, reduced to the map it decodes to. */
  class Remote {
    var document: Items

    constructor (document: Items)
      ensures this.document == document
    {
      this.document := document;
    }
  }

  /** The useInventory store: the one map every operation edits in place. */
  class Store {
    var items: Items

    constructor ()
      ensures items == map[]
    {
      items := map[];
    }

    method CreateItem(id: string, item: Item, now: Stamp) returns (err: Option<Error>)
      modifies this
      ensures Applied(Create(old(items), id, item, now), old(items), items, err)
    {
      if id in items || id in Inherited {
        return Some(AlreadyExists(id));
      }
      items := items[id := item];
      items := items[id := items[id].(lastModified := now)];
      err := None;
    }

    method DeleteItem(id: string) returns (err: Option<Error>)
      modifies this
      ensures Applied(Delete(old(items), id), old(items), items, err)
    {
      if id !in items && id !in Inherited {
        return Some(DoesNotExist(id));
      }
      items := items - {id};
      err := None;
    }

    method UpdateItem(id: string, f: Transform, now: Stamp) returns (err: Option<Error>)
      modifies this
      ensures Applied(Update(old(items), id, f, now), old(items), items, err)
    {
      if id !in items {
        return Some(DoesNotExist(id));
      }
      var updated := f(items[id]);
      if updated.Err? {
        return Some(updated.error);
      }
      items := items[id := updated.value];
      items := items[id := items[id].(lastModified := now)];
      err := None;
    }

    /** pullRemote: the fetched document replaces the whole map; local edits are dropped, not merged. */
    method PullRemote(remote: Remote)
      modifies this
      ensures items == remote.document
      ensures remote.document == old(remote.document)
    {
      items := remote.document;
    }

    /** pushRemote: the whole map overwrites the remote document. */
    method PushRemote(remote: Remote)
      modifies remote
      ensures remote.document == items
    {
      remote.document := items;
    }
  }

  /** A record created locally and never pushed is gone after the next pull: no merge. */
  method PullDiscardsLocalEdits(store: Store, remote: Remote, id: string, item: Item, now: Stamp)
    requires id !in remote.document
    modifies store
    ensures store.items == remote.document && id !in store.items
  {
    var err := store.CreateItem(id, item, now);
    store.PullRemote(remote);
  }
}
