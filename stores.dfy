/**
 * `StoreManager`: the store list kept under the key "store_list". Every change
 * reads the whole list, changes it and writes the whole list back.
 */
module Stores {
  import opened Persistence

  /** A shop the assistant can send the user to; `estimatedTime` is the trip in minutes. */
  datatype Store = Store(id: string, name: string, distance: string, estimatedTime: int)

  /** The key `deleteStore` matches on. */
  function StoreId(x: Store): string
  {
    x.id
  }

  class StoreManager {
    /** What the key-value store holds under "store_list". */
    var slot: Slot<Store>

    constructor(slot: Slot<Store>)
      ensures this.slot == slot
    {
      this.slot := slot;
    }

    /** The list `getStores` would return now. */
    function Stored(): seq<Store>
      reads this
    {
      Decode(slot)
    }

    /** The stored list, or nothing at all when the key is empty or its data does not decode. */
    method GetStores() returns (stores: seq<Store>)
      ensures slot.Encoded? ==> stores == slot.items
      ensures !slot.Encoded? ==> stores == []
    {
      stores := Stored();
    }

    /** Overwrites whatever was stored; reading back gives exactly the list written. */
    method SaveStores(stores: seq<Store>)
      modifies this
      ensures slot == Encoded(stores)
      ensures Stored() == stores
    {
      slot := Encoded(stores);
    }

    /** Appends one record at the end; the records already there keep their order. */
    method SaveStore(store: Store)
      modifies this
      ensures slot == Encoded(old(Stored()) + [store])
      ensures Stored()[..|old(Stored())|] == old(Stored()) && Stored()[|old(Stored())|] == store
    {
      var stores := GetStores();
      stores := stores + [store];
      SaveStores(stores);
    }

    /**
     * Drops every record with this id and keeps the rest in order; an id no
     * record has leaves the list as it was.
     */
    method DeleteStore(id: string)
      modifies this
      ensures slot == Encoded(Without(old(Stored()), StoreId, id))
      ensures IsSubsequence(Stored(), old(Stored()))
      ensures (forall x :: x in old(Stored()) ==> x.id != id) ==> Stored() == old(Stored())
    {
      var stores := GetStores();
      WithoutKeepsOrder(stores, StoreId, id);
      if forall x :: x in stores ==> x.id != id {
        WithoutAbsent(stores, StoreId, id);
      }
      SaveStores(Without(stores, StoreId, id));
    }
  }
}
