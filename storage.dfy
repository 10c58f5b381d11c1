/** The browser's `localStorage` as the ledgers use it: named slots, each
    either absent or holding a snapshot of a whole ledger list. The text
    encoding of a snapshot is abstracted away: a slot holds the list of
    records itself. */
module BrowserStorage {
  import opened Wrappers
  import opened Records

  class LocalStorage {
    /** The slots that are set, by key. A key outside the map has no slot. */
    var slots: map<string, seq<Investment>>

    constructor(initial: map<string, seq<Investment>>)
      ensures slots == initial
    {
      slots := initial;
    }

    /** `getItem(key)`: the snapshot in the slot, or None (null) when no
        slot is set under `key`. */
    function GetItem(key: string): (r: Option<seq<Investment>>)
      reads this
      ensures r.None? <==> key !in slots
      ensures r.Some? ==> r.value == slots[key]
    {
      if key in slots then Some(slots[key]) else None
    }

    /** `setItem(key, value)`: overwrite one slot; every other slot stays. */
    method SetItem(key: string, value: seq<Investment>)
      modifies this
      ensures slots == old(slots)[key := value]
    {
      slots := slots[key := value];
    }

    /** `removeItem(key)`: delete one slot; every other slot stays. */
    method RemoveItem(key: string)
      modifies this
      ensures slots == old(slots) - {key}
    {
      slots := slots - {key};
    }
  }
}
