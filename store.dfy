/** The profile collection kept in the browser's key-value store
    (Admin.tsx: STORAGE_KEY, getProfiles, saveProfiles). The store holds
    each value in decoded form: serialising to JSON and parsing back is
    taken to be lossless. */
module Store {
  import opened Types
  import opened Constants

  /** The one key under which the whole collection is stored. */
  const StorageKey: string := "ncv_cards_db"

  /** `localStorage`: a map from keys to stored collections. */
  class Storage {
    var items: map<string, seq<UserProfile>>

    constructor (initial: map<string, seq<UserProfile>>)
      ensures items == initial
    {
      items := initial;
    }

    /** `getItem(key)` parsed: None when the key is not in the store. */
    function GetItem(key: string): (r: Option<seq<UserProfile>>)
      reads this
      ensures r.Some? <==> key in items
      ensures r.Some? ==> r.value == items[key]
    {
      if key in items then Some(items[key]) else None
    }

    /** `setItem(key, JSON.stringify(v))`: overwrites that key only. */
    method SetItem(key: string, v: seq<UserProfile>)
      modifies this
      ensures items == old(items)[key := v]
    {
      items := items[key := v];
    }
  }

  /** getProfiles: an absent collection is seeded with the default profile,
      written back and returned; a present one, even an empty list, is
      returned as stored and nothing is written. */
  method GetProfiles(storage: Storage) returns (ps: seq<UserProfile>)
    modifies storage
    ensures StorageKey !in old(storage.items) ==>
      ps == [DefaultProfile] && storage.items == old(storage.items)[StorageKey := [DefaultProfile]]
    ensures StorageKey in old(storage.items) ==>
      ps == old(storage.items)[StorageKey] && storage.items == old(storage.items)
    ensures storage.GetItem(StorageKey) == Some(ps)
  {
    var stored := storage.GetItem(StorageKey);
    if stored.None? {
      var initial := [DefaultProfile];
      storage.SetItem(StorageKey, initial);
      return initial;
    }
    return stored.value;
  }

  /** saveProfiles: the stored collection becomes exactly `ps`; every other
      key keeps its value. */
  method SaveProfiles(storage: Storage, ps: seq<UserProfile>)
    modifies storage
    ensures storage.items == old(storage.items)[StorageKey := ps]
    ensures storage.GetItem(StorageKey) == Some(ps)
  {
    storage.SetItem(StorageKey, ps);
  }

  /** Loading is idempotent: a second load returns what the first returned
      and writes nothing. */
  method LoadTwice(storage: Storage) returns (first: seq<UserProfile>, second: seq<UserProfile>)
    modifies storage
    ensures second == first
    ensures StorageKey !in old(storage.items) ==>
      first == [DefaultProfile] && storage.items == old(storage.items)[StorageKey := [DefaultProfile]]
    ensures StorageKey in old(storage.items) ==>
      first == old(storage.items)[StorageKey] && storage.items == old(storage.items)
  {
    first := GetProfiles(storage);
    ghost var afterFirst := storage.items;
    second := GetProfiles(storage);
    assert storage.items == afterFirst;
  }
}
