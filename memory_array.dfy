/**
 * The in-memory database backend: a key/value table updated in place,
 * and the factory that moves another backend's contents into memory.
 */
module MemoryDb {
  import opened Wrappers

  /** A PHP array key. */
  datatype Key = IntKey(i: int) | StrKey(s: string)

  /** The memory backend's settings; the factory ignores them. */
  datatype MemorySettings = MemorySettings

  /** Adding an entry under a new key grows a table by one; overwriting a key does not. */
  lemma CountAfterSet<V>(m: map<Key, V>, k: Key, v: V)
    ensures |m[k := v]| == if k in m then |m| else |m| + 1
  {
    if k in m {
      assert m[k := v].Keys == m.Keys;
    } else {
      assert m[k := v].Keys == m.Keys + {k};
    }
  }

  /** Removing a present key shrinks a table by one; removing an absent key changes nothing. */
  lemma CountAfterUnset<V>(m: map<Key, V>, k: Key)
    ensures |m - {k}| == if k in m then |m| - 1 else |m|
  {
    if k in m {
      assert (m - {k}).Keys + {k} == m.Keys;
    } else {
      assert m - {k} == m;
    }
  }

  /**
   * Another database backend (a driver-backed table), as far as the
   * factory uses it: its contents, a copy of them, and clearing it.
   */
  class DbTable<V> {
    var contents: map<Key, V>

    constructor (entries: map<Key, V>)
      ensures contents == entries
    {
      contents := entries;
    }

    method GetArrayCopy() returns (copy: map<Key, V>)
      ensures copy == contents
    {
      copy := contents;
    }

    method Clear()
      modifies this
      ensures contents == map[]
    {
      contents := map[];
    }
  }

  /** What `getInstance` may be handed as the previous table. */
  datatype Previous<V> =
    | FromMemory(table: MemoryArray<V>)
    | FromDb(db: DbTable<V>)
    | FromArray(entries: map<Key, V>)
    | FromNull

  class MemoryArray<V> {
    var contents: map<Key, V>

    /** Holds exactly the entries of the given array. */
    constructor (entries: map<Key, V>)
      ensures contents == entries
    {
      contents := entries;
    }

    /**
     * `getInstance`: a memory table is reused as it is; another backend's
     * contents move into a new memory table and leave that backend empty;
     * an array is wrapped in a new table, and null gives an empty one.
     */
    static method GetInstance(table: string, previous: Previous<V>, settings: MemorySettings) returns (r: MemoryArray<V>)
      modifies if previous.FromDb? then {previous.db} else {}
      ensures previous.FromMemory? ==> r == previous.table
      ensures previous.FromDb? ==> fresh(r) && r.contents == old(previous.db.contents) && previous.db.contents == map[]
      ensures previous.FromArray? ==> fresh(r) && r.contents == previous.entries
      ensures previous.FromNull? ==> fresh(r) && r.contents == map[]
    {
      match previous
      case FromMemory(t) =>
        r := t;
      case FromDb(db) =>
        var temp := db.GetArrayCopy();
        db.Clear();
        r := new MemoryArray(temp);
      case FromArray(entries) =>
        r := new MemoryArray(entries);
      case FromNull =>
        r := new MemoryArray(map[]);
    }

    /** `isset` and `offsetExists`: whether the key is stored, whatever its value. */
    predicate Isset(k: Key)
      reads this
    {
      k in contents
    }

    /** `offsetGet`: the stored value, or null (None) for a missing key instead of an error. */
    function OffsetGet(k: Key): (r: Option<V>)
      reads this
      ensures r.Some? <==> Isset(k)
      ensures r.Some? ==> r.value == contents[k]
    {
      if k in contents then Some(contents[k]) else None
    }

    /** `count`: the number of distinct stored keys. */
    function Count(): nat
      reads this
    {
      |contents|
    }

    /**
     * `set`: afterwards the key is stored with the new value, every other
     * key keeps its value, and the count grows by one exactly for a new key.
     */
    method Set(k: Key, v: V)
      modifies this
      ensures contents == old(contents)[k := v]
      ensures Isset(k) && OffsetGet(k) == Some(v)
      ensures forall j :: j != k ==> OffsetGet(j) == old(OffsetGet(j))
      ensures Count() == if old(Isset(k)) then old(Count()) else old(Count()) + 1
    {
      CountAfterSet(contents, k, v);
      contents := contents[k := v];
    }

    /**
     * `unset` and `offsetUnset`: afterwards the key is gone and every other
     * key keeps its value; unsetting a missing key changes nothing.
     */
    method Unset(k: Key)
      modifies this
      ensures contents == old(contents) - {k}
      ensures !Isset(k)
      ensures forall j :: j != k ==> OffsetGet(j) == old(OffsetGet(j))
      ensures !old(Isset(k)) ==> contents == old(contents)
      ensures Count() == if old(Isset(k)) then old(Count()) - 1 else old(Count())
    {
      CountAfterUnset(contents, k);
      contents := contents - {k};
    }

    /** `clear`: leaves the table empty. */
    method Clear()
      modifies this
      ensures contents == map[]
      ensures Count() == 0 && forall k :: !Isset(k)
    {
      contents := map[];
    }
  }
}
