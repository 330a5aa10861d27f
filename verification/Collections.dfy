/** The two containers of the server: a growing array and an association list, both with doubling
    capacity and deletion by shifting the tail. */
module Collections {
  import opened Bytes

  const INITIAL_CAPACITY: nat := 8
  const GROWTH_FACTOR: nat := 2

  function Pow2(k: nat): (r: nat)
    ensures r > 0
  {
    if k == 0 then 1 else 2 * Pow2(k - 1)
  }

  /** A capacity reached from the initial one by doubling. */
  ghost predicate Doubled(capacity: nat) {
    exists k: nat :: capacity == INITIAL_CAPACITY * Pow2(k)
  }

  lemma DoubledAgain(capacity: nat)
    requires Doubled(capacity)
    ensures Doubled(GROWTH_FACTOR * capacity) && capacity >= INITIAL_CAPACITY
  {
    var k: nat :| capacity == INITIAL_CAPACITY * Pow2(k);
    assert GROWTH_FACTOR * capacity == INITIAL_CAPACITY * Pow2(k + 1);
  }

  lemma DoubledOnce()
    ensures Doubled(INITIAL_CAPACITY)
  {
    assert INITIAL_CAPACITY == INITIAL_CAPACITY * Pow2(0);
  }

  // -------- vector --------

  class Vector<T(0)> {
    var data: array<T>
    var size: nat
    ghost var elements: seq<T>

    ghost predicate Valid()
      reads this, data
    {
      size <= data.Length && Doubled(data.Length) && elements == data[..size]
    }

    /** `vector_create` without callbacks. */
    constructor ()
      ensures Valid() && elements == [] && fresh(data)
    {
      data := new T[INITIAL_CAPACITY];
      size := 0;
      elements := [];
      new;
      DoubledOnce();
    }

    /** `vector_get`: nothing when the position is out of range. */
    method Get(n: nat) returns (r: Option<T>)
      requires Valid()
      ensures r == if n < |elements| then Some(elements[n]) else None
    {
      if n >= size {
        return None;
      }
      r := Some(data[n]);
    }

    /** `vector_push_back`; `memory` says whether a needed `realloc` succeeds. When it does not, the element
        is dropped. */
    method PushBack(element: T, memory: bool)
      requires Valid()
      modifies this, data
      ensures Valid() && (data == old(data) || fresh(data))
      ensures memory || old(size) < old(data.Length) ==> elements == old(elements) + [element]
      ensures !memory && old(size) == old(data.Length) ==> elements == old(elements)
      ensures data.Length == if old(size) == old(data.Length) && memory
                             then GROWTH_FACTOR * old(data.Length) else old(data.Length)
    {
      if size == data.Length {
        if !memory {
          return;
        }
        DoubledAgain(data.Length);
        var next := new T[data.Length * GROWTH_FACTOR];
        forall i | 0 <= i < size {
          next[i] := data[i];
        }
        data := next;
      }
      data[size] := element;
      size := size + 1;
      elements := elements + [element];
    }

    /** `vector_erase`: the elements behind the position move down, their order unchanged. */
    method Erase(position: nat)
      requires Valid()
      modifies this, data
      ensures Valid() && data == old(data)
      ensures elements ==
        if position < old(size) then old(elements)[..position] + old(elements)[position + 1..]
        else old(elements)
    {
      if position >= size {
        return;
      }
      forall i | position <= i < size - 1 {
        data[i] := data[i + 1];
      }
      size := size - 1;
      elements := elements[..position] + elements[position + 1..];
    }
  }

  // -------- dictionary --------

  datatype Entry<V> = Entry(key: int, value: V)

  ghost predicate UniqueKeys<V>(es: seq<Entry<V>>) {
    forall i, j :: 0 <= i < j < |es| ==> es[i].key != es[j].key
  }

  /** The finite map an array of entries stands for. */
  ghost function AsMap<V>(es: seq<Entry<V>>): map<int, V>
    requires UniqueKeys(es)
  {
    map i | 0 <= i < |es| :: es[i].key := es[i].value
  }

  /** The first position of `key`, or the length. */
  function KeyIndex<V>(es: seq<Entry<V>>, key: int): (r: nat)
    ensures r <= |es|
    ensures forall i :: 0 <= i < r ==> es[i].key != key
    ensures r < |es| ==> es[r].key == key
  {
    if es == [] || es[0].key == key then 0 else 1 + KeyIndex(es[1..], key)
  }

  /** Replaces the value of `key` in place, or appends an entry. */
  function Put<V>(es: seq<Entry<V>>, key: int, value: V): seq<Entry<V>> {
    var i := KeyIndex(es, key);
    if i < |es| then es[i := Entry(key, value)] else es + [Entry(key, value)]
  }

  /** Removes the entry of `key`; the entries behind it move down. */
  function Delete<V>(es: seq<Entry<V>>, key: int): seq<Entry<V>> {
    var i := KeyIndex(es, key);
    if i < |es| then es[..i] + es[i + 1..] else es
  }

  lemma PutKeepsUnique<V>(es: seq<Entry<V>>, key: int, value: V)
    requires UniqueKeys(es)
    ensures UniqueKeys(Put(es, key, value))
  {
  }

  lemma PutIsUpdate<V>(es: seq<Entry<V>>, key: int, value: V)
    requires UniqueKeys(es)
    ensures UniqueKeys(Put(es, key, value))
    ensures AsMap(Put(es, key, value)) == AsMap(es)[key := value]
  {
    PutKeepsUnique(es, key, value);
    var i := KeyIndex(es, key);
    var es' := Put(es, key, value);
    assert es'[i] == Entry(key, value);
    forall k ensures k in AsMap(es') <==> k in AsMap(es)[key := value] {
      if k in AsMap(es) && k != key {
        var j :| 0 <= j < |es| && es[j].key == k;
        assert es'[j] == es[j];
      }
    }
  }

  /** Where the entries of the shortened array come from. */
  lemma DeletedAt<V>(es: seq<Entry<V>>, key: int, j: nat)
    requires KeyIndex(es, key) < |es| && j < |Delete(es, key)|
    ensures Delete(es, key)[j] == es[if j < KeyIndex(es, key) then j else j + 1]
  {
  }

  lemma DeleteKeepsUnique<V>(es: seq<Entry<V>>, key: int)
    requires UniqueKeys(es)
    ensures UniqueKeys(Delete(es, key))
  {
    var es' := Delete(es, key);
    if KeyIndex(es, key) < |es| {
      forall i, j | 0 <= i < j < |es'| ensures es'[i].key != es'[j].key {
        DeletedAt(es, key, i);
        DeletedAt(es, key, j);
      }
    }
  }

  /** Each key other than the removed one keeps its value. */
  lemma DeletedLookup<V>(es: seq<Entry<V>>, key: int, j: nat)
    requires UniqueKeys(es) && KeyIndex(es, key) < |es| && UniqueKeys(Delete(es, key))
    requires j < |es| && es[j].key != key
    ensures es[j].key in AsMap(Delete(es, key)) && AsMap(Delete(es, key))[es[j].key] == es[j].value
  {
    var i := KeyIndex(es, key);
    var es' := Delete(es, key);
    var j' := if j < i then j else j - 1;
    DeletedAt(es, key, j');
    assert es'[j'] == es[j];
    assert es'[j'].key in AsMap(es');
  }

  lemma DeleteIsRemoval<V>(es: seq<Entry<V>>, key: int)
    requires UniqueKeys(es)
    ensures UniqueKeys(Delete(es, key))
    ensures AsMap(Delete(es, key)) == AsMap(es) - {key}
  {
    DeleteKeepsUnique(es, key);
    var es' := Delete(es, key);
    if KeyIndex(es, key) < |es| {
      forall k | k in AsMap(es) && k != key ensures k in AsMap(es') && AsMap(es')[k] == AsMap(es)[k] {
        var j :| 0 <= j < |es| && es[j].key == k;
        DeletedLookup(es, key, j);
      }
      forall k | k in AsMap(es') ensures k in AsMap(es) - {key} {
        var j :| 0 <= j < |es'| && es'[j].key == k;
        DeletedAt(es, key, j);
        DeletedOther(es, key, j);
      }
    }
  }

  lemma DeletedOther<V>(es: seq<Entry<V>>, key: int, j: nat)
    requires UniqueKeys(es) && KeyIndex(es, key) < |es| && j < |Delete(es, key)|
    ensures Delete(es, key)[j].key != key && Delete(es, key)[j].key in AsMap(es)
  {
    DeletedAt(es, key, j);
    var i := KeyIndex(es, key);
    assert es[if j < i then j else j + 1].key in AsMap(es);
  }

  lemma LookupIsSelection<V>(es: seq<Entry<V>>, key: int)
    requires UniqueKeys(es)
    ensures
      var i := KeyIndex(es, key);
      if i < |es| then key in AsMap(es) && AsMap(es)[key] == es[i].value else key !in AsMap(es)
  {
    var i := KeyIndex(es, key);
    if i < |es| {
      assert es[i].key in AsMap(es);
    }
  }

  /** Any sequence of operations on the array is the same sequence on the map. */
  datatype Operation<V> = Set(key: int, value: V) | Remove(key: int)

  function OnEntries<V>(ops: seq<Operation<V>>): seq<Entry<V>> {
    if ops == [] then []
    else
      var before := OnEntries(ops[..|ops| - 1]);
      match ops[|ops| - 1]
      case Set(key, value) => Put(before, key, value)
      case Remove(key) => Delete(before, key)
  }

  function OnMap<V>(ops: seq<Operation<V>>): map<int, V> {
    if ops == [] then map[]
    else
      var before := OnMap(ops[..|ops| - 1]);
      match ops[|ops| - 1]
      case Set(key, value) => before[key := value]
      case Remove(key) => before - {key}
  }

  lemma {:induction false} EntriesAreMap<V>(ops: seq<Operation<V>>)
    ensures UniqueKeys(OnEntries(ops)) && AsMap(OnEntries(ops)) == OnMap(ops)
  {
    if ops != [] {
      var before := ops[..|ops| - 1];
      EntriesAreMap(before);
      match ops[|ops| - 1]
      case Set(key, value) => PutIsUpdate(OnEntries(before), key, value);
      case Remove(key) => DeleteIsRemoval(OnEntries(before), key);
    }
  }

  class Dictionary<V(0)> {
    var entries: array<Entry<V>>
    var size: nat
    ghost var contents: map<int, V>

    ghost predicate Valid()
      reads this, entries
    {
      && size <= entries.Length && Doubled(entries.Length)
      && UniqueKeys(entries[..size]) && contents == AsMap(entries[..size])
    }

    /** `dictionary_create` with shallow values. */
    constructor ()
      ensures Valid() && contents == map[] && fresh(entries)
    {
      entries := new Entry<V>[INITIAL_CAPACITY];
      size := 0;
      contents := map[];
      new;
      DoubledOnce();
    }

    /** The linear scan all operations begin with. */
    method Find(key: int) returns (i: nat)
      requires Valid()
      ensures i == KeyIndex(entries[..size], key)
    {
      i := 0;
      while i < size && entries[i].key != key
        invariant i <= size
        invariant KeyIndex(entries[..size], key) == i + KeyIndex(entries[..size][i..], key)
      {
        assert entries[..size][i..][1..] == entries[..size][i + 1..];
        i := i + 1;
      }
    }

    /** `dictionary_get`. */
    method Get(key: int) returns (r: Option<V>)
      requires Valid()
      ensures r == if key in contents then Some(contents[key]) else None
    {
      var i := Find(key);
      LookupIsSelection(entries[..size], key);
      r := if i < size then Some(entries[i].value) else None;
    }

    /** `dictionary_set`; `memory` says whether a needed `realloc` succeeds. When it does not, a new key is
        not entered. */
    method Set(key: int, value: V, memory: bool)
      requires Valid()
      modifies this, entries
      ensures Valid() && (entries == old(entries) || fresh(entries))
      ensures
        if memory || old(size) < old(entries.Length) || key in old(contents) then
          entries[..size] == Put(old(entries[..size]), key, value) && contents == old(contents)[key := value]
        else
          entries[..size] == old(entries[..size]) && contents == old(contents)
    {
      var i := Find(key);
      LookupIsSelection(entries[..size], key);
      PutIsUpdate(entries[..size], key, value);
      if i < size {
        entries[i] := Entry(key, value);
        assert entries[..size] == Put(old(entries[..size]), key, value);
        contents := contents[key := value];
        return;
      }
      if size == entries.Length {
        if !memory {
          return;
        }
        Grow();
      }
      entries[size] := Entry(key, value);
      size := size + 1;
      assert entries[..size] == Put(old(entries[..size]), key, value);
      contents := contents[key := value];
    }

    /** The `realloc` of `dictionary_set`. */
    method Grow()
      requires Valid() && size == entries.Length
      modifies this`entries
      ensures fresh(entries) && entries.Length == GROWTH_FACTOR * old(entries.Length)
      ensures size < entries.Length && Doubled(entries.Length) && entries[..size] == old(entries[..size])
    {
      DoubledAgain(entries.Length);
      var next := new Entry<V>[entries.Length * GROWTH_FACTOR];
      forall j | 0 <= j < size {
        next[j] := entries[j];
      }
      entries := next;
    }

    /** `dictionary_remove`. */
    method Remove(key: int)
      requires Valid()
      modifies this, entries
      ensures Valid() && entries == old(entries)
      ensures entries[..size] == Delete(old(entries[..size]), key)
      ensures contents == old(contents) - {key}
    {
      var i := Find(key);
      DeleteIsRemoval(entries[..size], key);
      if i < size {
        forall j | i <= j < size - 1 {
          entries[j] := entries[j + 1];
        }
        size := size - 1;
        assert entries[..size] == Delete(old(entries[..size]), key);
        contents := contents - {key};
      }
    }
  }
}
