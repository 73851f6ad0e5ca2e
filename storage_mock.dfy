/** The in-memory stand-in for `localStorage` and `sessionStorage` used by
    the test setup: a plain object holding the items, read with
    `storage[key] || null` and enumerated with `Object.keys`. Both quirks of
    that representation are kept: a stored empty string reads back as null,
    and names inherited from `Object.prototype` read back as something that
    is not null even though nothing was stored under them. */
module StorageMock {
  import opened Common

  /** What `getItem` and `key` hand back: null, a stored string, or a member
      inherited from `Object.prototype` (a function, or the prototype object
      itself for "__proto__"). */
  datatype Item = Null | Str(value: string) | Inherited(name: string)

  /** The property names every plain object inherits. */
  const ProtoNames: set<string> := {
    "constructor", "hasOwnProperty", "isPrototypeOf", "propertyIsEnumerable",
    "toString", "toLocaleString", "valueOf", "__proto__",
    "__defineGetter__", "__defineSetter__", "__lookupGetter__", "__lookupSetter__"
  }

  const ProtoKey: string := "__proto__"

  // ---------------------------------------------------------------------------
  // Reading and writing the object's own properties

  /** `storage[key] || null`. */
  function Lookup(items: map<string, string>, key: string): (r: Item)
    ensures r.Str? <==> key in items && items[key] != ""
    ensures r.Str? ==> r.value == items[key]
    ensures r.Inherited? <==> key !in items && key in ProtoNames
    ensures r.Inherited? ==> r.name == key
  {
    if key in items then (if items[key] == "" then Null else Str(items[key]))
    else if key in ProtoNames then Inherited(key)
    else Null
  }

  /** `storage[key] = value`: an own property is created or overwritten,
      except that assigning a string to "__proto__" is silently ignored. */
  function Store(items: map<string, string>, key: string, value: string): (r: map<string, string>)
    ensures key != ProtoKey ==> r == items[key := value]
    ensures key == ProtoKey ==> r == items
  {
    if key == ProtoKey then items else items[key := value]
  }

  /** Reading after writing: the written key reads back its value (null
      for the empty string), every other key reads as before, and writing
      "__proto__" changes nothing. */
  lemma ReadAfterStore(items: map<string, string>, key: string, value: string, other: string)
    ensures Lookup(Store(items, key, value), other) ==
            if other == key && key != ProtoKey then (if value == "" then Null else Str(value))
            else Lookup(items, other)
  {
  }

  /** Reading after `delete storage[key]`: the key reads as if never set
      (null, or the inherited member of that name), other keys as before. */
  lemma ReadAfterDelete(items: map<string, string>, key: string, other: string)
    ensures Lookup(items - {key}, other) ==
            if other == key then (if key in ProtoNames then Inherited(key) else Null)
            else Lookup(items, other)
  {
  }

  // ---------------------------------------------------------------------------
  // `Object.keys` order: array-index keys in ascending numeric order, then
  // every other key in the order it was created.

  /** An array index: the canonical decimal form of an integer from 0 to
      2^32 - 2. */
  predicate IsArrayIndex(s: string) {
    |s| > 0 && (forall k :: 0 <= k < |s| ==> IsDigit(s[k])) && (s[0] != '0' || |s| == 1)
    && DecimalValue(s) <= 0xFFFF_FFFE
  }

  predicate AscendingIndices(s: seq<string>) {
    forall i, j :: 0 <= i < j < |s| ==> DecimalValue(s[i]) <= DecimalValue(s[j])
  }

  lemma HeadIsLeast(s: seq<string>)
    requires s != [] && AscendingIndices(s)
    ensures forall y :: y in s ==> DecimalValue(s[0]) <= DecimalValue(y)
  {
    forall y | y in s
      ensures DecimalValue(s[0]) <= DecimalValue(y)
    {
      var j :| 0 <= j < |s| && s[j] == y;
    }
  }

  lemma ConsAscending(a: string, t: seq<string>)
    requires AscendingIndices(t)
    requires forall y :: y in t ==> DecimalValue(a) <= DecimalValue(y)
    ensures AscendingIndices([a] + t)
  {
    var s := [a] + t;
    assert forall k :: 0 < k < |s| ==> s[k] == t[k - 1];
    assert forall k :: 0 < k < |s| ==> DecimalValue(a) <= DecimalValue(s[k]);
  }

  /** The tail of an ascending list is ascending. */
  lemma TailAscending(s: seq<string>)
    requires s != [] && AscendingIndices(s)
    ensures AscendingIndices(s[1..])
  {
    forall i, j | 0 <= i < j < |s[1..]|
      ensures DecimalValue(s[1..][i]) <= DecimalValue(s[1..][j])
    {
      assert s[1..][i] == s[i + 1] && s[1..][j] == s[j + 1];
    }
  }

  /** The head of an ascending list, put in front of the tail with a larger
      key inserted, keeps the list ascending. */
  lemma InsertBehindHead(x: string, s: seq<string>, rest: seq<string>)
    requires s != [] && AscendingIndices(s) && DecimalValue(s[0]) < DecimalValue(x)
    requires AscendingIndices(rest) && multiset(rest) == multiset(s[1..]) + multiset{x}
    ensures AscendingIndices([s[0]] + rest)
  {
    HeadIsLeast(s);
    forall y | y in rest
      ensures DecimalValue(s[0]) <= DecimalValue(y)
    {
      assert y in multiset(rest);
      if y != x {
        assert y in multiset(s[1..]);
        assert y in s;
      }
    }
    ConsAscending(s[0], rest);
  }

  function InsertIndex(x: string, s: seq<string>): (r: seq<string>)
    ensures |r| == |s| + 1
    ensures multiset(r) == multiset(s) + multiset{x}
    ensures AscendingIndices(s) ==> AscendingIndices(r)
  {
    if s == [] then [x]
    else if DecimalValue(x) <= DecimalValue(s[0]) then
      assert AscendingIndices(s) ==> AscendingIndices([x] + s) by {
        if AscendingIndices(s) {
          HeadIsLeast(s);
          ConsAscending(x, s);
        }
      }
      [x] + s
    else
      var rest := InsertIndex(x, s[1..]);
      assert s == [s[0]] + s[1..];
      assert AscendingIndices(s) ==> AscendingIndices([s[0]] + rest) by {
        if AscendingIndices(s) {
          TailAscending(s);
          InsertBehindHead(x, s, rest);
        }
      }
      [s[0]] + rest
  }

  /** The array-index keys sorted by value. */
  function SortIndices(s: seq<string>): (r: seq<string>)
    ensures |r| == |s|
    ensures multiset(r) == multiset(s)
    ensures AscendingIndices(r)
  {
    if s == [] then [] else
      assert s == [s[0]] + s[1..];
      InsertIndex(s[0], SortIndices(s[1..]))
  }

  /** The array-index keys, in creation order. */
  function IndexKeys(order: seq<string>): (r: seq<string>)
    ensures forall k :: 0 <= k < |r| ==> IsArrayIndex(r[k])
    ensures forall x :: x in r <==> x in order && IsArrayIndex(x)
  {
    if order == [] then []
    else (if IsArrayIndex(order[0]) then [order[0]] else []) + IndexKeys(order[1..])
  }

  /** The other keys, in creation order. */
  function OtherKeys(order: seq<string>): (r: seq<string>)
    ensures forall k :: 0 <= k < |r| ==> !IsArrayIndex(r[k])
    ensures forall x :: x in r <==> x in order && !IsArrayIndex(x)
  {
    if order == [] then []
    else (if IsArrayIndex(order[0]) then [] else [order[0]]) + OtherKeys(order[1..])
  }

  /** Splitting into index keys and other keys loses and adds nothing. */
  lemma {:induction false} KeysPartition(order: seq<string>)
    ensures multiset(IndexKeys(order)) + multiset(OtherKeys(order)) == multiset(order)
  {
    if order != [] {
      KeysPartition(order[1..]);
      assert order == [order[0]] + order[1..];
    }
  }

  /** `Object.keys(storage)`, for own keys created in the order `order`. */
  function ObjectKeys(order: seq<string>): seq<string> {
    SortIndices(IndexKeys(order)) + OtherKeys(order)
  }

  /** The enumeration holds each own key exactly as often as `order` does;
      array-index keys come first, in ascending numeric order, and the other
      keys follow in creation order. */
  lemma ObjectKeysOrder(order: seq<string>)
    ensures multiset(ObjectKeys(order)) == multiset(order)
    ensures |ObjectKeys(order)| == |order|
    ensures forall k :: 0 <= k < |ObjectKeys(order)| ==>
              (IsArrayIndex(ObjectKeys(order)[k]) <==> k < |IndexKeys(order)|)
    ensures AscendingIndices(ObjectKeys(order)[..|IndexKeys(order)|])
    ensures ObjectKeys(order)[|IndexKeys(order)|..] == OtherKeys(order)
  {
    KeysPartition(order);
    var idx, others := IndexKeys(order), OtherKeys(order);
    var sorted := SortIndices(idx);
    SortedAreIndices(idx);
    IndexKeysFirst(sorted, others);
    assert |idx| + |others| == |order| by {
      assert |multiset(idx)| + |multiset(others)| == |multiset(order)|;
    }
    assert (sorted + others)[..|idx|] == sorted && (sorted + others)[|idx|..] == others;
  }

  /** Sorting keeps every entry an array index. */
  lemma SortedAreIndices(s: seq<string>)
    requires forall k :: 0 <= k < |s| ==> IsArrayIndex(s[k])
    ensures forall k :: 0 <= k < |SortIndices(s)| ==> IsArrayIndex(SortIndices(s)[k])
  {
    var r := SortIndices(s);
    forall k | 0 <= k < |r|
      ensures IsArrayIndex(r[k])
    {
      assert r[k] in multiset(s);
    }
  }

  /** Array indices followed by other keys: a position holds an array index
      exactly when it lies in the first part. */
  lemma IndexKeysFirst(indices: seq<string>, others: seq<string>)
    requires forall k :: 0 <= k < |indices| ==> IsArrayIndex(indices[k])
    requires forall k :: 0 <= k < |others| ==> !IsArrayIndex(others[k])
    ensures forall k :: 0 <= k < |indices + others| ==> (IsArrayIndex((indices + others)[k]) <==> k < |indices|)
  {
    forall k | 0 <= k < |indices + others|
      ensures IsArrayIndex((indices + others)[k]) <==> k < |indices|
    {
      if k >= |indices| {
        assert (indices + others)[k] == others[k - |indices|];
      }
    }
  }

  /** Every own key is enumerated. */
  lemma ObjectKeysCover(order: seq<string>)
    ensures forall k :: k in order ==> k in ObjectKeys(order)
  {
    ObjectKeysOrder(order);
    forall k | k in order
      ensures k in ObjectKeys(order)
    {
      assert k in multiset(order);
    }
  }

  predicate NoDuplicates(s: seq<string>) {
    forall i, j :: 0 <= i < j < |s| ==> s[i] != s[j]
  }

  /** `order` with `key` taken out. */
  function Without(order: seq<string>, key: string): (r: seq<string>)
    ensures forall x :: x in r <==> x in order && x != key
    ensures NoDuplicates(order) ==> NoDuplicates(r)
  {
    if order == [] then []
    else
      var rest := Without(order[1..], key);
      assert NoDuplicates(order) ==> order[0] !in order[1..] by {
        if NoDuplicates(order) {
          forall j | 0 <= j < |order[1..]|
            ensures order[1..][j] != order[0]
          {
            assert order[1..][j] == order[j + 1];
          }
        }
      }
      if order[0] == key then rest else [order[0]] + rest
  }

  /** Keys that all name properties of an empty object: there are none. */
  lemma NothingListed(order: seq<string>, items: map<string, string>)
    requires forall k :: k in order ==> k in items
    ensures items == map[] ==> order == []
  {
    if order != [] {
      assert order[0] in items;
    }
  }

  /** `Object.keys` of an object is empty exactly when the object has no
      own properties. */
  lemma EmptyIffNoKeys(order: seq<string>, items: map<string, string>)
    requires forall k :: k in items <==> k in order
    ensures ObjectKeys(order) == [] <==> items == map[]
  {
    ObjectKeysOrder(order);
    if items == map[] {
      NothingListed(order, items);
    } else {
      var k :| k in items;
      assert k in order;
    }
  }

  // ---------------------------------------------------------------------------
  // The mock object

  class Storage {
    /** The object's own keys, in creation order. */
    var order: seq<string>
    /** The object's own properties. */
    var items: map<string, string>

    ghost predicate Valid()
      reads this
    {
      (forall k :: k in items <==> k in order) && NoDuplicates(order) && ProtoKey !in items
    }

    /** `createStorageMock()`: an empty object. */
    constructor()
      ensures Valid() && items == map[] && order == []
    {
      items := map[];
      order := [];
    }

    /** `getItem`. */
    function GetItem(key: string): (r: Item)
      reads this
      ensures r == Lookup(items, key)
    {
      Lookup(items, key)
    }

    /** `setItem`: the value is stored under the key, overwriting an
        earlier one without moving the key; "__proto__" is ignored. */
    method SetItem(key: string, value: string)
      requires Valid()
      modifies this
      ensures Valid()
      ensures items == Store(old(items), key, value)
      ensures order == if key == ProtoKey || key in old(items) then old(order) else old(order) + [key]
    {
      if key != ProtoKey {
        if key !in items {
          order := order + [key];
        }
        items := items[key := value];
      }
    }

    /** `removeItem`: only that key goes; its inherited namesake, if any,
        shows through again. */
    method RemoveItem(key: string)
      requires Valid()
      modifies this
      ensures Valid()
      ensures items == old(items) - {key}
      ensures order == Without(old(order), key)
    {
      items := items - {key};
      order := Without(order, key);
    }

    /** `clear`: every key `Object.keys` lists is deleted in turn, which
        leaves the object empty. */
    method Clear()
      requires Valid()
      modifies this
      ensures Valid() && items == map[] && order == []
    {
      var keys := ObjectKeys(order);
      ObjectKeysCover(order);
      RemoveAll(keys);
    }

    /** The loop of `clear`: deleting, one by one, a list of keys that
        covers every own key. */
    method RemoveAll(keys: seq<string>)
      requires Valid()
      requires forall k :: k in items ==> k in keys
      modifies this
      ensures Valid() && items == map[] && order == []
    {
      var i := 0;
      while i < |keys|
        invariant 0 <= i <= |keys|
        invariant Valid()
        invariant forall k :: k in items ==> k in keys[i..]
      {
        assert keys[i..] == [keys[i]] + keys[i + 1..];
        RemoveItem(keys[i]);
        i := i + 1;
      }
      NothingListed(order, items);
    }

    /** `length`: the constant 0. */
    function Length(): (n: nat)
      ensures n == 0
    {
      0
    }

    /** `key(index)`: the key at that position of `Object.keys`, or null
        past either end and for the empty-string key. */
    function Key(index: int): (r: Item)
      requires Valid()
      reads this
      ensures r.Null? || r.Str?
      ensures r.Str? <==> 0 <= index < |ObjectKeys(order)| && ObjectKeys(order)[index] != ""
      ensures r.Str? ==> r.value in items && r.value == ObjectKeys(order)[index]
    {
      ObjectKeysOrder(order);
      var keys := ObjectKeys(order);
      if 0 <= index < |keys| && keys[index] != "" then
        assert keys[index] in multiset(order);
        Str(keys[index])
      else Null
    }
  }

  /** The reported length agrees with the number of keys `Object.keys`
      enumerates only while the store is empty. */
  lemma LengthIgnoresContents(s: Storage)
    requires s.Valid()
    ensures s.Length() == |ObjectKeys(s.order)| <==> s.items == map[]
  {
    EmptyIffNoKeys(s.order, s.items);
  }

  /** The two globals: two separate objects, so writing one never changes
      the other (every method above modifies only its own object). */
  method CreateGlobals() returns (local: Storage, session: Storage)
    ensures fresh(local) && fresh(session) && local != session
    ensures local.Valid() && local.items == map[] && session.Valid() && session.items == map[]
  {
    local := new Storage();
    session := new Storage();
  }
}
