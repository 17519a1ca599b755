/**
 * Sources/ParserCore2/IndexDictionary.swift: a dictionary kept as an array of
 * (key, value) items sorted by key, searched by bisection.
 */
module IndexDictionaries {
  import opened Wrappers
  import opened MemoKeys
  import Utils

  datatype Item<V> = Item(key: Key, value: V)

  /** The items are strictly increasing by key (so every key occurs at most once). */
  ghost predicate Sorted<V>(items: seq<Item<V>>)
  {
    forall i, j :: 0 <= i < j < |items| ==> Less(items[i].key, items[j].key)
  }

  /** The value stored under `key`: the first item carrying that key, if any. */
  function Find<V>(items: seq<Item<V>>, key: Key): (r: Option<V>)
    ensures r.Some? ==> exists i :: 0 <= i < |items| && items[i] == Item(key, r.value)
    ensures r.None? ==> forall i :: 0 <= i < |items| ==> items[i].key != key
  {
    if items == [] then None
    else if items[0].key == key then Some(items[0].value)
    else
      var r := Find(items[1..], key);
      assert r.Some? ==> items[1..][0..] == items[1..];
      r
  }

  /** In a sorted array, `Find` returns the value of the one item carrying the key. */
  lemma FindSorted<V>(items: seq<Item<V>>, i: nat)
    requires Sorted(items) && i < |items|
    ensures Find(items, items[i].key) == Some(items[i].value)
  {
    var r := Find(items, items[i].key);
    var j :| 0 <= j < |items| && items[j] == Item(items[i].key, r.value);
    if j != i {
      if j < i { LessIrreflexive(items[i].key); } else { LessIrreflexive(items[i].key); }
    }
  }

  /** `Find` on a sorted array, in terms of the items alone. */
  lemma FindSortedIff<V>(items: seq<Item<V>>, key: Key, v: V)
    requires Sorted(items)
    ensures Find(items, key) == Some(v) <==> Item(key, v) in items
  {
    if Item(key, v) in items {
      var i :| 0 <= i < |items| && items[i] == Item(key, v);
      FindSorted(items, i);
    }
  }

  class IndexDictionary<V> {
    var items: seq<Item<V>>

    ghost predicate Valid()
      reads this
    {
      Sorted(items)
    }

    constructor ()
      ensures Valid() && items == []
    {
      items := [];
    }

    /**
     * `intendedIndex(of:)`: the first index whose key is not below `key`,
     * found by bisection.
     */
    method IntendedIndex(key: Key) returns (index: nat)
      requires Valid()
      ensures index <= |items|
      ensures forall j :: 0 <= j < index ==> Less(items[j].key, key)
      ensures forall j :: index <= j < |items| ==> !Less(items[j].key, key)
    {
      var lower, upper := 0, |items|;
      while upper - lower > 0
        invariant 0 <= lower <= upper <= |items|
        invariant forall j :: 0 <= j < lower ==> Less(items[j].key, key)
        invariant forall j :: upper <= j < |items| ==> !Less(items[j].key, key)
        decreases upper - lower
      {
        var middle := lower + (upper - lower) / 2;
        var candidate := items[middle].key;
        if Less(candidate, key) {
          forall j | 0 <= j < middle
            ensures Less(items[j].key, key)
          {
            LessTransitive(items[j].key, candidate, key);
          }
          lower := middle + 1;
        } else {
          forall j | middle < j < |items|
            ensures !Less(items[j].key, key)
          {
            if Less(items[j].key, key) {
              LessTransitive(candidate, items[j].key, key);
            }
          }
          upper := middle;
        }
      }
      index := lower;
    }

    /** `get(_:)`: the value stored under `key`, or nil. */
    method Get(key: Key) returns (r: Option<V>)
      requires Valid()
      ensures r == Find(items, key)
    {
      var index := IntendedIndex(key);
      var item := Utils.SafeAt(items, index);
      if item.Some? && item.value.key == key {
        r := Some(item.value.value);
        FindSorted(items, index);
      } else {
        r := None;
        forall j | 0 <= j < |items|
          ensures items[j].key != key
        {
          if j < index {
            LessIrreflexive(key);
          } else if j > index {
            assert Less(items[index].key, items[j].key);
          }
        }
      }
    }

    /**
     * `set(_:value:)`: stores `value` under `key`, or removes the key when the
     * value is nil; every other key keeps its value and the items stay sorted.
     */
    method Set(key: Key, value: Option<V>)
      requires Valid()
      modifies this
      ensures Valid()
      ensures forall k :: Find(items, k) == if k == key then value else Find(old(items), k)
    {
      var index := IntendedIndex(key);
      var old_items := items;
      var present := Utils.SafeAt(items, index);
      // Every key after the intended index lies above `key`.
      forall j | index <= j < |items| && items[j].key != key
        ensures Less(key, items[j].key)
      {
        LessTrichotomy(key, items[j].key);
      }
      if present.Some? && present.value.key == key {
        if value.Some? {
          items := items[index := Item(key, value.value)];
        } else {
          items := items[..index] + items[index + 1..];
        }
      } else if value.Some? {
        items := items[..index] + [Item(key, value.value)] + items[index..];
      }
      SetFrame(old_items, items, index, key, value);
    }
  }

  /** `Find` on two sorted arrays agrees on a key that both carry with the same values. */
  lemma FindSame<V>(a: seq<Item<V>>, b: seq<Item<V>>, k: Key)
    requires Sorted(a) && Sorted(b)
    requires forall w :: Item(k, w) in a <==> Item(k, w) in b
    ensures Find(a, k) == Find(b, k)
  {
    var ra, rb := Find(a, k), Find(b, k);
    if ra.Some? {
      FindSortedIff(a, k, ra.value);
      FindSortedIff(b, k, ra.value);
    } else if rb.Some? {
      FindSortedIff(b, k, rb.value);
      FindSortedIff(a, k, rb.value);
    }
  }

  /** Inserting an item between the keys below it and the keys above it keeps the array sorted. */
  lemma InsertSorted<V>(before: seq<Item<V>>, index: nat, item: Item<V>)
    requires Sorted(before) && index <= |before|
    requires forall j :: 0 <= j < index ==> Less(before[j].key, item.key)
    requires forall j :: index <= j < |before| ==> Less(item.key, before[j].key)
    ensures Sorted(before[..index] + [item] + before[index..])
  {
    var after := before[..index] + [item] + before[index..];
    assert forall k :: 0 <= k < index ==> after[k] == before[k];
    assert after[index] == item;
    assert forall k :: index < k < |after| ==> after[k] == before[k - 1];
  }

  /** Removing an item keeps the array sorted. */
  lemma RemoveSorted<V>(before: seq<Item<V>>, index: nat)
    requires Sorted(before) && index < |before|
    ensures Sorted(before[..index] + before[index + 1..])
  {
    var after := before[..index] + before[index + 1..];
    assert forall k :: 0 <= k < index ==> after[k] == before[k];
    assert forall k :: index <= k < |after| ==> after[k] == before[k + 1];
  }

  /** The three ways `set` reshapes the array each store `value` under `key` and nothing else. */
  lemma SetFrame<V>(before: seq<Item<V>>, after: seq<Item<V>>, index: nat, key: Key, value: Option<V>)
    requires Sorted(before) && index <= |before|
    requires forall j :: 0 <= j < index ==> Less(before[j].key, key)
    requires forall j :: index <= j < |before| && before[j].key != key ==> Less(key, before[j].key)
    requires
      if index < |before| && before[index].key == key then
        if value.Some? then after == before[index := Item(key, value.value)]
        else after == before[..index] + before[index + 1..]
      else if value.Some? then after == before[..index] + [Item(key, value.value)] + before[index..]
      else after == before
    ensures Sorted(after)
    ensures forall k :: Find(after, k) == if k == key then value else Find(before, k)
  {
    // Only the intended index can carry `key`.
    forall j | 0 <= j < |before| && j != index
      ensures before[j].key != key
    {
      if j < index {
        LessIrreflexive(key);
      } else if before[j].key == key {
        LessIrreflexive(key);
        if before[index].key != key {
          LessTransitive(key, before[index].key, before[j].key);
        }
      }
    }
    if index < |before| && before[index].key == key {
      if value.Some? {
        forall k | k != key
          ensures Find(after, k) == Find(before, k)
        {
          assert forall w :: Item(k, w) in after <==> Item(k, w) in before by {
            forall w ensures Item(k, w) in after ==> Item(k, w) in before {
              if Item(k, w) in after {
                var i :| 0 <= i < |after| && after[i] == Item(k, w);
                assert before[i] == after[i];
              }
            }
            forall w ensures Item(k, w) in before ==> Item(k, w) in after {
              if Item(k, w) in before {
                var i :| 0 <= i < |before| && before[i] == Item(k, w);
                assert after[i] == before[i];
              }
            }
          }
          FindSame(after, before, k);
        }
        FindSorted(after, index);
      } else {
        RemoveSorted(before, index);
        assert forall i :: 0 <= i < index ==> after[i] == before[i];
        assert forall i :: index <= i < |after| ==> after[i] == before[i + 1];
        forall k | k != key
          ensures Find(after, k) == Find(before, k)
        {
          assert forall w :: Item(k, w) in after <==> Item(k, w) in before by {
            forall w ensures Item(k, w) in before ==> Item(k, w) in after {
              if Item(k, w) in before {
                var i :| 0 <= i < |before| && before[i] == Item(k, w);
                if i < index { assert after[i] == before[i]; } else { assert after[i - 1] == before[i]; }
              }
            }
          }
          FindSame(after, before, k);
        }
      }
    } else if value.Some? {
      InsertSorted(before, index, Item(key, value.value));
      assert forall i :: 0 <= i < index ==> after[i] == before[i];
      assert forall i :: index < i < |after| ==> after[i] == before[i - 1];
      assert after[index] == Item(key, value.value);
      forall k | k != key
        ensures Find(after, k) == Find(before, k)
      {
        assert forall w :: Item(k, w) in after <==> Item(k, w) in before by {
          forall w ensures Item(k, w) in before ==> Item(k, w) in after {
            if Item(k, w) in before {
              var i :| 0 <= i < |before| && before[i] == Item(k, w);
              if i < index { assert after[i] == before[i]; } else { assert after[i + 1] == before[i]; }
            }
          }
        }
        FindSame(after, before, k);
      }
      FindSorted(after, index);
    }
  }
}
