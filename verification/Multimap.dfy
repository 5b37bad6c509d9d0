/** `std::multimap` with string keys, as the sorted sequence of its entries. */
module Multimap {
  import opened Text

  datatype Entry<+V> = Entry(key: string, value: V)

  function Keys<V>(entries: seq<Entry<V>>): (keys: seq<string>)
    ensures |keys| == |entries| && forall i | 0 <= i < |entries| :: keys[i] == entries[i].key
  {
    seq(|entries|, i requires 0 <= i < |entries| => entries[i].key)
  }

  predicate Sorted(keys: seq<string>) {
    forall i, j | 0 <= i < j < |keys| :: !Less(keys[j], keys[i])
  }

  /** The range of a key: everything before `lo` is smaller, everything from `hi` on is greater. */
  ghost predicate IsRange(keys: seq<string>, key: string, lo: nat, hi: nat) {
    lo <= hi <= |keys| &&
    (forall i | 0 <= i < lo :: Less(keys[i], key)) &&
    (forall i | lo <= i < hi :: keys[i] == key) &&
    (forall i | hi <= i < |keys| :: Less(key, keys[i]))
  }

  /** How many leading keys are smaller than `key`. */
  function LowerBound(keys: seq<string>, key: string): (lo: nat)
    ensures lo <= |keys|
    ensures forall i | 0 <= i < lo :: Less(keys[i], key)
    ensures lo < |keys| ==> !Less(keys[lo], key)
  {
    if keys == [] || !Less(keys[0], key) then 0 else 1 + LowerBound(keys[1..], key)
  }

  /** How many leading keys are not greater than `key`. */
  function UpperBound(keys: seq<string>, key: string): (hi: nat)
    ensures hi <= |keys|
    ensures forall i | 0 <= i < hi :: !Less(key, keys[i])
    ensures hi < |keys| ==> Less(key, keys[hi])
  {
    if keys == [] || Less(key, keys[0]) then 0 else 1 + UpperBound(keys[1..], key)
  }

  /** `equal_range` of a sorted multimap holds exactly the entries of the key. */
  lemma EqualRangeIsExact(keys: seq<string>, key: string)
    requires Sorted(keys)
    ensures IsRange(keys, key, LowerBound(keys, key), UpperBound(keys, key))
  {
    var lo, hi := LowerBound(keys, key), UpperBound(keys, key);
    if hi < lo {
      LessTransitive(keys[hi], key, keys[hi]);
      LessIrreflexive(keys[hi]);
    }
    forall i | lo <= i < hi ensures keys[i] == key {
      LessTotal(keys[i], key);
      if Less(keys[i], key) {
        NotLessChains(keys, lo, i, key);
      }
    }
    forall i | hi <= i < |keys| ensures Less(key, keys[i]) {
      LessTotal(keys[i], key);
      LessTotal(keys[i], keys[hi]);
      if Less(keys[i], key) {
        LessTransitive(keys[i], key, keys[hi]);
      } else if Less(keys[hi], keys[i]) {
        LessTransitive(key, keys[hi], keys[i]);
      }
    }
  }

  lemma NotLessChains(keys: seq<string>, lo: nat, i: nat, key: string)
    requires Sorted(keys) && lo <= i < |keys| && !Less(keys[lo], key)
    ensures !Less(keys[i], key)
  {
    if Less(keys[i], key) {
      LessTotal(keys[lo], key);
      if Less(key, keys[lo]) {
        LessTransitive(keys[i], key, keys[lo]);
      }
    }
  }

  /** A position with the properties of the bound is the bound. */
  lemma {:induction false} UpperBoundIsUnique(keys: seq<string>, key: string, hi: nat)
    requires hi <= |keys| && forall i | 0 <= i < hi :: !Less(key, keys[i])
    requires hi < |keys| ==> Less(key, keys[hi])
    ensures hi == UpperBound(keys, key)
  {
  }

  /** Inserted after the entries of the same key. */
  function Insert<V>(entries: seq<Entry<V>>, e: Entry<V>): seq<Entry<V>> {
    var k := UpperBound(Keys(entries), e.key);
    entries[..k] + [e] + entries[k..]
  }

  function Erase<V>(entries: seq<Entry<V>>, i: nat): seq<Entry<V>>
    requires i < |entries|
  {
    entries[..i] + entries[i + 1..]
  }

  lemma InsertKeepsSorted<V>(entries: seq<Entry<V>>, e: Entry<V>)
    requires Sorted(Keys(entries))
    ensures Sorted(Keys(Insert(entries, e)))
  {
    var keys := Keys(entries);
    EqualRangeIsExact(keys, e.key);
    var k := UpperBound(keys, e.key);
    forall j | k <= j < |keys| ensures !Less(keys[j], e.key) {
      if Less(keys[j], e.key) {
        LessTransitive(keys[j], e.key, keys[j]);
        LessIrreflexive(keys[j]);
      }
    }
    assert Keys(Insert(entries, e)) == keys[..k] + [e.key] + keys[k..];
    hide Insert, Keys, IsRange;
    SortedAround(keys, k, e.key);
  }

  /** A new entry goes after every entry of its key and before every greater one; the others keep their order. */
  lemma InsertGoesAfterItsEquals<V>(entries: seq<Entry<V>>, e: Entry<V>)
    requires Sorted(Keys(entries))
    ensures exists k | 0 <= k <= |entries| ::
              Insert(entries, e) == entries[..k] + [e] + entries[k..] &&
              (forall i | 0 <= i < k :: !Less(e.key, entries[i].key)) &&
              (forall i | k <= i < |entries| :: Less(e.key, entries[i].key))
  {
    EqualRangeIsExact(Keys(entries), e.key);
    var k := UpperBound(Keys(entries), e.key);
    assert forall i | 0 <= i < |entries| :: Keys(entries)[i] == entries[i].key;
    assert Insert(entries, e) == entries[..k] + [e] + entries[k..];
  }

  lemma SortedAround(keys: seq<string>, k: nat, key: string)
    requires Sorted(keys) && k <= |keys|
    requires (forall i | 0 <= i < k :: !Less(key, keys[i])) && forall j | k <= j < |keys| :: !Less(keys[j], key)
    ensures Sorted(keys[..k] + [key] + keys[k..])
  {
  }
}
