/** How a plain JavaScript object (`{}`) used as a dictionary behaves: the
    order in which `for…in` visits its own keys (section 10.1.11.1,
    OrdinaryOwnPropertyKeys, of ECMA-262: array-index keys first in ascending
    numeric order, then the other string keys in insertion order), and the
    property names every such object inherits from `Object.prototype`. */
module JsObjectKeys {
  import opened Seqs
  import opened JsStrings

  /** 2^32 - 1: array indices are the integers below it. */
  const ArrayIndexLimit: nat := 4294967295

  /** A key that is the canonical decimal spelling of an array index. */
  predicate IsArrayIndex(k: string) {
    k != [] && AllDigits(k) && (k[0] == '0' ==> |k| == 1) && DigitsValue(k) < ArrayIndexLimit
  }

  /** The numeric value of an array-index key; 0 for any other key. */
  function IndexValue(k: string): nat {
    if IsArrayIndex(k) then DigitsValue(k) else 0
  }

  predicate SortedByIndex(s: seq<string>) {
    forall i, j :: 0 <= i < j < |s| ==> IndexValue(s[i]) <= IndexValue(s[j])
  }

  function InsertByIndex(k: string, s: seq<string>): (r: seq<string>)
    ensures multiset(r) == multiset(s) + multiset{k}
  {
    if s == [] || IndexValue(k) <= IndexValue(s[0]) then [k] + s
    else
      assert s == [s[0]] + s[1..];
      [s[0]] + InsertByIndex(k, s[1..])
  }

  /** Putting a key no greater than the head in front keeps a run sorted. */
  lemma SortedCons(k: string, s: seq<string>)
    requires SortedByIndex(s)
    requires s != [] ==> IndexValue(k) <= IndexValue(s[0])
    ensures SortedByIndex([k] + s)
  {
    forall i, j | 0 <= i < j < |[k] + s| ensures IndexValue(([k] + s)[i]) <= IndexValue(([k] + s)[j]) {
      if i == 0 && j > 1 {
        assert IndexValue(s[0]) <= IndexValue(s[j - 1]);
      }
    }
  }

  /** Insertion puts the new key or the old head first. */
  lemma InsertHead(k: string, s: seq<string>)
    ensures InsertByIndex(k, s) != []
    ensures InsertByIndex(k, s)[0] == k || (s != [] && InsertByIndex(k, s)[0] == s[0])
  {
  }

  lemma {:induction false} InsertSorted(k: string, s: seq<string>)
    requires SortedByIndex(s)
    ensures SortedByIndex(InsertByIndex(k, s))
  {
    if s == [] || IndexValue(k) <= IndexValue(s[0]) {
      SortedCons(k, s);
    } else {
      var rest := InsertByIndex(k, s[1..]);
      assert SortedByIndex(s[1..]);
      InsertSorted(k, s[1..]);
      InsertHead(k, s[1..]);
      SortedCons(s[0], rest);
    }
  }

  /** The keys of `s` in ascending numeric order (insertion sort). */
  function SortByIndex(s: seq<string>): (r: seq<string>)
    ensures multiset(r) == multiset(s)
    ensures SortedByIndex(r)
  {
    if s == [] then []
    else
      assert s == s[..|s| - 1] + [s[|s| - 1]];
      InsertSorted(s[|s| - 1], SortByIndex(s[..|s| - 1]));
      InsertByIndex(s[|s| - 1], SortByIndex(s[..|s| - 1]))
  }

  function IsNotArrayIndex(k: string): bool {
    !IsArrayIndex(k)
  }

  /** The order in which `for…in` visits an object whose own keys were
      created in the order `keys`. */
  function ForInOrder(keys: seq<string>): (order: seq<string>)
    ensures multiset(order) == multiset(keys)
  {
    FilterSplit(keys, IsArrayIndex, IsNotArrayIndex);
    SortByIndex(Filter(keys, IsArrayIndex)) + Filter(keys, IsNotArrayIndex)
  }

  /** `for…in` visits every key exactly as often as it was created. */
  lemma ForInOrderPermutation(keys: seq<string>)
    ensures multiset(ForInOrder(keys)) == multiset(keys)
    ensures forall k :: k in ForInOrder(keys) <==> k in keys
  {
    FilterSplit(keys, IsArrayIndex, IsNotArrayIndex);
    assert forall k :: k in ForInOrder(keys) <==> k in multiset(ForInOrder(keys));
  }

  /** The visiting order is an ascending run of array-index keys followed by
      the remaining keys in creation order. */
  lemma ForInOrderShape(keys: seq<string>)
    ensures var order := ForInOrder(keys);
      exists n :: 0 <= n <= |order| && SortedByIndex(order[..n])
        && (forall i :: 0 <= i < n ==> IsArrayIndex(order[i]))
        && order[n..] == Filter(keys, IsNotArrayIndex)
  {
    var sorted := SortByIndex(Filter(keys, IsArrayIndex));
    var order := ForInOrder(keys);
    forall i | 0 <= i < |sorted| ensures IsArrayIndex(sorted[i]) {
      assert sorted[i] in multiset(Filter(keys, IsArrayIndex));
    }
    assert order[..|sorted|] == sorted;
    assert order[|sorted|..] == Filter(keys, IsNotArrayIndex);
  }

  /** With no array-index key, `for…in` follows creation order exactly. */
  lemma ForInOrderNoIndexKeys(keys: seq<string>)
    requires forall i :: 0 <= i < |keys| ==> !IsArrayIndex(keys[i])
    ensures ForInOrder(keys) == keys
  {
    FilterAll(keys, IsNotArrayIndex);
    FilterNone(keys, IsArrayIndex);
  }

  lemma {:induction false} InsertDistinct(k: string, s: seq<string>)
    requires Distinct(s) && k !in s
    ensures Distinct(InsertByIndex(k, s))
  {
    if s == [] || IndexValue(k) <= IndexValue(s[0]) {
      DistinctCons(k, s);
    } else {
      assert s == [s[0]] + s[1..];
      assert forall i :: 0 <= i < |s| - 1 ==> s[1..][i] == s[i + 1];
      InsertDistinct(k, s[1..]);
      assert s[0] !in multiset(InsertByIndex(k, s[1..]));
      DistinctCons(s[0], InsertByIndex(k, s[1..]));
    }
  }

  lemma {:induction false} SortDistinct(s: seq<string>)
    requires Distinct(s)
    ensures Distinct(SortByIndex(s))
  {
    if s != [] {
      var init := s[..|s| - 1];
      assert forall i :: 0 <= i < |init| ==> init[i] == s[i];
      SortDistinct(init);
      assert s[|s| - 1] !in multiset(SortByIndex(init));
      InsertDistinct(s[|s| - 1], SortByIndex(init));
    }
  }

  /** `for…in` never visits a key twice. */
  lemma ForInOrderDistinct(keys: seq<string>)
    requires Distinct(keys)
    ensures Distinct(ForInOrder(keys))
  {
    var a := SortByIndex(Filter(keys, IsArrayIndex));
    var b := Filter(keys, IsNotArrayIndex);
    FilterDistinct(keys, IsArrayIndex);
    FilterDistinct(keys, IsNotArrayIndex);
    SortDistinct(Filter(keys, IsArrayIndex));
    forall i | 0 <= i < |a| ensures a[i] !in b {
      assert a[i] in multiset(Filter(keys, IsArrayIndex));
    }
    DistinctAppend(a, b);
  }

  /** The names a plain object inherits from `Object.prototype` (section 20.1.3
      of ECMA-262 and its Annex B): reading one of them on `{}` yields an
      inherited function or object, never `undefined`. */
  predicate IsInheritedName(k: string) {
    k in ["constructor", "hasOwnProperty", "isPrototypeOf", "propertyIsEnumerable",
          "toLocaleString", "toString", "valueOf", "__proto__",
          "__defineGetter__", "__defineSetter__", "__lookupGetter__", "__lookupSetter__"]
  }
}
